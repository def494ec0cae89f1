/**
 * The builder of Paginators. Setters update the builder in place and return it; the column
 * count and the items per page are checked as they are set, the rest when the Paginator is
 * built.
 */
module PaginatorBuilders {
  import opened Wrappers
  import opened Host
  import opened Menus
  import opened Pagination
  import MenuBuilders

  /** The builder's own settings, gathered into one value. */
  datatype Settings = Settings(
    color: (int, int) -> Option<Color>,
    text: Option<(int, int) -> string>,
    finalAction: Callback,
    columns: int,
    itemsPerPage: int,
    showPageNumbers: bool,
    numberItems: bool,
    waitOnSinglePage: bool,
    client: Option<Client>,
    strings: seq<string>)

  class PaginatorBuilder {
    /** The settings every menu builder has (users, roles, timeout, waiter). */
    const menu: MenuBuilders.MenuBuilder
    var color: (int, int) -> Option<Color>
    var text: Option<(int, int) -> string>
    var finalAction: Callback
    var columns: int
    var itemsPerPage: int
    var showPageNumbers: bool
    var numberItems: bool
    var waitOnSinglePage: bool
    var client: Option<Client>
    var strings: seq<string>

    function Fields(): Settings
      reads this
    {
      Settings(color, text, finalAction, columns, itemsPerPage, showPageNumbers, numberItems,
               waitOnSinglePage, client, strings)
    }

    /** What setColumns and setItemsPerPage enforce. */
    predicate Valid()
      reads this
    {
      1 <= columns <= 3 && itemsPerPage >= 1
    }

    /**
     * The defaults: no colour, empty text, delete the message when done, one column, twelve
     * items a page, page numbers shown, items not numbered, no waiting on a single page, no
     * client and no items.
     */
    constructor ()
      ensures Valid() && fresh(menu)
      ensures forall page, pages :: color(page, pages) == None
      ensures text.Some? && forall page, pages :: text.value(page, pages) == ""
      ensures finalAction == DeleteMessage
      ensures columns == 1 && itemsPerPage == 12
      ensures showPageNumbers && !numberItems && !waitOnSinglePage
      ensures client == None && strings == []
      ensures menu.waiter == null && menu.users == {} && menu.roles == {}
      ensures menu.timeout == -1 && menu.unit == Some(MINUTES)
    {
      menu := new MenuBuilders.MenuBuilder();
      color := (page, pages) => None;
      text := Some((page, pages) => "");
      finalAction := DeleteMessage;
      columns, itemsPerPage := 1, 12;
      showPageNumbers, numberItems, waitOnSinglePage := true, false, false;
      client := None;
      strings := [];
    }

    /** setColor(Color): the same colour on every page. */
    method SetColor(c: Option<Color>) returns (b: PaginatorBuilder)
      modifies this
      ensures b == this && forall page, pages :: color(page, pages) == c
      ensures Fields() == old(Fields()).(color := color)
    {
      color := (page, pages) => c;
      b := this;
    }

    /** setColor(BiFunction): the colour as a function of (page, pages). */
    method SetColorFunction(f: (int, int) -> Option<Color>) returns (b: PaginatorBuilder)
      modifies this
      ensures b == this && Fields() == old(Fields()).(color := f)
    {
      color := f;
      b := this;
    }

    /** setText(String): the same text on every page. */
    method SetText(t: string) returns (b: PaginatorBuilder)
      modifies this
      ensures b == this && text.Some? && forall page, pages :: text.value(page, pages) == t
      ensures Fields() == old(Fields()).(text := text)
    {
      text := Some((page, pages) => t);
      b := this;
    }

    /** setText(BiFunction): the text as a function of (page, pages), or none. */
    method SetTextFunction(f: Option<(int, int) -> string>) returns (b: PaginatorBuilder)
      modifies this
      ensures b == this && Fields() == old(Fields()).(text := f)
    {
      text := f;
      b := this;
    }

    method SetFinalAction(a: Callback) returns (b: PaginatorBuilder)
      modifies this
      ensures b == this && Fields() == old(Fields()).(finalAction := a)
    {
      finalAction := a;
      b := this;
    }

    /** setColumns: only 1, 2 or 3; anything else is refused and changes nothing. */
    method SetColumns(n: int) returns (r: Result<PaginatorBuilder, Thrown>)
      modifies this
      ensures (n < 1 || n > 3) ==> r == Err(IllegalArgument("Only 1, 2, or 3 columns are supported")) && Fields() == old(Fields())
      ensures 1 <= n <= 3 ==> r == Ok(this) && Fields() == old(Fields()).(columns := n)
      ensures old(Valid()) ==> Valid()
    {
      if n < 1 || n > 3 {
        return Err(IllegalArgument("Only 1, 2, or 3 columns are supported"));
      }
      columns := n;
      r := Ok(this);
    }

    /** setItemsPerPage: at least one; anything less is refused and changes nothing. */
    method SetItemsPerPage(n: int) returns (r: Result<PaginatorBuilder, Thrown>)
      modifies this
      ensures n < 1 ==> r == Err(IllegalArgument("There must be at least one item per page")) && Fields() == old(Fields())
      ensures n >= 1 ==> r == Ok(this) && Fields() == old(Fields()).(itemsPerPage := n)
      ensures old(Valid()) ==> Valid()
    {
      if n < 1 {
        return Err(IllegalArgument("There must be at least one item per page"));
      }
      itemsPerPage := n;
      r := Ok(this);
    }

    method ShowPageNumbers(show: bool) returns (b: PaginatorBuilder)
      modifies this
      ensures b == this && Fields() == old(Fields()).(showPageNumbers := show)
    {
      showPageNumbers := show;
      b := this;
    }

    method UseNumberedItems(number: bool) returns (b: PaginatorBuilder)
      modifies this
      ensures b == this && Fields() == old(Fields()).(numberItems := number)
    {
      numberItems := number;
      b := this;
    }

    method WaitOnSinglePage(wait: bool) returns (b: PaginatorBuilder)
      modifies this
      ensures b == this && Fields() == old(Fields()).(waitOnSinglePage := wait)
    {
      waitOnSinglePage := wait;
      b := this;
    }

    method ClearItems() returns (b: PaginatorBuilder)
      modifies this
      ensures b == this && Fields() == old(Fields()).(strings := [])
    {
      strings := [];
      b := this;
    }

    /** addItems: the given items go after those already there, in order. */
    method AddItems(items: seq<string>) returns (b: PaginatorBuilder)
      modifies this
      ensures b == this && Fields() == old(Fields()).(strings := old(strings) + items)
    {
      strings := strings + items;
      b := this;
    }

    /** setItems: exactly the given items, in order. */
    method SetItems(items: seq<string>) returns (b: PaginatorBuilder)
      modifies this
      ensures b == this && Fields() == old(Fields()).(strings := items)
    {
      strings := [];
      strings := strings + items;
      b := this;
    }

    method SetClient(c: Option<Client>) returns (b: PaginatorBuilder)
      modifies this
      ensures b == this && Fields() == old(Fields()).(client := c)
    {
      client := c;
      b := this;
    }

    /**
     * build: refuses a missing waiter, then an empty item list, then a missing client, in that
     * order; otherwise the Paginator carries every setting, and is well formed, so it has at
     * least one page.
     */
    method Build() returns (r: Result<Paginator, Thrown>)
      requires Valid()
      ensures menu.waiter == null ==> r == Err(IllegalArgument("Must set an EventWaiter"))
      ensures menu.waiter != null && strings == [] ==> r == Err(IllegalArgument("Must include at least one item to paginate"))
      ensures menu.waiter != null && strings != [] && client == None ==> r == Err(IllegalArgument("Client can not be null"))
      ensures r.Ok? <==> menu.waiter != null && strings != [] && client.Some?
      ensures r.Ok? ==> && WellFormed(r.value) && Pages(r.value) >= 1
                        && r.value.core == MenuCore(menu.users, menu.roles, menu.timeout, menu.unit, client.value)
                        && r.value.items == strings && r.value.columns == columns
                        && r.value.itemsPerPage == itemsPerPage && r.value.color == color && r.value.text == text
                        && r.value.finalAction == finalAction && r.value.showPageNumbers == showPageNumbers
                        && r.value.numberItems == numberItems && r.value.waitOnSinglePage == waitOnSinglePage
    {
      if menu.waiter == null {
        return Err(IllegalArgument("Must set an EventWaiter"));
      }
      if strings == [] {
        return Err(IllegalArgument("Must include at least one item to paginate"));
      }
      if client == None {
        return Err(IllegalArgument("Client can not be null"));
      }
      var p := Paginator(MenuCore(menu.users, menu.roles, menu.timeout, menu.unit, client.value),
                         color, text, finalAction, columns, itemsPerPage, showPageNumbers, numberItems,
                         strings, waitOnSinglePage);
      PagesPositive(p);
      r := Ok(p);
    }
  }
}
