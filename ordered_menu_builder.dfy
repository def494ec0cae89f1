/**
 * The builder of OrderedMenus. Setters update the builder in place and return it; build
 * checks that the menu has a waiter, one to ten choices, an action, some text or a
 * description, and a client.
 */
module OrderedMenuBuilders {
  import opened Wrappers
  import opened Host
  import opened Menus
  import opened OrderedMenus
  import MenuBuilders

  /** The builder's own settings, gathered into one value. */
  datatype Settings = Settings(
    color: Option<Color>,
    text: Option<string>,
    description: Option<string>,
    choices: seq<string>,
    action: Option<Callback>,
    cancel: Callback,
    useLetters: bool,
    allowTypedInput: bool,
    addCancel: bool,
    client: Option<Client>)

  class OrderedMenuBuilder {
    /** The settings every menu builder has (users, roles, timeout, waiter). */
    const menu: MenuBuilders.MenuBuilder
    var color: Option<Color>
    var text: Option<string>
    var description: Option<string>
    var choices: seq<string>
    var action: Option<Callback>
    var cancel: Callback
    var useLetters: bool
    var allowTypedInput: bool
    var addCancel: bool
    var client: Option<Client>

    function Fields(): Settings
      reads this
    {
      Settings(color, text, description, choices, action, cancel, useLetters, allowTypedInput,
               addCancel, client)
    }

    /**
     * The defaults: numbers, typed input allowed, no cancel button, a cancel callback that
     * does nothing, and nothing else set.
     */
    constructor ()
      ensures fresh(menu)
      ensures Fields() == Settings(None, None, None, [], None, NoOp, false, true, false, None)
      ensures menu.waiter == null && menu.users == {} && menu.roles == {}
      ensures menu.timeout == -1 && menu.unit == Some(MINUTES)
    {
      menu := new MenuBuilders.MenuBuilder();
      color, text, description, choices := None, None, None, [];
      action, cancel := None, NoOp;
      useLetters, allowTypedInput, addCancel := false, true, false;
      client := None;
    }

    method SetColor(c: Option<Color>) returns (b: OrderedMenuBuilder)
      modifies this
      ensures b == this && Fields() == old(Fields()).(color := c)
    {
      color := c;
      b := this;
    }

    /** useLetters: letters from now on, whatever was set before. */
    method UseLetters() returns (b: OrderedMenuBuilder)
      modifies this
      ensures b == this && Fields() == old(Fields()).(useLetters := true)
    {
      useLetters := true;
      b := this;
    }

    /** useNumbers: numbers from now on, whatever was set before. */
    method UseNumbers() returns (b: OrderedMenuBuilder)
      modifies this
      ensures b == this && Fields() == old(Fields()).(useLetters := false)
    {
      useLetters := false;
      b := this;
    }

    method AllowTextInput(allow: bool) returns (b: OrderedMenuBuilder)
      modifies this
      ensures b == this && Fields() == old(Fields()).(allowTypedInput := allow)
    {
      allowTypedInput := allow;
      b := this;
    }

    method UseCancelButton(use: bool) returns (b: OrderedMenuBuilder)
      modifies this
      ensures b == this && Fields() == old(Fields()).(addCancel := use)
    {
      addCancel := use;
      b := this;
    }

    method SetText(t: Option<string>) returns (b: OrderedMenuBuilder)
      modifies this
      ensures b == this && Fields() == old(Fields()).(text := t)
    {
      text := t;
      b := this;
    }

    method SetDescription(d: Option<string>) returns (b: OrderedMenuBuilder)
      modifies this
      ensures b == this && Fields() == old(Fields()).(description := d)
    {
      description := d;
      b := this;
    }

    method SetAction(a: Option<Callback>) returns (b: OrderedMenuBuilder)
      modifies this
      ensures b == this && Fields() == old(Fields()).(action := a)
    {
      action := a;
      b := this;
    }

    method SetCancel(c: Callback) returns (b: OrderedMenuBuilder)
      modifies this
      ensures b == this && Fields() == old(Fields()).(cancel := c)
    {
      cancel := c;
      b := this;
    }

    /** addChoices: the given choices go after those already there, in order. */
    method AddChoices(cs: seq<string>) returns (b: OrderedMenuBuilder)
      modifies this
      ensures b == this && Fields() == old(Fields()).(choices := old(choices) + cs)
    {
      choices := choices + cs;
      b := this;
    }

    /** setChoices: exactly the given choices, in order. */
    method SetChoices(cs: seq<string>) returns (b: OrderedMenuBuilder)
      modifies this
      ensures b == this && Fields() == old(Fields()).(choices := cs)
    {
      choices := [];
      choices := choices + cs;
      b := this;
    }

    method SetClient(c: Option<Client>) returns (b: OrderedMenuBuilder)
      modifies this
      ensures b == this && Fields() == old(Fields()).(client := c)
    {
      client := c;
      b := this;
    }

    /**
     * build: makes its checks in this order and refuses at the first that fails; otherwise
     * the menu carries every setting and is well formed, with one to ten choices, so every
     * emoji index it uses is in range.
     */
    method Build() returns (r: Result<OrderedMenu, Thrown>)
      ensures menu.waiter == null ==> r == Err(IllegalArgument("Must set an EventWaiter"))
      ensures menu.waiter != null && choices == [] ==> r == Err(IllegalArgument("Must have at least one choice"))
      ensures (menu.waiter != null && choices != [] && |choices| > 10)
                ==> r == Err(IllegalArgument("Must have no more than ten choices"))
      ensures (menu.waiter != null && 1 <= |choices| <= 10 && action == None)
                ==> r == Err(IllegalArgument("Must provide an action consumer"))
      ensures (menu.waiter != null && 1 <= |choices| <= 10 && action.Some? && text == None && description == None)
                ==> r == Err(IllegalArgument("Either text or description must be set"))
      ensures (menu.waiter != null && 1 <= |choices| <= 10 && action.Some? && (text.Some? || description.Some?)
                 && client == None)
                ==> r == Err(IllegalArgument("Client can not be null!"))
      ensures r.Ok? <==> && menu.waiter != null && 1 <= |choices| <= 10 && action.Some?
                         && (text.Some? || description.Some?) && client.Some?
      ensures r.Ok? ==> && WellFormed(r.value) && 1 <= |r.value.choices| <= 10
                        && r.value == OrderedMenu(MenuCore(menu.users, menu.roles, menu.timeout, menu.unit, client.value),
                                                  color, text, description, choices, action.value, cancel,
                                                  useLetters, allowTypedInput, addCancel)
    {
      if menu.waiter == null {
        return Err(IllegalArgument("Must set an EventWaiter"));
      }
      if |choices| == 0 {
        return Err(IllegalArgument("Must have at least one choice"));
      }
      if |choices| > 10 {
        return Err(IllegalArgument("Must have no more than ten choices"));
      }
      if action == None {
        return Err(IllegalArgument("Must provide an action consumer"));
      }
      if text == None && description == None {
        return Err(IllegalArgument("Either text or description must be set"));
      }
      if client == None {
        return Err(IllegalArgument("Client can not be null!"));
      }
      r := Ok(OrderedMenu(MenuCore(menu.users, menu.roles, menu.timeout, menu.unit, client.value),
                          color, text, description, choices, action.value, cancel,
                          useLetters, allowTypedInput, addCancel));
    }
  }

  /** Every built menu can be shown and initialized: its choices index the emoji table in range. */
  lemma BuiltMenuInRange(o: OrderedMenu, n: int)
    requires WellFormed(o) && 1 <= n <= |o.choices|
    ensures n <= 10 && NumberOf(o.useLetters, GetEmoji(o.useLetters, n)) == n
  {
    NumberOfGetEmoji(o.useLetters, n);
  }
}
