/**
 * The Paginator: a list of strings shown a page at a time in an embed, with LEFT, STOP
 * and RIGHT reactions to move between pages. The page arithmetic, the rendering of a page
 * (one column as the embed description, or two or three inline fields) and the navigation
 * state machine are modelled; the messages sent, edited and reacted to are recorded as a
 * log of host operations.
 */
module Pagination {
  import opened Wrappers
  import opened Host
  import opened Menus

  const LEFT: string := "\U{2B05}"
  const STOP: string := "\U{23F9}"
  const RIGHT: string := "\U{27A1}"

  /** The zero-width space the embed uses for blank field names and values. */
  const ZERO_WIDTH_SPACE: string := "\U{200B}"

  /** A built Paginator (Java's final fields). */
  datatype Paginator = Paginator(
    core: MenuCore,
    color: (int, int) -> Option<Color>,
    text: Option<(int, int) -> string>,
    finalAction: Callback,
    columns: int,
    itemsPerPage: int,
    showPageNumbers: bool,
    numberItems: bool,
    items: seq<string>,
    waitOnSinglePage: bool)

  /** What the builder guarantees of every Paginator it builds. */
  predicate WellFormed(p: Paginator) {
    1 <= p.columns <= 3 && p.itemsPerPage >= 1 && |p.items| >= 1
  }

  function Min(a: int, b: int): int {
    if a < b then a else b
  }

  /** Math.ceil((double) n / d), for a non-negative n and a positive d, in integers. */
  function CeilDiv(n: nat, d: int): nat
    requires d >= 1
  {
    var q := (n + d - 1) / d;
    assert q >= 0 by { assert n + d - 1 >= 0; }
    q
  }

  /** Euclidean division of a non-negative number by a positive one. */
  lemma DivMod(n: int, d: int)
    requires n >= 0 && d >= 1
    ensures n == (n / d) * d + n % d && 0 <= n % d < d && n / d >= 0
  {
  }

  lemma MulMono(a: int, b: int, d: int)
    requires a <= b && d >= 0
    ensures a * d <= b * d
  {
    assert b * d - a * d == (b - a) * d;
  }

  lemma MulLtCancel(a: int, b: int, d: int)
    requires d >= 1 && a * d < b * d
    ensures a < b
  {
    if b <= a {
      MulMono(b, a, d);
    }
  }

  lemma MulSucc(a: int, d: int)
    ensures (a + 1) * d == a * d + d
  {
  }

  /** CeilDiv is the ceiling: the least q with q * d >= n. */
  lemma CeilDivIsCeiling(n: nat, d: int)
    requires d >= 1
    ensures CeilDiv(n, d) * d >= n
    ensures (CeilDiv(n, d) - 1) * d < n
    ensures n > 0 <==> CeilDiv(n, d) >= 1
  {
    var q := (n + d - 1) / d;
    DivMod(n + d - 1, d);
    MulSucc(q - 1, d);
    if n > 0 {
      MulLtCancel(0, q, d);
    }
    if q >= 1 {
      MulMono(0, q - 1, d);
    }
  }

  /** The number of pages: ceil(|items| / itemsPerPage). */
  function Pages(p: Paginator): nat
    requires p.itemsPerPage >= 1
  {
    CeilDiv(|p.items|, p.itemsPerPage)
  }

  /** The index of the first item on page `page`. */
  function PageStart(p: Paginator, page: int): int {
    (page - 1) * p.itemsPerPage
  }

  /** One past the index of the last item on page `page`. */
  function PageEnd(p: Paginator, page: int): int {
    if |p.items| < page * p.itemsPerPage then |p.items| else page * p.itemsPerPage
  }

  /** There is at least one page exactly when there is at least one item. */
  lemma PagesPositive(p: Paginator)
    requires p.itemsPerPage >= 1
    ensures Pages(p) >= 1 <==> |p.items| >= 1
  {
    CeilDivIsCeiling(|p.items|, p.itemsPerPage);
  }

  /**
   * Every page in [1, pages] holds a non-empty slice of at most itemsPerPage items, and the
   * last page ends at the last item.
   */
  lemma PageBounds(p: Paginator, page: int)
    requires p.itemsPerPage >= 1 && 1 <= page <= Pages(p)
    ensures 0 <= PageStart(p, page) < PageEnd(p, page) <= |p.items|
    ensures PageEnd(p, page) - PageStart(p, page) <= p.itemsPerPage
    ensures page == Pages(p) ==> PageEnd(p, page) == |p.items|
  {
    var d := p.itemsPerPage;
    CeilDivIsCeiling(|p.items|, d);
    MulSucc(page - 1, d);
    MulMono(0, page - 1, d);
    MulMono(page - 1, Pages(p) - 1, d);
  }

  /** The pages partition the items: item i lies on page i / itemsPerPage + 1 and on no other. */
  lemma PagesCoverItems(p: Paginator, i: int)
    requires p.itemsPerPage >= 1 && 0 <= i < |p.items|
    ensures var page := i / p.itemsPerPage + 1;
            1 <= page <= Pages(p) && PageStart(p, page) <= i < PageEnd(p, page)
    ensures forall q :: PageStart(p, q) <= i < PageEnd(p, q) ==> q == i / p.itemsPerPage + 1
  {
    var d := p.itemsPerPage;
    var page := i / d + 1;
    DivMod(i, d);
    MulSucc(page - 1, d);
    CeilDivIsCeiling(|p.items|, d);
    MulLtCancel(page - 1, Pages(p), d);
    forall q | PageStart(p, q) <= i < PageEnd(p, q)
      ensures q == page
    {
      MulSucc(q - 1, d);
      MulLtCancel(q - 1, page, d);
      MulLtCancel(page - 1, q, d);
    }
  }

  // ---------------------------------------------------------------- rendering

  /** Integer.toString of a non-negative number. */
  function Decimal(n: nat): (r: string)
    ensures |r| >= 1 && forall i :: 0 <= i < |r| ==> '0' <= r[i] <= '9'
  {
    var digit := [('0' as int + n % 10) as char];
    if n < 10 then digit else Decimal(n / 10) + digit
  }

  /** The number a string of decimal digits denotes, most significant digit first. */
  function Value(s: string): nat
    requires forall i :: 0 <= i < |s| ==> '0' <= s[i] <= '9'
  {
    if s == [] then 0
    else 10 * Value(s[..|s| - 1]) + (s[|s| - 1] as int - '0' as int)
  }

  /**
   * Decimal is the numeral of n: its digits denote n, and it has no leading zero (so it is
   * "0" only for 0), as Integer.toString writes it.
   */
  lemma {:induction false} DecimalValue(n: nat)
    ensures Value(Decimal(n)) == n
    ensures Decimal(n)[0] == '0' <==> n == 0
  {
    var digit := [('0' as int + n % 10) as char];
    DivMod(n, 10);
    if n >= 10 {
      DecimalValue(n / 10);
      var s := Decimal(n / 10) + digit;
      assert s == Decimal(n);
      assert s[..|s| - 1] == Decimal(n / 10) && s[|s| - 1] == digit[0];
      assert s[0] == Decimal(n / 10)[0];
      assert Value(s) == 10 * (n / 10) + n % 10;
    }
  }

  /** The label before item i: "`i+1.` " in the description, "i+1. " in a field, or none. */
  function Label(p: Paginator, i: int, single: bool): string
    requires i >= 0
  {
    if !p.numberItems then ""
    else if single then "`" + Decimal(i + 1) + ".` "
    else Decimal(i + 1) + ". "
  }

  /** The line for item i. */
  function Line(p: Paginator, i: int, single: bool): string
    requires 0 <= i < |p.items|
  {
    "\n" + Label(p, i, single) + p.items[i]
  }

  /** The lines for items lo .. hi-1 in order; nothing when hi <= lo. */
  function Lines(p: Paginator, lo: int, hi: int, single: bool): string
    requires 0 <= lo && hi <= |p.items|
    decreases hi - lo
  {
    if hi <= lo then "" else Lines(p, lo, hi - 1, single) + Line(p, hi - 1, single)
  }

  /** The first item of column k, `per` items to a column. */
  function ColumnStart(start: int, per: int, k: int): int {
    start + k * per
  }

  /** One past the last item of column k, cut off at the end of the page. */
  function ColumnEnd(start: int, end: int, per: int, k: int): int {
    Min(end, start + (k + 1) * per)
  }

  /** The text of column k (before a blank column is replaced by a zero-width space). */
  function ColumnText(p: Paginator, start: int, end: int, per: nat, k: nat): string
    requires 0 <= start && end <= |p.items|
  {
    Lines(p, ColumnStart(start, per, k), ColumnEnd(start, end, per, k), false)
  }

  datatype Field = Field(name: string, value: string, inline: bool)

  /** The inline fields for columns 0 .. n-1. */
  function ColumnFields(p: Paginator, start: int, end: int, per: nat, n: nat): (r: seq<Field>)
    requires 0 <= start && end <= |p.items|
    ensures |r| == n
  {
    if n == 0 then []
    else
      var text := ColumnText(p, start, end, per, n - 1);
      ColumnFields(p, start, end, per, n - 1)
        + [Field(ZERO_WIDTH_SPACE, if text == "" then ZERO_WIDTH_SPACE else text, true)]
  }

  datatype Embed = Embed(description: Option<string>, fields: seq<Field>, color: Option<Color>,
                         footer: Option<string>)

  /** A rendered page: the message content (when text is set) and the embed. */
  datatype Rendered = Rendered(content: Option<string>, embed: Embed)

  /** The items each column of a page holds. */
  function PerColumn(p: Paginator, page: int): nat
    requires p.itemsPerPage >= 1 && p.columns >= 1 && 1 <= page <= Pages(p)
  {
    PageBounds(p, page);
    CeilDiv(PageEnd(p, page) - PageStart(p, page), p.columns)
  }

  /** renderPage(page). */
  function Render(p: Paginator, page: int): Rendered
    requires p.itemsPerPage >= 1 && p.columns >= 1 && 1 <= page <= Pages(p)
  {
    PageBounds(p, page);
    var start, end := PageStart(p, page), PageEnd(p, page);
    var color := p.color(page, Pages(p));
    var footer := if p.showPageNumbers then Some("Page " + Decimal(page) + "/" + Decimal(Pages(p))) else None;
    var embed :=
      if p.columns == 1 then Embed(Some(Lines(p, start, end, true)), [], color, footer)
      else Embed(None, ColumnFields(p, start, end, PerColumn(p, page), p.columns), color, footer);
    Rendered(if p.text.Some? then Some(p.text.value(page, Pages(p))) else None, embed)
  }

  /**
   * One StringBuilder loop of renderPage: the lines for items lo, lo+1, ... while below both
   * `end` and `limit`.
   */
  method AppendLines(p: Paginator, lo: int, end: int, limit: int, single: bool) returns (sb: string)
    requires 0 <= lo && end <= |p.items|
    ensures sb == Lines(p, lo, Min(end, limit), single)
  {
    sb := "";
    var i := lo;
    while i < end && i < limit
      invariant lo <= i && (i == lo || i <= Min(end, limit))
      invariant sb == if i <= Min(end, limit) then Lines(p, lo, i, single) else ""
    {
      sb := sb + Line(p, i, single);
      i := i + 1;
    }
  }

  /** renderPage's loop over the columns: one inline field per column, a blank one shown as a zero-width space. */
  method RenderFields(p: Paginator, start: int, end: int, per: nat) returns (fields: seq<Field>)
    requires 0 <= start && end <= |p.items| && p.columns >= 1
    ensures fields == ColumnFields(p, start, end, per, p.columns)
  {
    fields := [];
    var k := 0;
    while k < p.columns
      invariant 0 <= k <= p.columns
      invariant fields == ColumnFields(p, start, end, per, k)
    {
      MulMono(0, k, per);
      var lo, limit := start + k * per, start + (k + 1) * per;
      assert lo == ColumnStart(start, per, k) && Min(end, limit) == ColumnEnd(start, end, per, k);
      var sb := AppendLines(p, lo, end, limit, false);
      ghost var step := [Field(ZERO_WIDTH_SPACE, if sb == "" then ZERO_WIDTH_SPACE else sb, true)];
      assert fields + step == ColumnFields(p, start, end, per, k + 1);
      fields := fields + [Field(ZERO_WIDTH_SPACE, if sb == "" then ZERO_WIDTH_SPACE else sb, true)];
      k := k + 1;
    }
  }

  /** renderPage: the description, or one inline field per column, then colour, footer and content. */
  method RenderPage(p: Paginator, page: int) returns (r: Rendered)
    requires p.itemsPerPage >= 1 && p.columns >= 1 && 1 <= page <= Pages(p)
    ensures r == Render(p, page)
  {
    PageBounds(p, page);
    var start := (page - 1) * p.itemsPerPage;
    var end := if |p.items| < page * p.itemsPerPage then |p.items| else page * p.itemsPerPage;
    var description: Option<string> := None;
    var fields: seq<Field> := [];
    if p.columns == 1 {
      var sb := AppendLines(p, start, end, end, true);
      description := Some(sb);
    } else {
      var per := (end - start + p.columns - 1) / p.columns;
      assert per == PerColumn(p, page);
      fields := RenderFields(p, start, end, per);
    }
    var footer := if p.showPageNumbers then Some("Page " + Decimal(page) + "/" + Decimal(Pages(p))) else None;
    r := Rendered(if p.text.Some? then Some(p.text.value(page, Pages(p))) else None,
                  Embed(description, fields, p.color(page, Pages(p)), footer));
  }

  /** Each item on its own line, in order: the plain form of a slice of the items. */
  function Bulleted(xs: seq<string>): (r: string)
    ensures xs == [] <==> r == ""
  {
    if xs == [] then "" else Bulleted(xs[..|xs| - 1]) + "\n" + xs[|xs| - 1]
  }

  /** Without numbering, the lines for items lo .. hi-1 are exactly that slice of the items, in order. */
  lemma {:induction false} LinesAreSlice(p: Paginator, lo: int, hi: int, single: bool)
    requires !p.numberItems && 0 <= lo <= hi <= |p.items|
    ensures Lines(p, lo, hi, single) == Bulleted(p.items[lo..hi])
    decreases hi - lo
  {
    if hi > lo {
      LinesAreSlice(p, lo, hi - 1, single);
      assert p.items[lo..hi][..hi - 1 - lo] == p.items[lo..hi - 1];
    }
  }

  /**
   * The lines for lo .. hi-1 are those of the items before k, then item k's line, then those
   * of the items after it; when numbering is on, item k's label is the number k+1, counted
   * from the first item of the list and not of the page, in backquotes in the description
   * and plain in a field.
   */
  lemma LinesNumbered(p: Paginator, lo: int, k: int, hi: int, single: bool)
    requires 0 <= lo <= k < hi <= |p.items|
    ensures Lines(p, lo, hi, single)
            == Lines(p, lo, k, single)
               + ("\n" + (if !p.numberItems then "" else if single then "`" + Decimal(k + 1) + ".` " else Decimal(k + 1) + ". ")
                  + p.items[k])
               + Lines(p, k + 1, hi, single)
    ensures Value(Decimal(k + 1)) == k + 1
  {
    LinesSplit(p, k, k + 1, hi, single);
    LinesOne(p, k, single);
    LinesSplit(p, lo, k, hi, single);
    LineShape(p, k, single);
    DecimalValue(k + 1);
  }

  /** The line of item k: a line break, the label numbering it k+1 when numbering is on, the item. */
  lemma LineShape(p: Paginator, k: int, single: bool)
    requires 0 <= k < |p.items|
    ensures Line(p, k, single)
            == "\n" + (if !p.numberItems then "" else if single then "`" + Decimal(k + 1) + ".` " else Decimal(k + 1) + ". ")
               + p.items[k]
  {
  }

  /** The lines for the one item k are its line. */
  lemma LinesOne(p: Paginator, k: int, single: bool)
    requires 0 <= k < |p.items|
    ensures Lines(p, k, k + 1, single) == Line(p, k, single)
  {
    var line := Line(p, k, single);
    assert Lines(p, k, k, single) == "";
    assert Lines(p, k, k + 1, single) == "" + line;
  }

  /** Lines over two adjacent ranges join into the lines over their union. */
  lemma {:induction false} LinesSplit(p: Paginator, lo: int, mid: int, hi: int, single: bool)
    requires 0 <= lo <= mid <= hi <= |p.items|
    ensures Lines(p, lo, mid, single) + Lines(p, mid, hi, single) == Lines(p, lo, hi, single)
    decreases hi - mid
  {
    if hi > mid {
      LinesSplit(p, lo, mid, hi - 1, single);
    }
  }

  /** Lines over a non-empty range begin with a line break; over an empty one they are empty. */
  lemma {:induction false} LinesEmpty(p: Paginator, lo: int, hi: int, single: bool)
    requires 0 <= lo && hi <= |p.items|
    ensures Lines(p, lo, hi, single) == "" <==> hi <= lo
    ensures hi > lo ==> Lines(p, lo, hi, single)[0] == '\n'
    decreases hi - lo
  {
    if hi > lo {
      if hi - 1 > lo {
        LinesEmpty(p, lo, hi - 1, single);
      }
    }
  }

  /** The column an item of the page falls in, `per` items to a column. */
  function ColumnOf(start: int, per: int, i: int): int
    requires per >= 1
  {
    (i - start) / per
  }

  /** Item i lies in column k's stretch of the page. */
  predicate InColumn(start: int, end: int, per: int, k: int, i: int) {
    ColumnStart(start, per, k) <= i < ColumnEnd(start, end, per, k)
  }

  /** The texts of columns 0 .. n-1 joined in order. */
  function JoinedColumns(p: Paginator, start: int, end: int, per: nat, n: nat): string
    requires 0 <= start && end <= |p.items|
  {
    if n == 0 then "" else JoinedColumns(p, start, end, per, n - 1) + ColumnText(p, start, end, per, n - 1)
  }

  /** The first n columns together hold the first n * per items of the page, in order. */
  lemma {:induction false} ColumnsPrefix(p: Paginator, start: int, end: int, per: nat, n: nat)
    requires 0 <= start <= end <= |p.items|
    ensures JoinedColumns(p, start, end, per, n) == Lines(p, start, Min(end, start + n * per), false)
  {
    if n > 0 {
      ColumnsPrefix(p, start, end, per, n - 1);
      var mid, hi := start + (n - 1) * per, start + n * per;
      MulSucc(n - 1, per);
      MulMono(0, n - 1, per);
      assert hi == mid + per && mid >= start;
      assert ColumnText(p, start, end, per, n - 1) == Lines(p, mid, Min(end, hi), false);
      if mid <= end {
        LinesSplit(p, start, mid, Min(end, hi), false);
      } else {
        assert Min(end, mid) == end == Min(end, hi);
      }
    }
  }

  /**
   * With per = ceil((end - start) / columns), the columns are consecutive stretches of the
   * page: joined in order they are exactly the page's lines, each column's stretch ends where
   * the next begins, and each item of the page lies in column (i - start) / per.
   */
  lemma ColumnsCoverPage(p: Paginator, page: int)
    requires p.itemsPerPage >= 1 && p.columns >= 1 && 1 <= page <= Pages(p)
    ensures var start, end, per := PageStart(p, page), PageEnd(p, page), PerColumn(p, page);
            && JoinedColumns(p, start, end, per, p.columns) == Lines(p, start, end, false)
            && (forall k :: 0 <= k < p.columns ==> ColumnEnd(start, end, per, k) <= ColumnStart(start, per, k + 1))
            && (forall i :: start <= i < end ==>
                  0 <= ColumnOf(start, per, i) < p.columns && InColumn(start, end, per, ColumnOf(start, per, i), i))
  {
    PageBounds(p, page);
    var start, end, per := PageStart(p, page), PageEnd(p, page), PerColumn(p, page);
    CeilDivIsCeiling(end - start, p.columns);
    assert per >= 1;
    assert p.columns * per >= end - start;
    ColumnsPrefix(p, start, end, per, p.columns);
    assert Min(end, start + p.columns * per) == end;
    forall i | start <= i < end
      ensures 0 <= ColumnOf(start, per, i) < p.columns && InColumn(start, end, per, ColumnOf(start, per, i), i)
    {
      var k := ColumnOf(start, per, i);
      DivMod(i - start, per);
      MulSucc(k, per);
      MulLtCancel(k, p.columns, per);
    }
  }

  /** A column renders as a zero-width space exactly when its stretch of items is empty. */
  lemma ColumnFieldValue(p: Paginator, start: int, end: int, per: nat, n: nat, k: nat)
    requires 0 <= start && end <= |p.items| && k < n
    ensures |ColumnFields(p, start, end, per, n)| == n
    ensures var f := ColumnFields(p, start, end, per, n)[k];
            && f.name == ZERO_WIDTH_SPACE && f.inline
            && (f.value == ZERO_WIDTH_SPACE <==> ColumnEnd(start, end, per, k) <= ColumnStart(start, per, k))
            && (ColumnStart(start, per, k) < ColumnEnd(start, end, per, k) ==> f.value == ColumnText(p, start, end, per, k))
  {
    if k < n - 1 {
      ColumnFieldValue(p, start, end, per, n - 1, k);
    } else {
      LinesEmpty(p, ColumnStart(start, per, k), ColumnEnd(start, end, per, k), false);
    }
  }

  /**
   * What a rendered page shows: the description holds the page's items in one column, or
   * the fields hold them in `columns` inline fields; the footer "Page p/pages" appears iff
   * page numbers are shown; the content is the text function's value iff one is set.
   */
  lemma RenderShows(p: Paginator, page: int)
    requires p.itemsPerPage >= 1 && p.columns >= 1 && 1 <= page <= Pages(p)
    ensures var r := Render(p, page);
            && (p.columns == 1 ==> r.embed.description == Some(Lines(p, PageStart(p, page), PageEnd(p, page), true)) && r.embed.fields == [])
            && (p.columns > 1 ==> r.embed.description == None && |r.embed.fields| == p.columns)
            && (r.embed.footer.Some? <==> p.showPageNumbers)
            && (p.showPageNumbers ==> r.embed.footer == Some("Page " + Decimal(page) + "/" + Decimal(Pages(p))))
            && (r.content.Some? <==> p.text.Some?)
  {
    if p.columns > 1 {
      PageBounds(p, page);
      ColumnFieldValue(p, PageStart(p, page), PageEnd(p, page), PerColumn(p, page), p.columns, 0);
    }
  }

  // ---------------------------------------------------------------- navigation

  /** The host operations the Paginator performs, in order. */
  datatype Op =
    | Send(channel: ChannelId, rendered: Rendered)
    | Edit(message: MessageId, rendered: Rendered)
    | AddReaction(message: MessageId, emoji: string)
    | RemoveReaction(message: MessageId, user: UserId, emoji: string)
      /**
       * Register with the waiter for a reaction: condition Accepts(p, message, _), action
       * React(p, message, page, _), the menu's timeout and unit, and on timeout `onTimeout`
       * run on `message`.
       */
    | Await(message: MessageId, page: int, timeout: int, unit: Option<TimeUnit>, onTimeout: Callback)
      /** Run the final action on `message`. */
    | Finish(action: Callback, message: MessageId)

  /** Where pagination starts: a new message sent to a channel (the host assigns `sent`), or an existing message edited. */
  datatype Target = InChannel(channel: ChannelId, sent: MessageId) | Editing(message: MessageId)

  function TargetMessage(t: Target): MessageId {
    match t
    case InChannel(_, sent) => sent
    case Editing(m) => m
  }

  /** pagination(message, page): the registration with the waiter. */
  function Wait(p: Paginator, message: MessageId, page: int): Op {
    Await(message, page, p.core.timeout, p.core.unit, p.finalAction)
  }

  /** initialize(m, page): offer the controls and wait, or finish at once. */
  function Initialize(p: Paginator, m: MessageId, page: int): seq<Op>
    requires p.itemsPerPage >= 1
  {
    if Pages(p) > 1 then [AddReaction(m, LEFT), AddReaction(m, STOP), AddReaction(m, RIGHT), Wait(p, m, page)]
    else if p.waitOnSinglePage then [AddReaction(m, STOP), Wait(p, m, page)]
    else [Finish(p.finalAction, m)]
  }

  /**
   * initialize either registers with the waiter, as its last operation, or runs the final
   * action and nothing else; it waits iff there are several pages or it is told to wait on
   * a single one; it offers LEFT and RIGHT iff there are several pages, and STOP whenever it waits.
   */
  lemma InitializeOutcome(p: Paginator, m: MessageId, page: int)
    requires p.itemsPerPage >= 1
    ensures var ops := Initialize(p, m, page);
            && (ops[|ops| - 1] == Wait(p, m, page) <==> Pages(p) > 1 || p.waitOnSinglePage)
            && (ops == [Finish(p.finalAction, m)] <==> !(Pages(p) > 1 || p.waitOnSinglePage))
            && (AddReaction(m, LEFT) in ops <==> Pages(p) > 1)
            && (AddReaction(m, RIGHT) in ops <==> Pages(p) > 1)
            && (AddReaction(m, STOP) in ops <==> Pages(p) > 1 || p.waitOnSinglePage)
            && (forall op :: op in ops && op.AddReaction? ==> op.message == m && op.emoji in {LEFT, STOP, RIGHT})
            && (ops[|ops| - 1].Await? ==> ops[|ops| - 1].onTimeout == p.finalAction && ops[|ops| - 1].message == m)
  {
  }

  /** The condition registered by pagination(message, page). */
  function Accepts(p: Paginator, message: MessageId, e: ReactionAdd): bool {
    if e.message != message then false
    else if !(LEFT == e.emoji.name || STOP == e.emoji.name || RIGHT == e.emoji.name) then false
    else IsValidReactor(p.core, e)
  }

  /** A reaction is accepted iff it is on this message, is one of the three controls, and comes from an admitted user. */
  lemma AcceptsExactly(p: Paginator, message: MessageId, e: ReactionAdd)
    ensures Accepts(p, message, e) <==>
              && e.message == message
              && e.emoji.name in {LEFT, STOP, RIGHT}
              && Admits(p.core.users, p.core.roles, e.user, e.channel.isGuildChannel, e.guildRoles)
  {
    ReactorAdmitted(p.core, e);
  }

  /** The page shown after a LEFT or RIGHT (or any other non-STOP name) reaction on `page`. */
  function NextPage(p: Paginator, page: int, name: string): int
    requires p.itemsPerPage >= 1
  {
    if name == LEFT then (if page > 1 then page - 1 else page)
    else if name == RIGHT then (if page < Pages(p) then page + 1 else page)
    else page
  }

  /**
   * Navigation keeps the page in [1, pages]: LEFT goes back one page unless on the first,
   * RIGHT forward one unless on the last, and any other name stays put.
   */
  lemma NavigationInRange(p: Paginator, page: int, name: string)
    requires p.itemsPerPage >= 1 && 1 <= page <= Pages(p)
    ensures 1 <= NextPage(p, page, name) <= Pages(p)
    ensures name == LEFT ==> NextPage(p, page, name) == (if page == 1 then 1 else page - 1)
    ensures name == RIGHT ==> NextPage(p, page, name) == (if page == Pages(p) then page else page + 1)
    ensures name != LEFT && name != RIGHT ==> NextPage(p, page, name) == page
  {
  }

  /** RIGHT then LEFT returns to the page, except from the last page; LEFT then RIGHT likewise, except from the first. */
  lemma NavigationUndo(p: Paginator, page: int)
    requires p.itemsPerPage >= 1 && 1 <= page <= Pages(p)
    ensures page < Pages(p) ==> NextPage(p, NextPage(p, page, RIGHT), LEFT) == page
    ensures page > 1 ==> NextPage(p, NextPage(p, page, LEFT), RIGHT) == page
  {
  }

  /**
   * The action registered by pagination(message, page), on an accepted reaction: STOP runs
   * the final action and ends; otherwise the user's reaction is removed, the message is
   * edited to the new page, and the Paginator waits again on that page.
   */
  function React(p: Paginator, message: MessageId, page: int, e: ReactionAdd): seq<Op>
    requires p.itemsPerPage >= 1 && p.columns >= 1 && 1 <= page <= Pages(p)
  {
    if e.emoji.name == STOP then [Finish(p.finalAction, message)]
    else
      var n := NextPage(p, page, e.emoji.name);
      NavigationInRange(p, page, e.emoji.name);
      [RemoveReaction(e.message, e.user.id, e.emoji.name), Edit(message, Render(p, n)), Wait(p, message, n)]
  }

  /**
   * STOP finishes without registering again; any other reaction registers again exactly once,
   * last, on a page in [1, pages], after showing that page.
   */
  lemma ReactOutcome(p: Paginator, message: MessageId, page: int, e: ReactionAdd)
    requires p.itemsPerPage >= 1 && p.columns >= 1 && 1 <= page <= Pages(p)
    ensures var ops := React(p, message, page, e);
            && (e.emoji.name == STOP ==> ops == [Finish(p.finalAction, message)])
            && (e.emoji.name != STOP ==>
                  var n := NextPage(p, page, e.emoji.name);
                  && 1 <= n <= Pages(p)
                  && ops[|ops| - 1] == Wait(p, message, n)
                  && ops[|ops| - 1].onTimeout == p.finalAction
                  && Edit(message, Render(p, n)) in ops
                  && (forall op :: op in ops[..|ops| - 1] ==> !op.Await? && !op.Finish?))
  {
    NavigationInRange(p, page, e.emoji.name);
  }

  /** The page after a series of accepted, non-STOP reactions. */
  function Browse(p: Paginator, page: int, names: seq<string>): int
    requires p.itemsPerPage >= 1
  {
    if names == [] then page else NextPage(p, Browse(p, page, names[..|names| - 1]), names[|names| - 1])
  }

  /** However many reactions come, the page stays in [1, pages]. */
  lemma {:induction false} BrowseInRange(p: Paginator, page: int, names: seq<string>)
    requires p.itemsPerPage >= 1 && 1 <= page <= Pages(p)
    ensures 1 <= Browse(p, page, names) <= Pages(p)
  {
    if names != [] {
      BrowseInRange(p, page, names[..|names| - 1]);
      NavigationInRange(p, Browse(p, page, names[..|names| - 1]), names[|names| - 1]);
    }
  }

  /**
   * paginate(target, pageNum): clamp the page into [1, pages], render it, send or edit the
   * message, then initialize.
   */
  method Paginate(p: Paginator, target: Target, pageNum: int) returns (page: int, ops: seq<Op>)
    requires WellFormed(p)
    ensures 1 <= page <= Pages(p)
    ensures 1 <= pageNum <= Pages(p) ==> page == pageNum
    ensures pageNum < 1 ==> page == 1
    ensures pageNum > Pages(p) ==> page == Pages(p)
    ensures ops == (match target
                    case InChannel(c, _) => [Send(c, Render(p, page))]
                    case Editing(m) => [Edit(m, Render(p, page))])
                   + Initialize(p, TargetMessage(target), page)
  {
    PagesPositive(p);
    page := pageNum;
    if page < 1 {
      page := 1;
    } else if page > Pages(p) {
      page := Pages(p);
    }
    var msg := RenderPage(p, page);
    match target
    case InChannel(c, sent) =>
      ops := [Send(c, msg)] + Initialize(p, sent, page);
    case Editing(m) =>
      ops := [Edit(m, msg)] + Initialize(p, m, page);
  }

  /** display(target): paginate from page 1. */
  method Display(p: Paginator, target: Target) returns (ops: seq<Op>)
    requires WellFormed(p)
    ensures Pages(p) >= 1
    ensures ops == [match target
                    case InChannel(c, _) => Send(c, Render(p, 1))
                    case Editing(m) => Edit(m, Render(p, 1))]
                   + Initialize(p, TargetMessage(target), 1)
  {
    PagesPositive(p);
    var page;
    page, ops := Paginate(p, target, 1);
  }
}
