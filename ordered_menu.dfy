/**
 * The OrderedMenu: up to ten choices, each shown with a number or letter emoji. The user
 * picks by reacting with that emoji or, when typed input is allowed, by typing the number
 * or letter; CANCEL, an unknown typed answer, or the timeout runs the cancel callback.
 */
module OrderedMenus {
  import opened Wrappers
  import opened Host
  import opened Menus

  /** The keycap digits 1 to 9 (the digit then U+20E3) and the keycap ten. */
  const NUMBERS: seq<string> := ["1\U{20E3}", "2\U{20E3}", "3\U{20E3}", "4\U{20E3}", "5\U{20E3}",
                                 "6\U{20E3}", "7\U{20E3}", "8\U{20E3}", "9\U{20E3}", "\U{1F51F}"]

  /** The regional indicators A to J. */
  const LETTERS: seq<string> := ["\U{1F1E6}", "\U{1F1E7}", "\U{1F1E8}", "\U{1F1E9}", "\U{1F1EA}",
                                 "\U{1F1EB}", "\U{1F1EC}", "\U{1F1ED}", "\U{1F1EE}", "\U{1F1EF}"]

  const CANCEL: string := "\U{274C}"

  /** A built OrderedMenu (Java's final fields); `action` receives the chosen number. */
  datatype OrderedMenu = OrderedMenu(
    core: MenuCore,
    color: Option<Color>,
    text: Option<string>,
    description: Option<string>,
    choices: seq<string>,
    action: Callback,
    cancel: Callback,
    useLetters: bool,
    allowTypedInput: bool,
    useCancel: bool)

  /** What the builder guarantees of every OrderedMenu it builds. */
  predicate WellFormed(o: OrderedMenu) {
    1 <= |o.choices| <= 10 && (o.text.Some? || o.description.Some?)
  }

  // ---------------------------------------------------------------- the emoji table

  /** The table in use. */
  function Table(useLetters: bool): (t: seq<string>)
    ensures |t| == 10
  {
    if useLetters then LETTERS else NUMBERS
  }

  /** The first position of x in s, or -1 when x does not occur. */
  function FirstIndex<T(==)>(s: seq<T>, x: T): (r: int)
    ensures r == -1 <==> x !in s
    ensures r != -1 ==> 0 <= r < |s| && s[r] == x && x !in s[..r]
  {
    if s == [] then -1
    else if s[0] == x then 0
    else
      var k := FirstIndex(s[1..], x);
      assert forall j :: 0 <= j < |s| - 1 ==> s[1..][j] == s[j + 1];
      if k == -1 then -1
      else
        assert s[..k + 1] == [s[0]] + s[1..][..k];
        k + 1
  }

  /** In a sequence without repetitions, the first position of an element is its position. */
  lemma FirstIndexOfDistinct<T>(s: seq<T>, i: int)
    requires 0 <= i < |s|
    requires forall a, b :: 0 <= a < b < |s| ==> s[a] != s[b]
    ensures FirstIndex(s, s[i]) == i
  {
  }

  /** getEmoji(number): entry number-1 of the table in use. */
  function GetEmoji(useLetters: bool, number: int): string
    requires 1 <= number <= 10
  {
    if useLetters then LETTERS[number - 1] else NUMBERS[number - 1]
  }

  /** The first code point of each table entry: increasing along each table. */
  lemma TableCodes(useLetters: bool, i: int)
    requires 0 <= i < 10
    ensures |Table(useLetters)[i]| >= 1
    ensures Table(useLetters)[i][0] as int ==
              if useLetters then 0x1F1E6 + i else if i < 9 then '1' as int + i else 0x1F51F
  {
    if i == 0 {} else if i == 1 {} else if i == 2 {} else if i == 3 {} else if i == 4 {}
    else if i == 5 {} else if i == 6 {} else if i == 7 {} else if i == 8 {} else {}
  }

  /** No emoji occurs twice in a table. */
  lemma TableDistinct(useLetters: bool)
    ensures forall a, b :: 0 <= a < b < 10 ==> Table(useLetters)[a] != Table(useLetters)[b]
  {
    forall a, b | 0 <= a < b < 10
      ensures Table(useLetters)[a] != Table(useLetters)[b]
    {
      TableCodes(useLetters, a);
      TableCodes(useLetters, b);
    }
  }

  /** getNumber as a function: the 1-based position of the emoji in the table in use, or -1. */
  function NumberOf(useLetters: bool, emoji: string): (n: int)
    ensures n == -1 <==> emoji !in Table(useLetters)
    ensures n != -1 ==> 1 <= n <= 10 && GetEmoji(useLetters, n) == emoji
  {
    var i := FirstIndex(Table(useLetters), emoji);
    if i == -1 then -1 else i + 1
  }

  /** getNumber(getEmoji(n)) == n for every n in 1..10. */
  lemma NumberOfGetEmoji(useLetters: bool, n: int)
    requires 1 <= n <= 10
    ensures NumberOf(useLetters, GetEmoji(useLetters, n)) == n
  {
    TableDistinct(useLetters);
    FirstIndexOfDistinct(Table(useLetters), n - 1);
  }

  /** getNumber: a linear search of the table in use. */
  method GetNumber(useLetters: bool, emoji: string) returns (n: int)
    ensures n == NumberOf(useLetters, emoji)
  {
    var table := if useLetters then LETTERS else NUMBERS;
    assert table == Table(useLetters);
    for i := 0 to |table|
      invariant emoji !in table[..i]
    {
      if table[i] == emoji {
        assert FirstIndex(table, emoji) == i;
        return i + 1;
      }
      assert table[..i + 1] == table[..i] + [table[i]];
    }
    assert table[..|table|] == table;
    return -1;
  }

  // ---------------------------------------------------------------- typed input

  const LETTER_KEYS: string := " abcdefghij"
  const DIGIT_KEYS: string := " 123456789"

  /** String.toLowerCase of one character, for the ASCII letters. */
  function Lower(c: char): char {
    if 'A' <= c <= 'Z' then (c as int + 32) as char else c
  }

  /** getIMessageNumber(message). */
  function TypedNumber(useLetters: bool, message: string): int {
    if useLetters then
      if |message| == 1 then FirstIndex(LETTER_KEYS, Lower(message[0])) else -1
    else if |message| == 1 then FirstIndex(DIGIT_KEYS, message[0])
    else if message == "10" then 10
    else -1
  }

  /** The letter typed for choice n, in lower and in upper case. */
  function LetterKey(n: int): char
    requires 1 <= n <= 10
  {
    ('a' as int + n - 1) as char
  }

  function UpperLetterKey(n: int): char
    requires 1 <= n <= 10
  {
    ('A' as int + n - 1) as char
  }

  /** The number typed for choice n. */
  function NumberKey(n: int): string
    requires 1 <= n <= 10
  {
    if n == 10 then "10" else [('0' as int + n) as char]
  }

  lemma LetterKeysAt(k: int)
    requires 0 <= k < 11
    ensures LETTER_KEYS[k] == if k == 0 then ' ' else ('a' as int + k - 1) as char
  {
    if k == 0 {} else if k == 1 {} else if k == 2 {} else if k == 3 {} else if k == 4 {}
    else if k == 5 {} else if k == 6 {} else if k == 7 {} else if k == 8 {} else if k == 9 {} else {}
  }

  lemma DigitKeysAt(k: int)
    requires 0 <= k < 10
    ensures DIGIT_KEYS[k] == if k == 0 then ' ' else ('0' as int + k) as char
  {
    if k == 0 {} else if k == 1 {} else if k == 2 {} else if k == 3 {} else if k == 4 {}
    else if k == 5 {} else if k == 6 {} else if k == 7 {} else if k == 8 {} else {}
  }

  lemma LetterKeysDistinct()
    ensures forall a, b :: 0 <= a < b < |LETTER_KEYS| ==> LETTER_KEYS[a] != LETTER_KEYS[b]
  {
    forall a, b | 0 <= a < b < |LETTER_KEYS|
      ensures LETTER_KEYS[a] != LETTER_KEYS[b]
    {
      LetterKeysAt(a);
      LetterKeysAt(b);
    }
  }

  lemma DigitKeysDistinct()
    ensures forall a, b :: 0 <= a < b < |DIGIT_KEYS| ==> DIGIT_KEYS[a] != DIGIT_KEYS[b]
  {
    forall a, b | 0 <= a < b < |DIGIT_KEYS|
      ensures DIGIT_KEYS[a] != DIGIT_KEYS[b]
    {
      DigitKeysAt(a);
      DigitKeysAt(b);
    }
  }

  /** Lower keeps lower-case letters and the space, and maps only the two cases of a letter to it. */
  lemma LowerLetter(c: char, n: int)
    requires 1 <= n <= 10
    ensures Lower(LetterKey(n)) == LetterKey(n) && Lower(UpperLetterKey(n)) == LetterKey(n)
    ensures Lower(c) == LetterKey(n) ==> c == LetterKey(n) || c == UpperLetterKey(n)
    ensures Lower(c) == ' ' <==> c == ' '
  {
  }

  /**
   * In letters mode, choice n is typed as its letter in either case; a single space gives 0;
   * every other answer gives -1 or the number of the letter typed.
   */
  lemma TypedLetters(m: string, n: int)
    requires 1 <= n <= 10
    ensures TypedNumber(true, [LetterKey(n)]) == n && TypedNumber(true, [UpperLetterKey(n)]) == n
    ensures TypedNumber(true, m) == 0 <==> m == " "
    ensures -1 <= TypedNumber(true, m) <= 10
    ensures TypedNumber(true, m) == n ==> m == [LetterKey(n)] || m == [UpperLetterKey(n)]
  {
    LetterKeysDistinct();
    LetterKeysAt(n);
    LetterKeysAt(0);
    FirstIndexOfDistinct(LETTER_KEYS, n);
    FirstIndexOfDistinct(LETTER_KEYS, 0);
    LowerLetter(' ', n);
    if |m| == 1 {
      var c := m[0];
      assert m == [c];
      LowerLetter(c, n);
      var r := FirstIndex(LETTER_KEYS, Lower(c));
      if r >= 0 {
        LetterKeysAt(r);
      }
    }
  }

  /**
   * In numbers mode, choice n is typed as its decimal numeral; a single space gives 0; every
   * other answer gives -1 or the number typed.
   */
  lemma TypedDigits(m: string, n: int)
    requires 1 <= n <= 10
    ensures TypedNumber(false, NumberKey(n)) == n
    ensures TypedNumber(false, m) == 0 <==> m == " "
    ensures -1 <= TypedNumber(false, m) <= 10
    ensures TypedNumber(false, m) == n ==> m == NumberKey(n)
  {
    DigitKeysDistinct();
    DigitKeysAt(0);
    FirstIndexOfDistinct(DIGIT_KEYS, 0);
    if n < 10 {
      DigitKeysAt(n);
      FirstIndexOfDistinct(DIGIT_KEYS, n);
    }
    var r := TypedNumber(false, m);
    if |m| == 1 && r >= 0 {
      DigitKeysAt(r);
      assert m == [m[0]];
    }
  }

  // ---------------------------------------------------------------- selection

  /** isValidReaction(m, e). */
  function IsValidReaction(o: OrderedMenu, m: MessageId, e: ReactionAdd): bool {
    if e.message != m then false
    else if !IsValidReactor(o.core, e) then false
    else if e.emoji.name == CANCEL then true
    else
      var num := NumberOf(o.useLetters, e.emoji.name);
      !(num < 0 || num > |o.choices|)
  }

  /**
   * A reaction is valid iff it is on the menu's message, comes from an admitted user, and is
   * CANCEL (offered or not) or one of the emojis of the menu's choices.
   */
  lemma ValidReactionExactly(o: OrderedMenu, m: MessageId, e: ReactionAdd)
    requires |o.choices| <= 10
    ensures IsValidReaction(o, m, e) <==>
              && e.message == m
              && Admits(o.core.users, o.core.roles, e.user, e.channel.isGuildChannel, e.guildRoles)
              && (e.emoji.name == CANCEL || e.emoji.name in Table(o.useLetters)[..|o.choices|])
  {
    ReactorAdmitted(o.core, e);
    OfferedNumber(o.useLetters, |o.choices|, e.emoji.name);
  }

  /** An emoji has a number in [1, size] exactly when it is among the first `size` emojis of the table. */
  lemma OfferedNumber(useLetters: bool, size: int, name: string)
    requires 0 <= size <= 10
    ensures (NumberOf(useLetters, name) != -1 && NumberOf(useLetters, name) <= size) <==> name in Table(useLetters)[..size]
  {
    var t := Table(useLetters);
    var num := NumberOf(useLetters, name);
    if name in t[..size] {
      var i :| 0 <= i < size && t[..size][i] == name;
      NumberOfGetEmoji(useLetters, i + 1);
    }
    if num != -1 && num <= size {
      assert t[..size][num - 1] == name;
    }
  }

  /** isValidIMessage(m, e): a message in the menu's channel from an admitted author. */
  function IsValidTyped(o: OrderedMenu, channel: ChannelId, e: MessageReceived): bool {
    if e.channel.id != channel then false else IsValidAuthor(o.core, e)
  }

  /** A typed message is valid iff it is in the menu's channel and its author is admitted. */
  lemma TypedExactly(o: OrderedMenu, channel: ChannelId, e: MessageReceived)
    ensures IsValidTyped(o, channel, e) <==>
              && e.channel.id == channel
              && Admits(o.core.users, o.core.roles, e.author, e.channel.isGuildChannel, e.guildRoles)
  {
    AuthorAdmitted(o.core, e);
  }

  /** How a selection is resolved: the action with a number, or cancel. */
  datatype Outcome = Chose(number: int) | Cancelled

  /** The resolution of an accepted reaction. */
  function ReactionOutcome(o: OrderedMenu, name: string): Outcome {
    if name == CANCEL then Cancelled else Chose(NumberOf(o.useLetters, name))
  }

  /** The resolution of an accepted typed message. */
  function TypedOutcome(o: OrderedMenu, content: string): Outcome {
    var num := TypedNumber(o.useLetters, content);
    if num < 0 || num > |o.choices| then Cancelled else Chose(num)
  }

  /** An accepted reaction cancels iff it is CANCEL, and otherwise chooses the choice whose emoji it is. */
  lemma AcceptedReactionOutcome(o: OrderedMenu, m: MessageId, e: ReactionAdd)
    requires IsValidReaction(o, m, e)
    ensures ReactionOutcome(o, e.emoji.name) == Cancelled <==> e.emoji.name == CANCEL
    ensures ReactionOutcome(o, e.emoji.name).Chose? ==>
              var n := ReactionOutcome(o, e.emoji.name).number;
              1 <= n <= |o.choices| && n <= 10 && GetEmoji(o.useLetters, n) == e.emoji.name
  {
  }

  /**
   * A typed answer chooses a number in [0, choices] or cancels; it chooses choice n in 1..size
   * exactly when it spells n, and it chooses 0 exactly when it is a single space.
   */
  lemma TypedOutcomeRange(o: OrderedMenu, content: string, n: int)
    requires 1 <= n <= |o.choices| && n <= 10
    ensures TypedOutcome(o, content).Chose? ==> 0 <= TypedOutcome(o, content).number <= |o.choices|
    ensures TypedOutcome(o, content) == Chose(0) <==> content == " "
    ensures TypedOutcome(o, content) == Chose(n) <==>
              if o.useLetters then content == [LetterKey(n)] || content == [UpperLetterKey(n)]
              else content == NumberKey(n)
  {
    if o.useLetters {
      TypedLetters(content, n);
      TypedLetters([LetterKey(n)], n);
      TypedLetters([UpperLetterKey(n)], n);
    } else {
      TypedDigits(content, n);
      TypedDigits(NumberKey(n), n);
    }
  }

  // ---------------------------------------------------------------- display

  /** The menu's message as posted: its id and its channel. */
  datatype Posted = Posted(id: MessageId, channel: ChannelId)

  /** What getMessage builds: the content (when text is set), the embed description and colour. */
  datatype Shown = Shown(content: Option<string>, description: string, color: Option<Color>)

  /** The host operations the OrderedMenu performs, in order. */
  datatype Op =
    | Send(channel: ChannelId, shown: Shown)
    | Edit(message: MessageId, shown: Shown)
    | AddReaction(message: MessageId, emoji: string)
      /**
       * Register with the waiter: on every event class (`generic`) when typed input is
       * allowed, else on reactions only; accepted by Accepts, answered by Respond, with the
       * menu's timeout and unit and the cancel callback on timeout.
       */
    | Await(posted: Posted, generic: bool, timeout: int, unit: Option<TimeUnit>, onTimeout: Callback)
    | Delete(message: MessageId)
    | RunAction(action: Callback, number: int)
    | RunCancel(cancel: Callback)

  /** The line for choice i (0-based). */
  function ChoiceLine(o: OrderedMenu, i: int): string
    requires 0 <= i < |o.choices| && i < 10
  {
    "\n" + GetEmoji(o.useLetters, i + 1) + " " + o.choices[i]
  }

  /** The lines for choices 0 .. k-1, in order. */
  function ChoiceLines(o: OrderedMenu, k: int): string
    requires 0 <= k <= |o.choices| && k <= 10
  {
    if k == 0 then "" else ChoiceLines(o, k - 1) + ChoiceLine(o, k - 1)
  }

  /** getMessage: the description, when set, followed by the line of each choice. */
  function Message(o: OrderedMenu): Shown
    requires |o.choices| <= 10
  {
    var lines := ChoiceLines(o, |o.choices|);
    Shown(o.text, if o.description.Some? then o.description.value + lines else lines, o.color)
  }

  /** getMessage, with its StringBuilder loop. */
  method GetMessage(o: OrderedMenu) returns (s: Shown)
    requires |o.choices| <= 10
    ensures s == Message(o)
  {
    var sb := "";
    for i := 0 to |o.choices|
      invariant sb == ChoiceLines(o, i)
    {
      sb := sb + "\n" + GetEmoji(o.useLetters, i + 1) + " " + o.choices[i];
    }
    s := Shown(o.text, if o.description.Some? then o.description.value + sb else sb, o.color);
  }

  /** The lines for the first choices are a prefix of the lines for more. */
  lemma {:induction false} ChoiceLinesPrefix(o: OrderedMenu, j: int, k: int)
    requires 0 <= j <= k <= |o.choices| && k <= 10
    ensures ChoiceLines(o, j) <= ChoiceLines(o, k)
    decreases k - j
  {
    if j < k {
      ChoiceLinesPrefix(o, j, k - 1);
    }
  }

  /**
   * The description lists every choice in order, each on its own line after its emoji:
   * choice i's line stands right after the lines of the choices before it.
   */
  lemma MessageListsChoices(o: OrderedMenu, i: int)
    requires 0 <= i < |o.choices| <= 10
    ensures var lines := ChoiceLines(o, |o.choices|);
            var at := |ChoiceLines(o, i)|;
            && at + |ChoiceLine(o, i)| <= |lines|
            && lines[at..at + |ChoiceLine(o, i)|] == "\n" + GetEmoji(o.useLetters, i + 1) + " " + o.choices[i]
    ensures o.description.Some? ==> o.description.value <= Message(o).description
  {
    ChoiceLinesPrefix(o, i + 1, |o.choices|);
    var lines := ChoiceLines(o, |o.choices|);
    var at := |ChoiceLines(o, i)|;
    assert ChoiceLines(o, i + 1) == ChoiceLines(o, i) + ChoiceLine(o, i);
    assert lines[..|ChoiceLines(o, i + 1)|] == ChoiceLines(o, i + 1);
    assert lines[at..at + |ChoiceLine(o, i)|] == ChoiceLines(o, i + 1)[at..];
  }

  /** The one registration initialize ends with. */
  function Registration(o: OrderedMenu, posted: Posted): Op {
    Await(posted, o.allowTypedInput, o.core.timeout, o.core.unit, o.cancel)
  }

  /** A reaction for each emoji of `emojis`, in order. */
  function Reactions(m: MessageId, emojis: seq<string>): (r: seq<Op>)
    ensures |r| == |emojis| && forall i :: 0 <= i < |r| ==> r[i] == AddReaction(m, emojis[i])
  {
    if emojis == [] then [] else Reactions(m, emojis[..|emojis| - 1]) + [AddReaction(m, emojis[|emojis| - 1])]
  }

  /**
   * What initialize does: react with the emoji of each choice in order, then CANCEL when the
   * cancel button is used, then register once; with no choices it does nothing.
   */
  function InitializeOps(o: OrderedMenu, posted: Posted): seq<Op>
    requires |o.choices| <= 10
  {
    if |o.choices| == 0 then []
    else Reactions(posted.id, Table(o.useLetters)[..|o.choices|])
         + (if o.useCancel then [AddReaction(posted.id, CANCEL)] else [])
         + [Registration(o, posted)]
  }

  /** initialize(m), with its loop over the choices. */
  method Initialize(o: OrderedMenu, posted: Posted) returns (ops: seq<Op>)
    requires |o.choices| <= 10
    ensures ops == InitializeOps(o, posted)
  {
    var m := posted.id;
    ghost var t := Table(o.useLetters);
    ops := [];
    for i := 1 to |o.choices| + 1
      invariant ops == if i <= |o.choices| then Reactions(m, t[..i - 1]) else InitializeOps(o, posted)
    {
      assert t[..i] == t[..i - 1] + [t[i - 1]];
      assert GetEmoji(o.useLetters, i) == t[i - 1];
      ghost var reacted := Reactions(m, t[..i]);
      assert reacted == Reactions(m, t[..i - 1]) + [AddReaction(m, t[i - 1])];
      if i < |o.choices| {
        ops := ops + [AddReaction(m, GetEmoji(o.useLetters, i))];
      } else {
        assert t[..i] == t[..|o.choices|];
        var request := AddReaction(m, GetEmoji(o.useLetters, i));
        if o.useCancel {
          ops := ops + [request];
          request := AddReaction(m, CANCEL);
        }
        ops := ops + [request];
        ops := ops + [Registration(o, posted)];
      }
    }
  }

  /**
   * For a menu with choices, initialize reacts with getEmoji(1), ..., getEmoji(size) in order,
   * then with CANCEL iff the cancel button is used, and registers exactly once, last.
   */
  lemma InitializeOrder(o: OrderedMenu, posted: Posted)
    requires 1 <= |o.choices| <= 10
    ensures var ops := InitializeOps(o, posted);
            && |ops| == |o.choices| + (if o.useCancel then 1 else 0) + 1
            && (forall i :: 0 <= i < |o.choices| ==> ops[i] == AddReaction(posted.id, GetEmoji(o.useLetters, i + 1)))
            && (o.useCancel ==> ops[|o.choices|] == AddReaction(posted.id, CANCEL))
            && ops[|ops| - 1] == Registration(o, posted)
            && (forall i :: 0 <= i < |ops| - 1 ==> ops[i].AddReaction?)
  {
  }

  /** The condition of the registration: which events the menu accepts. */
  function Accepts(o: OrderedMenu, posted: Posted, generic: bool, body: EventBody): bool {
    match body
    case ReactionAdded(r) => IsValidReaction(o, posted.id, r)
    case MessageArrived(msg) => generic && IsValidTyped(o, posted.channel, msg)
    case OtherEvent => false
  }

  /**
   * waitReactionOnly accepts valid reactions and nothing else, so no typed message is ever
   * accepted; waitGeneric accepts valid reactions and valid typed messages; neither accepts
   * any other event.
   */
  lemma AcceptsByKind(o: OrderedMenu, posted: Posted, generic: bool, body: EventBody)
    ensures !generic ==> (Accepts(o, posted, false, body) <==> body.ReactionAdded? && IsValidReaction(o, posted.id, body.reaction))
    ensures body.ReactionAdded? ==> (Accepts(o, posted, generic, body) <==> IsValidReaction(o, posted.id, body.reaction))
    ensures body.MessageArrived? ==> (Accepts(o, posted, generic, body) <==> generic && IsValidTyped(o, posted.channel, body.received))
    ensures body.OtherEvent? ==> !Accepts(o, posted, generic, body)
  {
  }

  function Run(o: OrderedMenu, outcome: Outcome): Op {
    match outcome
    case Chose(n) => RunAction(o.action, n)
    case Cancelled => RunCancel(o.cancel)
  }

  /** The action of the registration: delete the menu, then act on the selection. */
  function Respond(o: OrderedMenu, posted: Posted, body: EventBody): seq<Op> {
    [Delete(posted.id)]
      + match body
        case ReactionAdded(r) => [Run(o, ReactionOutcome(o, r.emoji.name))]
        case MessageArrived(msg) => [Run(o, TypedOutcome(o, msg.content))]
        case OtherEvent => []
  }

  /**
   * Every accepted event deletes the menu first and then runs exactly one of the action and
   * the cancel callback; the action gets a number in [0, choices], and from a reaction one in [1, choices].
   */
  lemma RespondOutcome(o: OrderedMenu, posted: Posted, generic: bool, body: EventBody)
    requires Accepts(o, posted, generic, body)
    ensures var ops := Respond(o, posted, body);
            && |ops| == 2 && ops[0] == Delete(posted.id)
            && (ops[1] == RunCancel(o.cancel) || (ops[1].RunAction? && ops[1].action == o.action))
            && (ops[1].RunAction? ==> 0 <= ops[1].number <= |o.choices|)
            && (ops[1].RunAction? && body.ReactionAdded? ==> 1 <= ops[1].number)
  {
  }

  /** The check display makes before anything is sent. */
  function PermissionCheck(o: OrderedMenu, channel: Channel, canAddReactions: bool): Option<Thrown> {
    if !channel.isPrivate && !o.allowTypedInput && !canAddReactions
    then Some(MissingPermissions("Must be able to add reactions if not allowing typed input!"))
    else None
  }

  /**
   * display(channel): after the permission check, send the menu to the channel (the host
   * assigns the id `sent`) and initialize it.
   */
  method DisplayIn(o: OrderedMenu, channel: Channel, canAddReactions: bool, sent: MessageId)
    returns (r: Result<seq<Op>, Thrown>)
    requires |o.choices| <= 10
    ensures r.Err? <==> !channel.isPrivate && !o.allowTypedInput && !canAddReactions
    ensures r.Err? ==> r.error == MissingPermissions("Must be able to add reactions if not allowing typed input!")
    ensures r.Ok? ==> r.value == [Send(channel.id, Message(o))] + InitializeOps(o, Posted(sent, channel.id))
  {
    var failure := PermissionCheck(o, channel, canAddReactions);
    if failure.Some? {
      return Err(failure.value);
    }
    var shown := GetMessage(o);
    var ops := Initialize(o, Posted(sent, channel.id));
    r := Ok([Send(channel.id, shown)] + ops);
  }

  /** display(message): after the permission check, edit the message into the menu and initialize it. */
  method DisplayOver(o: OrderedMenu, message: Posted, channel: Channel, canAddReactions: bool)
    returns (r: Result<seq<Op>, Thrown>)
    requires |o.choices| <= 10 && channel.id == message.channel
    ensures r.Err? <==> !channel.isPrivate && !o.allowTypedInput && !canAddReactions
    ensures r.Err? ==> r.error == MissingPermissions("Must be able to add reactions if not allowing typed input!")
    ensures r.Ok? ==> r.value == [Edit(message.id, Message(o))] + InitializeOps(o, message)
  {
    var failure := PermissionCheck(o, channel, canAddReactions);
    if failure.Some? {
      return Err(failure.value);
    }
    var shown := GetMessage(o);
    var ops := Initialize(o, message);
    r := Ok([Edit(message.id, shown)] + ops);
  }
}
