/**
 * The ButtonMenu: a message with one reaction per choice; the first valid user to react
 * with one of them gets the action run with that emoji, and the menu is deleted. Choices
 * are unicode emoji names or the string ids of custom emojis.
 */
module ButtonMenus {
  import opened Wrappers
  import opened Host
  import opened Menus

  /** A built ButtonMenu (Java's final fields); `action` receives the emoji reacted with. */
  datatype ButtonMenu = ButtonMenu(
    core: MenuCore,
    color: Option<Color>,
    text: Option<string>,
    description: Option<string>,
    choices: seq<string>,
    action: Callback,
    cancel: Callback)

  /** What the builder guarantees of every ButtonMenu it builds. */
  predicate WellFormed(b: ButtonMenu) {
    |b.choices| >= 1 && (b.text.Some? || b.description.Some?)
  }

  /** The key a reaction is matched by: the string id of a custom emoji, the name of a unicode one. */
  function ReactionKey(e: Emoji): string {
    if !e.isUnicode then e.stringId else e.name
  }

  /** The condition of the registration made by initialize(m). */
  function Accepts(b: ButtonMenu, m: MessageId, e: ReactionAdd): bool {
    if e.message != m then false
    else
      var re := ReactionKey(e.emoji);
      if re !in b.choices then false
      else IsValidReactor(b.core, e)
  }

  /**
   * A reaction is accepted iff it is on the menu's message, its key (the id of a custom
   * emoji, the name of a unicode one) is one of the choices, and it comes from an admitted user.
   */
  lemma AcceptsExactly(b: ButtonMenu, m: MessageId, e: ReactionAdd)
    ensures Accepts(b, m, e) <==>
              && e.message == m
              && (if e.emoji.isUnicode then e.emoji.name else e.emoji.stringId) in b.choices
              && Admits(b.core.users, b.core.roles, e.user, e.channel.isGuildChannel, e.guildRoles)
  {
    ReactorAdmitted(b.core, e);
  }

  /** A reaction to add: a unicode emoji by name, or a custom emoji of some guild by id. */
  datatype Reaction = Unicode(name: string) | Custom(id: string)

  /** What getMessage builds: the content when text is set, an embed when a description is. */
  datatype Shown = Shown(content: Option<string>, embed: Option<EmbedPart>)
  datatype EmbedPart = EmbedPart(color: Option<Color>, description: string)

  /** The host operations the ButtonMenu performs, in order. */
  datatype Op =
    | Send(channel: ChannelId, shown: Shown)
    | Edit(message: MessageId, shown: Shown)
    | AddReaction(message: MessageId, reaction: Reaction)
      /**
       * Register with the waiter for a reaction: accepted by Accepts(b, message, _),
       * answered by Respond, with the menu's timeout and unit and the cancel callback on timeout.
       */
    | Await(message: MessageId, timeout: int, unit: Option<TimeUnit>, onTimeout: Callback)
    | Delete(message: MessageId)
    | RunAction(action: Callback, emoji: Emoji)

  /** getMessage: content iff text is set; an embed with the description iff one is set. */
  function Message(b: ButtonMenu): Shown {
    Shown(b.text, if b.description.Some? then Some(EmbedPart(b.color, b.description.value)) else None)
  }

  /** A built menu always shows something: content, an embed, or both. */
  lemma MessageShowsSomething(b: ButtonMenu)
    requires WellFormed(b)
    ensures Message(b).content.Some? || Message(b).embed.Some?
    ensures Message(b).content.Some? <==> b.text.Some?
    ensures Message(b).embed.Some? <==> b.description.Some?
    ensures Message(b).embed.Some? ==> Message(b).embed.value.description == b.description.value
  {
  }

  /**
   * The reaction added for a choice: the custom emoji when some guild of the client has a
   * custom emoji with that id (`known`, the ids the host can resolve), else the unicode emoji
   * of that name.
   */
  function ReactionFor(known: set<string>, choice: string): Reaction {
    if choice in known then Custom(choice) else Unicode(choice)
  }

  /** The reactions for the choices, in order. */
  function ChoiceReactions(m: MessageId, known: set<string>, cs: seq<string>): (r: seq<Op>)
    ensures |r| == |cs| && forall i :: 0 <= i < |cs| ==> r[i] == AddReaction(m, ReactionFor(known, cs[i]))
  {
    if cs == [] then [] else ChoiceReactions(m, known, cs[..|cs| - 1]) + [AddReaction(m, ReactionFor(known, cs[|cs| - 1]))]
  }

  function Registration(b: ButtonMenu, m: MessageId): Op {
    Await(m, b.core.timeout, b.core.unit, b.cancel)
  }

  /** What initialize does: one reaction per choice in order, then a single registration. */
  function InitializeOps(b: ButtonMenu, m: MessageId, known: set<string>): seq<Op> {
    if b.choices == [] then [] else ChoiceReactions(m, known, b.choices) + [Registration(b, m)]
  }

  /** initialize(m): its loop over the choices, registering on the last one. */
  method Initialize(b: ButtonMenu, m: MessageId, known: set<string>) returns (ops: seq<Op>)
    ensures ops == InitializeOps(b, m, known)
  {
    ops := [];
    for i := 0 to |b.choices|
      invariant ops == if i < |b.choices| || i == 0 then ChoiceReactions(m, known, b.choices[..i]) else InitializeOps(b, m, known)
    {
      assert b.choices[..i + 1] == b.choices[..i] + [b.choices[i]];
      var reaction := if b.choices[i] in known then Custom(b.choices[i]) else Unicode(b.choices[i]);
      if i + 1 < |b.choices| {
        ops := ops + [AddReaction(m, reaction)];
      } else {
        ops := ops + [AddReaction(m, reaction)];
        ops := ops + [Registration(b, m)];
      }
    }
    assert b.choices[..0] == [];
  }

  /**
   * With at least one choice, initialize adds choice i's reaction at position i, for every
   * choice in list order, and registers with the waiter exactly once, after the last one.
   */
  lemma InitializeOrder(b: ButtonMenu, m: MessageId, known: set<string>)
    requires |b.choices| >= 1
    ensures var ops := InitializeOps(b, m, known);
            && |ops| == |b.choices| + 1
            && (forall i :: 0 <= i < |b.choices| ==> ops[i] == AddReaction(m, ReactionFor(known, b.choices[i])))
            && ops[|ops| - 1] == Registration(b, m)
            && (forall i :: 0 <= i < |ops| - 1 ==> !ops[i].Await?)
  {
  }

  /** The action of the registration: delete the menu, then run the action with the emoji. */
  function Respond(b: ButtonMenu, m: MessageId, e: ReactionAdd): seq<Op> {
    [Delete(m), RunAction(b.action, e.emoji)]
  }

  /**
   * An accepted reaction names one of the choices; the menu is deleted first, and then the
   * action runs once, with the emoji reacted with.
   */
  lemma AcceptedResponse(b: ButtonMenu, m: MessageId, e: ReactionAdd)
    requires Accepts(b, m, e)
    ensures ReactionKey(e.emoji) in b.choices && e.message == m
    ensures var ops := Respond(b, m, e);
            && |ops| == 2 && ops[0] == Delete(m) && ops[1] == RunAction(b.action, e.emoji)
            && (forall op :: op in ops ==> !op.Await?)
  {
  }

  /** display(channel): send the menu (the host assigns the id `sent`), then initialize it. */
  method DisplayIn(b: ButtonMenu, channel: ChannelId, sent: MessageId, known: set<string>) returns (ops: seq<Op>)
    ensures ops == [Send(channel, Message(b))] + InitializeOps(b, sent, known)
  {
    var rest := Initialize(b, sent, known);
    ops := [Send(channel, Message(b))] + rest;
  }

  /** display(message): edit the message into the menu, then initialize it. */
  method DisplayOver(b: ButtonMenu, message: MessageId, known: set<string>) returns (ops: seq<Op>)
    ensures ops == [Edit(message, Message(b))] + InitializeOps(b, message, known)
  {
    var rest := Initialize(b, message, known);
    ops := [Edit(message, Message(b))] + rest;
  }
}
