/**
 * The builder of ButtonMenus. Setters update the builder in place and return it; choices
 * are given as emoji names or as custom emojis, which are stored by their string ids.
 * Unlike the ordered menu there is no upper bound on the number of choices.
 */
module ButtonMenuBuilders {
  import opened Wrappers
  import opened Host
  import opened Menus
  import opened ButtonMenus
  import MenuBuilders

  /** The builder's own settings, gathered into one value. */
  datatype Settings = Settings(
    color: Option<Color>,
    text: Option<string>,
    description: Option<string>,
    choices: seq<string>,
    action: Option<Callback>,
    cancel: Callback,
    client: Option<Client>)

  /** The string ids of the given emojis, in order. */
  function StringIds(emotes: seq<Emoji>): (r: seq<string>)
    ensures |r| == |emotes| && forall i :: 0 <= i < |emotes| ==> r[i] == emotes[i].stringId
  {
    if emotes == [] then [] else StringIds(emotes[..|emotes| - 1]) + [emotes[|emotes| - 1].stringId]
  }

  class ButtonMenuBuilder {
    /** The settings every menu builder has (users, roles, timeout, waiter). */
    const menu: MenuBuilders.MenuBuilder
    var color: Option<Color>
    var text: Option<string>
    var description: Option<string>
    var choices: seq<string>
    var action: Option<Callback>
    var cancel: Callback
    var client: Option<Client>

    function Fields(): Settings
      reads this
    {
      Settings(color, text, description, choices, action, cancel, client)
    }

    /** The defaults: a cancel callback that does nothing, and nothing else set. */
    constructor ()
      ensures fresh(menu)
      ensures Fields() == Settings(None, None, None, [], None, NoOp, None)
      ensures menu.waiter == null && menu.users == {} && menu.roles == {}
      ensures menu.timeout == -1 && menu.unit == Some(MINUTES)
    {
      menu := new MenuBuilders.MenuBuilder();
      color, text, description, choices := None, None, None, [];
      action, cancel, client := None, NoOp, None;
    }

    method SetColor(c: Option<Color>) returns (b: ButtonMenuBuilder)
      modifies this
      ensures b == this && Fields() == old(Fields()).(color := c)
    {
      color := c;
      b := this;
    }

    method SetText(t: Option<string>) returns (b: ButtonMenuBuilder)
      modifies this
      ensures b == this && Fields() == old(Fields()).(text := t)
    {
      text := t;
      b := this;
    }

    method SetDescription(d: Option<string>) returns (b: ButtonMenuBuilder)
      modifies this
      ensures b == this && Fields() == old(Fields()).(description := d)
    {
      description := d;
      b := this;
    }

    method SetAction(a: Option<Callback>) returns (b: ButtonMenuBuilder)
      modifies this
      ensures b == this && Fields() == old(Fields()).(action := a)
    {
      action := a;
      b := this;
    }

    method SetCancel(c: Callback) returns (b: ButtonMenuBuilder)
      modifies this
      ensures b == this && Fields() == old(Fields()).(cancel := c)
    {
      cancel := c;
      b := this;
    }

    /** addChoices(String...): the given names go after the choices already there, in order. */
    method AddChoices(names: seq<string>) returns (b: ButtonMenuBuilder)
      modifies this
      ensures b == this && Fields() == old(Fields()).(choices := old(choices) + names)
    {
      choices := choices + names;
      b := this;
    }

    /** addChoices(IEmoji...): the string id of each emoji, appended one at a time in order. */
    method AddEmojis(emotes: seq<Emoji>) returns (b: ButtonMenuBuilder)
      modifies this
      ensures b == this && Fields() == old(Fields()).(choices := old(choices) + StringIds(emotes))
    {
      for i := 0 to |emotes|
        invariant Fields() == old(Fields()).(choices := old(choices) + StringIds(emotes[..i]))
      {
        assert emotes[..i + 1][..i] == emotes[..i];
        choices := choices + [emotes[i].stringId];
      }
      assert emotes[..|emotes|] == emotes;
      b := this;
    }

    /** setChoices(String...): clear, then exactly the given names in order. */
    method SetChoices(names: seq<string>) returns (b: ButtonMenuBuilder)
      modifies this
      ensures b == this && Fields() == old(Fields()).(choices := names)
    {
      choices := [];
      b := AddChoices(names);
    }

    /** setChoices(IEmoji...): clear, then exactly the string ids of the given emojis in order. */
    method SetEmojis(emotes: seq<Emoji>) returns (b: ButtonMenuBuilder)
      modifies this
      ensures b == this && Fields() == old(Fields()).(choices := StringIds(emotes))
    {
      choices := [];
      b := AddEmojis(emotes);
    }

    method SetClient(c: Option<Client>) returns (b: ButtonMenuBuilder)
      modifies this
      ensures b == this && Fields() == old(Fields()).(client := c)
    {
      client := c;
      b := this;
    }

    /**
     * build: makes its checks in this order and refuses at the first that fails; otherwise
     * the menu carries every setting and is well formed.
     */
    method Build() returns (r: Result<ButtonMenu, Thrown>)
      ensures menu.waiter == null ==> r == Err(IllegalArgument("Must set an EventWaiter"))
      ensures menu.waiter != null && choices == [] ==> r == Err(IllegalArgument("Must have at least one choice"))
      ensures (menu.waiter != null && choices != [] && action == None)
                ==> r == Err(IllegalArgument("Must provide an action consumer"))
      ensures (menu.waiter != null && choices != [] && action.Some? && text == None && description == None)
                ==> r == Err(IllegalArgument("Either text or description must be set"))
      ensures (menu.waiter != null && choices != [] && action.Some? && (text.Some? || description.Some?)
                 && client == None)
                ==> r == Err(IllegalArgument("Client can not be null"))
      ensures r.Ok? <==> && menu.waiter != null && choices != [] && action.Some?
                         && (text.Some? || description.Some?) && client.Some?
      ensures r.Ok? ==> && WellFormed(r.value)
                        && r.value == ButtonMenu(MenuCore(menu.users, menu.roles, menu.timeout, menu.unit, client.value),
                                                 color, text, description, choices, action.value, cancel)
    {
      if menu.waiter == null {
        return Err(IllegalArgument("Must set an EventWaiter"));
      }
      if |choices| == 0 {
        return Err(IllegalArgument("Must have at least one choice"));
      }
      if action == None {
        return Err(IllegalArgument("Must provide an action consumer"));
      }
      if text == None && description == None {
        return Err(IllegalArgument("Either text or description must be set"));
      }
      if client == None {
        return Err(IllegalArgument("Client can not be null"));
      }
      r := Ok(ButtonMenu(MenuCore(menu.users, menu.roles, menu.timeout, menu.unit, client.value),
                         color, text, description, choices, action.value, cancel));
    }
  }
}
