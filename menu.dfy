/**
 * The access-control decision every menu makes before it accepts a reaction or a typed
 * message: bots never; anyone if no user or role is listed; a listed user always; an
 * unlisted user only in a guild channel and only if one of their guild roles is listed.
 */
module Menus {
  import opened Wrappers
  import opened Host

  /** The settings every built Menu carries (Java's final fields of Menu). */
  datatype MenuCore = MenuCore(users: set<UserId>, roles: set<RoleId>, timeout: int,
                               unit: Option<TimeUnit>, client: Client)

  /** The stream's anyMatch: whether some role of `rs` is one of `roles`. */
  function AnyListed(rs: seq<RoleId>, roles: set<RoleId>): (r: bool)
    ensures r <==> exists i :: 0 <= i < |rs| && rs[i] in roles
  {
    if rs == [] then false
    else rs[0] in roles || (assert forall i :: 0 <= i < |rs| - 1 ==> rs[1..][i] == rs[i + 1]; AnyListed(rs[1..], roles))
  }

  /** The decision as one formula, independent of the order of the source's tests. */
  predicate Admits(users: set<UserId>, roles: set<RoleId>, user: User, inGuildChannel: bool,
                   guildRoles: seq<RoleId>)
  {
    && !user.isBot
    && ((users == {} && roles == {})
        || user.id in users
        || (inGuildChannel && exists r :: r in guildRoles && r in roles))
  }

  /** isValidUser(ReactionAddEvent). */
  function IsValidReactor(m: MenuCore, e: ReactionAdd): bool {
    if e.user.isBot then false
    else if m.users == {} && m.roles == {} then true
    else if e.user.id in m.users then true
    else if !e.channel.isGuildChannel then false
    else AnyListed(e.guildRoles, m.roles)
  }

  /** isValidUser(MessageReceivedEvent). */
  function IsValidAuthor(m: MenuCore, e: MessageReceived): bool {
    if e.author.isBot then false
    else if m.users == {} && m.roles == {} then true
    else if e.author.id in m.users then true
    else if !e.channel.isGuildChannel then false
    else AnyListed(e.guildRoles, m.roles)
  }

  /** The reaction overload makes the decision `Admits` describes. */
  lemma ReactorAdmitted(m: MenuCore, e: ReactionAdd)
    ensures IsValidReactor(m, e) == Admits(m.users, m.roles, e.user, e.channel.isGuildChannel, e.guildRoles)
  {
    if !e.user.isBot && !(m.users == {} && m.roles == {}) && e.user.id !in m.users && e.channel.isGuildChannel {
      if AnyListed(e.guildRoles, m.roles) {
        var i :| 0 <= i < |e.guildRoles| && e.guildRoles[i] in m.roles;
      }
    }
  }

  /** The message overload makes the decision `Admits` describes. */
  lemma AuthorAdmitted(m: MenuCore, e: MessageReceived)
    ensures IsValidAuthor(m, e) == Admits(m.users, m.roles, e.author, e.channel.isGuildChannel, e.guildRoles)
  {
    if !e.author.isBot && !(m.users == {} && m.roles == {}) && e.author.id !in m.users && e.channel.isGuildChannel {
      if AnyListed(e.guildRoles, m.roles) {
        var i :| 0 <= i < |e.guildRoles| && e.guildRoles[i] in m.roles;
      }
    }
  }

  /** Both overloads decide alike on the same user, channel kind and guild roles. */
  lemma OverloadsAgree(m: MenuCore, r: ReactionAdd, msg: MessageReceived)
    requires r.user == msg.author && r.channel.isGuildChannel == msg.channel.isGuildChannel
    requires r.guildRoles == msg.guildRoles
    ensures IsValidReactor(m, r) == IsValidAuthor(m, msg)
  {
    ReactorAdmitted(m, r);
    AuthorAdmitted(m, msg);
  }

  /** The individual rules, read off the decision. */
  lemma AccessRules(users: set<UserId>, roles: set<RoleId>, u: User, guild: bool, rs: seq<RoleId>)
    ensures u.isBot ==> !Admits(users, roles, u, guild, rs)
    ensures !u.isBot && users == {} && roles == {} ==> Admits(users, roles, u, guild, rs)
    ensures !u.isBot && u.id in users ==> Admits(users, roles, u, guild, rs)
    ensures !u.isBot && u.id !in users && !guild && (users != {} || roles != {}) ==> !Admits(users, roles, u, guild, rs)
    ensures !u.isBot && u.id !in users && guild && (users != {} || roles != {}) ==>
              (Admits(users, roles, u, guild, rs) <==> exists i :: 0 <= i < |rs| && rs[i] in roles)
  {
    if !u.isBot && u.id !in users && guild && (users != {} || roles != {}) {
      if exists r :: r in rs && r in roles {
        var r :| r in rs && r in roles;
        var i :| 0 <= i < |rs| && rs[i] == r;
      }
    }
  }
}
