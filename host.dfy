/**
 * Plain records standing for the objects of the chat-bot client library that the
 * widgets inspect: users, roles, channels, emojis, messages and the events that carry them.
 * Only the attributes the widgets read are kept.
 */
module Host {
  import opened Wrappers

  type UserId = nat
  type RoleId = nat
  type MessageId = nat
  type ChannelId = nat

  /** The name of a Java event class, e.g. "ReactionAddEvent". */
  type ClassName = string

  const EVENT_CLASS: ClassName := "Event"
  const REACTION_ADD_EVENT_CLASS: ClassName := "ReactionAddEvent"

  datatype User = User(id: UserId, isBot: bool)

  /**
   * A channel. `isGuildChannel` says whether the channel object is an instance of the
   * library's guild-channel implementation class; `isPrivate` is the channel's own flag.
   */
  datatype Channel = Channel(id: ChannelId, isPrivate: bool, isGuildChannel: bool)

  /** The emoji of a reaction: its name, its string id, and whether it is a unicode emoji. */
  datatype Emoji = Emoji(name: string, stringId: string, isUnicode: bool)

  /** A reaction being added, with the roles the reacting user holds in the event's guild. */
  datatype ReactionAdd = ReactionAdd(message: MessageId, emoji: Emoji, user: User,
                                     channel: Channel, guildRoles: seq<RoleId>)

  /** A message being received, with the roles its author holds in the event's guild. */
  datatype MessageReceived = MessageReceived(message: MessageId, content: string, author: User,
                                             channel: Channel, guildRoles: seq<RoleId>)

  datatype EventBody = ReactionAdded(reaction: ReactionAdd)
                     | MessageArrived(received: MessageReceived)
                     | OtherEvent

  /**
   * A dispatched event. `classes` is the event's class chain: its runtime class first,
   * then each superclass in turn, ending with the root class, whose superclass is null.
   */
  datatype Event = Event(classes: seq<ClassName>, body: EventBody)

  datatype TimeUnit = NANOSECONDS | MICROSECONDS | MILLISECONDS | SECONDS | MINUTES | HOURS | DAYS

  datatype Color = Color(rgb: int)

  /** A client of the chat service (an opaque handle). */
  datatype Client = Client(handle: nat)

  /**
   * A callback supplied by the user of the library, or one of the defaults the builders
   * install: doing nothing, or deleting the menu's message.
   */
  datatype Callback = NoOp | DeleteMessage | UserCallback(handle: nat)

  /** The exceptions the widgets throw. */
  datatype Thrown = IllegalArgument(message: string) | MissingPermissions(message: string)
}
