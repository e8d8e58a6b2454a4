/**
 * The Twitch (Helix) records the bot reads, and the stream events it
 * emits to the rest of the bot.
 */
module Helix {

  type UserId = string

  /** A Helix user, reduced to the fields the bot looks at. */
  datatype User = User(id: UserId, displayName: string, description: string)

  /** A live stream as returned by `getStream()`; `startDate` in milliseconds. */
  datatype Stream = Stream(title: string, gameName: string, startDate: int)

  /**
   * The events of the bot's event bus. `date` is in milliseconds; for an
   * online event it is the stream's start, for the others the clock at
   * the moment of emission.
   */
  datatype Event =
    | Online(user: User, date: int, stream: Stream)
    | Offline(user: User, date: int)
    | Unsubscribed(user: User, date: int)
}
