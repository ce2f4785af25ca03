/**
 * The values the core exchanges with the chat platform and the issue tracker:
 * the parsed reaction event, user and message records, the calls the core makes
 * (kept as an effect log), and the channel that carries events from the
 * listener to the handler.
 */
module SlackApi {

  import opened Wrappers

  /** A `reaction_added` event on an item: who reacted, with what, on which item. */
  datatype ReactionEvent = ReactionEvent(
    user: string,
    reaction: string,
    itemType: string,
    channel: string,
    timestamp: string)

  /** A user record; only the profile email matters to the core. */
  datatype User = User(id: string, email: string)

  /** One reaction on a message: its name and the users who applied it. */
  datatype ItemReaction = ItemReaction(name: string, users: seq<string>)

  /** A message as returned by the conversation-history call. */
  datatype Message = Message(
    channel: string,
    timestamp: string,
    threadTimestamp: string,
    text: string,
    reactions: seq<ItemReaction>)

  /** Every call the core makes to the chat platform or the issue tracker. */
  datatype Call =
    | GetUserInfo(userID: string)
    | GetConversationHistory(channel: string, latest: string)
    | GetPermalink(channel: string, ts: string)
    | PostMessage(channel: string, ts: string, text: string)
    | PostToChannel(channel: string, text: string)
    | AddReaction(name: string, channel: string, ts: string)
    | RemoveReaction(name: string, channel: string, ts: string)
    | CreateTicket(project: string, title: string, content: string)

  /**
   * The Go channel of `*ReactionAddedEvent` shared by the listener (sender) and
   * the handler (receiver): a strict FIFO sequence.
   */
  class EventQueue {
    var items: seq<ReactionEvent>

    constructor ()
      ensures items == []
    {
      items := [];
    }

    /** `queue <- ev`: the event goes to the back, nothing else moves. */
    method Send(ev: ReactionEvent)
      modifies this
      ensures items == old(items) + [ev]
    {
      items := items + [ev];
    }

    /** `<-queue`: the oldest event leaves; on an empty channel the receiver would block, so nothing happens. */
    method Receive() returns (ev: Option<ReactionEvent>)
      modifies this
      ensures old(items) == [] ==> ev == None && items == []
      ensures old(items) != [] ==> ev == Some(old(items)[0]) && items == old(items)[1..]
    {
      if items == [] {
        ev := None;
      } else {
        ev := Some(items[0]);
        items := items[1..];
      }
    }
  }
}
