/**
 * The webhook handler: classifies an already-parsed Events API payload, answers
 * the URL-verification handshake, and sends the wanted reaction events to the
 * event queue.
 */
module Listen {

  import opened Wrappers
  import opened SlackApi

  /** The inner event of an `event_callback` payload, by its Go type. */
  datatype InnerEvent =
    | AppMention(channel: string)
    | ReactionAdded(ev: ReactionEvent)
    | OtherInner(kind: string)

  /**
   * The outcome of parsing the request body (the verification-token comparison
   * included). For a handshake, `challenge` is `None` when re-decoding the body
   * as a challenge response fails.
   */
  datatype ParsedEvent =
    | ParseFailed
    | UrlVerification(challenge: Option<string>)
    | Callback(inner: InnerEvent)
    | OtherOuter(kind: string)

  datatype HttpResponse = HttpResponse(status: nat, body: string)

  const StatusOK: nat := 200
  const StatusInternalServerError: nat := 500
  const MentionReply := "Yes, hello."
  const MessageItem := "message"

  /** What the handler does with one payload. */
  datatype Action =
    | Fail
    | Echo(challenge: string)
    | Reply(channel: string)
    | Enqueue(ev: ReactionEvent)
    | Drop

  /** A reaction worth a ticket: not the bot's own, the configured emoji, on a message. */
  predicate Wanted(ev: ReactionEvent, emojiName: string, myUserID: string)
  {
    ev.user != myUserID && ev.reaction == emojiName && ev.itemType == MessageItem
  }

  /** The decision the handler's nested switch makes for a payload. */
  function Classify(e: ParsedEvent, emojiName: string, myUserID: string): (a: Action)
    ensures a.Fail? <==> e.ParseFailed? || e == UrlVerification(None)
    ensures a.Echo? <==> e.UrlVerification? && e.challenge.Some?
    ensures a.Echo? ==> a.challenge == e.challenge.value
    ensures a.Reply? <==> e.Callback? && e.inner.AppMention?
    ensures a.Reply? ==> a.channel == e.inner.channel
    ensures a.Enqueue? <==> e.Callback? && e.inner.ReactionAdded? && Wanted(e.inner.ev, emojiName, myUserID)
    ensures a.Enqueue? ==> a.ev == e.inner.ev
  {
    match e
    case ParseFailed => Fail
    case UrlVerification(challenge) =>
      if challenge.None? then Fail else Echo(challenge.value)
    case Callback(inner) =>
      (match inner
       case AppMention(channel) => Reply(channel)
       case ReactionAdded(ev) =>
         if ev.user == myUserID then Drop
         else if !(ev.reaction == emojiName && ev.itemType == MessageItem) then Drop
         else Enqueue(ev)
       case OtherInner(_) => Drop)
    case OtherOuter(_) => Drop
  }

  /** The HTTP answer: 500 with no body on failure, the bare challenge for a handshake, otherwise an empty 200. */
  function ResponseTo(a: Action): (r: HttpResponse)
    ensures r.status == StatusInternalServerError <==> a.Fail?
    ensures r.status == StatusOK <==> !a.Fail?
    ensures a.Echo? ==> r.body == a.challenge
    ensures !a.Echo? ==> r.body == ""
  {
    match a
    case Fail => HttpResponse(StatusInternalServerError, "")
    case Echo(challenge) => HttpResponse(StatusOK, challenge)
    case _ => HttpResponse(StatusOK, "")
  }

  /** The events one payload puts on the queue: the reaction itself, or nothing. */
  function Enqueued(e: ParsedEvent, emojiName: string, myUserID: string): (q: seq<ReactionEvent>)
    ensures |q| <= 1
    ensures forall ev :: ev in q ==> Wanted(ev, emojiName, myUserID)
    ensures q != [] <==> e.Callback? && e.inner.ReactionAdded? && Wanted(e.inner.ev, emojiName, myUserID)
    ensures q != [] ==> q == [e.inner.ev]
  {
    var a := Classify(e, emojiName, myUserID);
    if a.Enqueue? then [a.ev] else []
  }

  /** The events a run of payloads puts on the queue, in arrival order. */
  function Delivered(es: seq<ParsedEvent>, emojiName: string, myUserID: string): seq<ReactionEvent>
    decreases |es|
  {
    if es == [] then []
    else Delivered(es[..|es| - 1], emojiName, myUserID) + Enqueued(es[|es| - 1], emojiName, myUserID)
  }

  /** A reaction made by the bot itself never reaches the queue. */
  lemma SelfReactionDropped(e: ParsedEvent, emojiName: string, myUserID: string)
    requires e.Callback? && e.inner.ReactionAdded? && e.inner.ev.user == myUserID
    ensures Enqueued(e, emojiName, myUserID) == []
    ensures ResponseTo(Classify(e, emojiName, myUserID)) == HttpResponse(StatusOK, "")
  {
  }

  /** Delivery is FIFO: the events of a later run follow those of an earlier run, in order. */
  lemma {:induction false} DeliveredAppend(xs: seq<ParsedEvent>, ys: seq<ParsedEvent>, emojiName: string, myUserID: string)
    ensures Delivered(xs + ys, emojiName, myUserID)
         == Delivered(xs, emojiName, myUserID) + Delivered(ys, emojiName, myUserID)
    decreases |ys|
  {
    if ys == [] {
      assert xs + ys == xs;
    } else {
      var front := ys[..|ys| - 1];
      DeliveredAppend(xs, front, emojiName, myUserID);
      assert (xs + ys)[..|xs + ys| - 1] == xs + front;
      assert (xs + ys)[|xs + ys| - 1] == ys[|ys| - 1];
    }
  }

  /** Everything delivered is a wanted reaction taken from one of the payloads. */
  lemma {:induction false} DeliveredAreWanted(es: seq<ParsedEvent>, emojiName: string, myUserID: string)
    ensures forall ev :: ev in Delivered(es, emojiName, myUserID) ==>
      Wanted(ev, emojiName, myUserID) && Callback(ReactionAdded(ev)) in es
    decreases |es|
  {
    if es != [] {
      var front := es[..|es| - 1];
      var last := es[|es| - 1];
      DeliveredAreWanted(front, emojiName, myUserID);
      forall ev | ev in Delivered(es, emojiName, myUserID)
        ensures Wanted(ev, emojiName, myUserID) && Callback(ReactionAdded(ev)) in es
      {
        if ev in Delivered(front, emojiName, myUserID) {
          assert Callback(ReactionAdded(ev)) in front;
          assert forall x :: x in front ==> x in es;
        } else {
          assert ev in Enqueued(last, emojiName, myUserID);
          assert last == Callback(ReactionAdded(ev));
        }
      }
    }
  }

  /** `slackListener`: the configured trigger emoji, the bot's identity and the sending end of the queue. */
  class SlackListener {
    const emojiName: string
    const myUserID: string
    const eventDestination: EventQueue
    /** Calls made to the chat platform, oldest first. */
    ghost var effects: seq<Call>

    constructor (emojiName: string, myUserID: string, eventDestination: EventQueue)
      ensures this.emojiName == emojiName && this.myUserID == myUserID
      ensures this.eventDestination == eventDestination && effects == []
    {
      this.emojiName := emojiName;
      this.myUserID := myUserID;
      this.eventDestination := eventDestination;
      effects := [];
    }

    /** Handles one webhook request whose body parsed to `e`. */
    method Handler(e: ParsedEvent) returns (resp: HttpResponse)
      modifies eventDestination, this`effects
      ensures var a := Classify(e, emojiName, myUserID);
        && resp == ResponseTo(a)
        && eventDestination.items == old(eventDestination.items) + Enqueued(e, emojiName, myUserID)
        && effects == old(effects) + (if a.Reply? then [PostToChannel(a.channel, MentionReply)] else [])
    {
      resp := HttpResponse(StatusOK, "");
      if e.ParseFailed? {
        resp := HttpResponse(StatusInternalServerError, "");
        return;
      }
      match e {
        case UrlVerification(challenge) =>
          if challenge.None? {
            resp := HttpResponse(StatusInternalServerError, "");
            return;
          }
          resp := HttpResponse(StatusOK, challenge.value);
        case Callback(inner) =>
          match inner {
            case AppMention(channel) =>
              effects := effects + [PostToChannel(channel, MentionReply)];
            case ReactionAdded(ev) =>
              if ev.user == myUserID {
                return;
              }
              if !(ev.reaction == emojiName && ev.itemType == MessageItem) {
                return;
              }
              eventDestination.Send(ev);
            case OtherInner(_) =>
          }
        case OtherOuter(_) =>
      }
    }
  }
}
