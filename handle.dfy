/**
 * The event processor: for each queued reaction event it resolves the user,
 * routes their email to a tracker project, fetches the reacted message (through
 * a keyed cache), skips messages the bot has already marked complete, and
 * otherwise files a ticket; one loop iteration then reports the outcome with
 * status reactions and a thread reply.
 *
 * The chat platform and the tracker are oracles (`Platform`, `TicketCreator`):
 * their answers are parameters, and every call made to them is recorded, in
 * order, in a call log.
 */
module Handle {

  import opened Wrappers
  import opened GoStrings
  import opened SlackApi

  /** The reaction the bot applies to a message it filed a ticket for; it is also the idempotency marker. */
  const CompletedReaction := "+1"
  const WaitReaction := "hourglass_flowing_sand"
  const ErrorReaction := "x"
  const TitleLimit := 100

  const NoEmailText := "Unable to get user info"
  const AlreadyCreatedText := "Jira ticket already created for this comment"
  const CreateFailedText := "There was an error creating the jira ticket."
  const EmptyHistoryText := "Message response is 0"
  const BodyHeader := "From slack: "
  const BrowseUrl := "https://jira.1e4h.net/browse/"

  function UnroutedText(email: string): string
  {
    "Email " + email + " is not configured in USER_JIRA_PAIRS"
  }

  function CreatedText(id: string): string
  {
    "I've created your jira ticket " + id + ": " + BrowseUrl + id
  }

  /** The chat platform's answers while one event is being processed. */
  datatype Platform = Platform(
    userInfo: string -> Result<User>,
    history: (string, string) -> Result<seq<Message>>,
    permalink: (string, string) -> Result<string>,
    postMessage: (string, string, string) -> Result<string>)

  /** The `TicketCreator` capability: `CreateTicket(project, title, content)` gives an id or an error. */
  datatype TicketCreator = TicketCreator(createTicket: (string, string, string) -> Result<string>)

  /** Why `handleEvent` returned a non-nil error. */
  datatype Failure =
    | UserLookupFailed
    | NoEmail
    | Unrouted
    | MessageFetchFailed
    | PermalinkFailed
    | TicketCreationFailed

  /** The `(message, reaction, err)` triple of `handleEvent`. */
  datatype Outcome = Outcome(message: string, reaction: string, err: Option<Failure>)

  // ---------------------------------------------------------------------------
  // Composition of the ticket and of the replies

  /**
   * The ticket summary: the text before the first line break, cut to its first
   * 100 characters. It is the longest break-free prefix of the text, capped at 100.
   */
  function TicketTitle(text: string): (title: string)
    ensures |title| <= TitleLimit
    ensures title <= text
    ensures '\n' !in title
    ensures |title| == TitleLimit || |title| == |text| || text[|title|] == '\n'
  {
    FirstPiece(text, '\n');
    var firstLine := Split(text, '\n')[0];
    if |firstLine| > TitleLimit then
      assert forall k :: 0 <= k < TitleLimit ==> firstLine[..TitleLimit][k] == firstLine[k];
      firstLine[..TitleLimit]
    else firstLine
  }

  /** The ticket description: a header with the permalink, a blank line, then the whole message text. */
  function TicketBody(permalink: string, text: string): (body: string)
    ensures |body| == |BodyHeader| + |permalink| + 2 + |text|
    ensures body[..|BodyHeader|] == BodyHeader
    ensures body[|BodyHeader|..|BodyHeader| + |permalink|] == permalink
    ensures body[|BodyHeader| + |permalink|..|BodyHeader| + |permalink| + 2] == "\n\n"
    ensures body[|body| - |text|..] == text
  {
    BodyHeader + permalink + "\n\n" + text
  }

  /** The timestamp a reply goes to: the thread root when the message is in a thread, else the message itself. */
  function ThreadTarget(msg: Message, timestamp: string): (target: string)
    ensures target == msg.threadTimestamp || target == timestamp
    ensures target == timestamp <==> msg.threadTimestamp == "" || msg.threadTimestamp == timestamp
  {
    if msg.threadTimestamp != "" then msg.threadTimestamp else timestamp
  }

  /** The message carries the completion marker applied by the bot itself. */
  predicate MarkedComplete(msg: Message, myUserID: string)
  {
    exists i :: 0 <= i < |msg.reactions| && msg.reactions[i].name == CompletedReaction && myUserID in msg.reactions[i].users
  }

  /** The idempotency scan: the loop over the message's reactions and, for the marker, over its users. */
  method ScanCompleted(reactions: seq<ItemReaction>, myUserID: string) returns (found: bool)
    ensures found <==> exists i :: 0 <= i < |reactions| && reactions[i].name == CompletedReaction && myUserID in reactions[i].users
  {
    for i := 0 to |reactions|
      invariant forall k :: 0 <= k < i ==> !(reactions[k].name == CompletedReaction && myUserID in reactions[k].users)
    {
      if reactions[i].name == CompletedReaction {
        var users := reactions[i].users;
        for j := 0 to |users|
          invariant forall k :: 0 <= k < j ==> users[k] != myUserID
        {
          if users[j] == myUserID {
            return true;
          }
        }
      }
    }
    return false;
  }

  // ---------------------------------------------------------------------------
  // The caches

  /** The message-cache key `channel:timestamp`. */
  function CacheKey(channel: string, timestamp: string): string
  {
    channel + ":" + timestamp
  }

  /** With a channel free of `:`, the first `:` of its key stands right after the channel. */
  lemma FirstColon(channel: string, timestamp: string)
    requires ':' !in channel
    ensures CacheKey(channel, timestamp)[|channel|] == ':'
    ensures forall i :: 0 <= i < |channel| ==> CacheKey(channel, timestamp)[i] != ':'
  {
    forall i | 0 <= i < |channel| ensures CacheKey(channel, timestamp)[i] != ':' {
      assert CacheKey(channel, timestamp)[i] == channel[i];
    }
  }

  /** As long as channel IDs contain no `:`, distinct messages get distinct cache keys. */
  lemma CacheKeyInjective(c1: string, t1: string, c2: string, t2: string)
    requires ':' !in c1 && ':' !in c2
    ensures CacheKey(c1, t1) == CacheKey(c2, t2) <==> c1 == c2 && t1 == t2
  {
    if CacheKey(c1, t1) == CacheKey(c2, t2) {
      var k := CacheKey(c1, t1);
      FirstColon(c1, t1);
      FirstColon(c2, t2);
      assert |c1| == |c2|;
      assert c1 == k[..|c1|] == c2;
      assert t1 == k[|c1| + 1..] == t2;
    }
  }

  /** The key alone does not tell a channel with a `:` from a timestamp with one. */
  lemma CacheKeyAmbiguous()
    ensures CacheKey("a:b", "c") == CacheKey("a", "b:c")
  {
  }

  datatype Lookup = Lookup(result: Result<User>, cache: map<string, User>, calls: seq<Call>)

  /** `userCache` in front of `GetUserInfo`. */
  ghost function LookupUser(cache: map<string, User>, id: string, p: Platform): Lookup
  {
    if id in cache then Lookup(Ok(cache[id]), cache, [])
    else
      var answer := p.userInfo(id);
      if answer.Err? then Lookup(Err(answer.error), cache, [GetUserInfo(id)])
      else Lookup(Ok(answer.value), cache[id := answer.value], [GetUserInfo(id)])
  }

  datatype Fetch = Fetch(result: Result<Message>, cache: map<string, Message>, calls: seq<Call>)

  /** `fetchMessage`: `messageCache` in front of a one-message history request. */
  ghost function FetchSpec(cache: map<string, Message>, channel: string, timestamp: string, p: Platform): Fetch
  {
    var key := CacheKey(channel, timestamp);
    if key in cache then Fetch(Ok(cache[key]), cache, [])
    else
      var call := [GetConversationHistory(channel, timestamp)];
      var answer := p.history(channel, timestamp);
      if answer.Err? then Fetch(Err(answer.error), cache, call)
      else if |answer.value| == 0 then Fetch(Err(EmptyHistoryText), cache, call)
      else
        var msg := answer.value[0].(channel := channel);
        Fetch(Ok(msg), cache[key := msg], call)
  }

  /** A cached message is returned as it is, with no platform call. */
  lemma FetchHit(cache: map<string, Message>, channel: string, timestamp: string, p: Platform)
    requires CacheKey(channel, timestamp) in cache
    ensures FetchSpec(cache, channel, timestamp, p) == Fetch(Ok(cache[CacheKey(channel, timestamp)]), cache, [])
  {
  }

  /**
   * On a miss there is exactly one history request; a failed or empty answer
   * leaves the cache as it was, a good one is stored under the key with its
   * channel set to the requested channel.
   */
  lemma FetchMiss(cache: map<string, Message>, channel: string, timestamp: string, p: Platform)
    requires CacheKey(channel, timestamp) !in cache
    ensures var f := FetchSpec(cache, channel, timestamp, p);
      var answer := p.history(channel, timestamp);
      && f.calls == [GetConversationHistory(channel, timestamp)]
      && (f.result.Ok? <==> answer.Ok? && |answer.value| > 0)
      && (f.result.Ok? ==> f.result.value == answer.value[0].(channel := channel))
      && (f.result.Ok? ==> f.result.value.channel == channel)
      && (f.result.Ok? ==> f.cache == cache[CacheKey(channel, timestamp) := f.result.value])
      && (f.result.Err? ==> f.cache == cache)
  {
  }

  /** Once fetched, a message is served from the cache whatever the platform now holds. */
  lemma FetchAgainSameRecord(cache: map<string, Message>, channel: string, timestamp: string, p1: Platform, p2: Platform)
    ensures var f1 := FetchSpec(cache, channel, timestamp, p1);
      f1.result.Ok? ==> FetchSpec(f1.cache, channel, timestamp, p2) == Fetch(f1.result, f1.cache, [])
  {
  }

  /** `m2` keeps every entry of `m1`. */
  ghost predicate Extends<K, V>(m1: map<K, V>, m2: map<K, V>)
  {
    m1.Keys <= m2.Keys && forall k :: k in m1 ==> m2[k] == m1[k]
  }

  // ---------------------------------------------------------------------------
  // handleEvent

  /** Ticket-creation requests in a call log. */
  function TicketRequests(calls: seq<Call>): (requests: seq<Call>)
    ensures |requests| <= |calls|
    ensures forall i :: 0 <= i < |requests| ==> requests[i].CreateTicket?
    ensures forall c :: c in requests <==> c in calls && c.CreateTicket?
  {
    if calls == [] then []
    else (if calls[0].CreateTicket? then [calls[0]] else []) + TicketRequests(calls[1..])
  }

  /** A log without ticket calls has no ticket requests. */
  lemma {:induction false} NoTicketRequests(calls: seq<Call>)
    requires forall c :: c in calls ==> !c.CreateTicket?
    ensures TicketRequests(calls) == []
    decreases |calls|
  {
    if calls != [] {
      assert forall c :: c in calls[1..] ==> c in calls;
      NoTicketRequests(calls[1..]);
    }
  }

  lemma {:induction false} TicketRequestsAppend(a: seq<Call>, b: seq<Call>)
    ensures TicketRequests(a + b) == TicketRequests(a) + TicketRequests(b)
    decreases |a|
  {
    if a == [] {
      assert a + b == b;
    } else {
      TicketRequestsAppend(a[1..], b);
      assert (a + b)[0] == a[0];
      assert (a + b)[1..] == a[1..] + b;
      var head := if a[0].CreateTicket? then [a[0]] else [];
      Regroup(head, TicketRequests(a[1..]), TicketRequests(b));
    }
  }

  /**
   * What one `handleEvent` call does: its outcome, the caches afterwards, the
   * calls it made, and the user and message records it worked from.
   */
  datatype Handled = Handled(
    out: Outcome,
    users: map<string, User>,
    messages: map<string, Message>,
    calls: seq<Call>,
    user: Option<User>,
    fetched: Option<Message>)

  ghost function HandleSpec(
    myUserID: string, pairs: map<string, string>,
    users: map<string, User>, messages: map<string, Message>,
    ev: ReactionEvent, p: Platform, t: TicketCreator): Handled
  {
    var lu := LookupUser(users, ev.user, p);
    if lu.result.Err? then
      Handled(Outcome("", "", Some(UserLookupFailed)), lu.cache, messages, lu.calls, None, None)
    else
      var r := RouteSpec(myUserID, pairs, lu.result.value, messages, ev, p, t);
      Handled(r.out, lu.cache, r.messages, lu.calls + r.calls, Some(lu.result.value), r.fetched)
  }

  /** What `handleEvent` does once the user is resolved. */
  datatype Routed = Routed(out: Outcome, messages: map<string, Message>, calls: seq<Call>, fetched: Option<Message>)

  ghost function RouteSpec(
    myUserID: string, pairs: map<string, string>, user: User,
    messages: map<string, Message>, ev: ReactionEvent, p: Platform, t: TicketCreator): Routed
  {
    if user.email == "" then
      Routed(Outcome(NoEmailText, "", Some(NoEmail)), messages, [], None)
    else if user.email !in pairs then
      Routed(Outcome(UnroutedText(user.email), "", Some(Unrouted)), messages, [], None)
    else
      var f := FetchSpec(messages, ev.channel, ev.timestamp, p);
      if f.result.Err? then
        Routed(Outcome("", "", Some(MessageFetchFailed)), f.cache, f.calls, None)
      else
        var filed := FileSpec(myUserID, pairs[user.email], f.result.value, p, t);
        Routed(filed.out, f.cache, f.calls + filed.calls, Some(f.result.value))
  }

  /** What `handleEvent` does once the message is fetched. */
  datatype Filed = Filed(out: Outcome, calls: seq<Call>)

  ghost function FileSpec(myUserID: string, project: string, msg: Message, p: Platform, t: TicketCreator): Filed
  {
    if MarkedComplete(msg, myUserID) then
      Filed(Outcome(AlreadyCreatedText, ErrorReaction, None), [])
    else
      var linkCall := GetPermalink(msg.channel, msg.timestamp);
      var link := p.permalink(msg.channel, msg.timestamp);
      if link.Err? then
        Filed(Outcome("", "", Some(PermalinkFailed)), [linkCall])
      else
        var title := TicketTitle(msg.text);
        var content := TicketBody(link.value, msg.text);
        var created := t.createTicket(project, title, content);
        var calls := [linkCall, CreateTicket(project, title, content)];
        if created.Err? then
          Filed(Outcome(CreateFailedText, "", Some(TicketCreationFailed)), calls)
        else
          Filed(Outcome(CreatedText(created.value), CompletedReaction, None), calls)
  }

  /** Every stage before ticket creation succeeds: the conditions under which a ticket is requested. */
  ghost predicate StagesPass(
    myUserID: string, pairs: map<string, string>,
    users: map<string, User>, messages: map<string, Message>,
    ev: ReactionEvent, p: Platform)
  {
    var lu := LookupUser(users, ev.user, p);
    && lu.result.Ok?
    && lu.result.value.email != ""
    && lu.result.value.email in pairs
    && var f := FetchSpec(messages, ev.channel, ev.timestamp, p);
    && f.result.Ok?
    && !MarkedComplete(f.result.value, myUserID)
    && p.permalink(f.result.value.channel, f.result.value.timestamp).Ok?
  }

  /** The records `handleEvent` reports are the ones its user lookup and its message fetch returned. */
  lemma HandleObservesLookups(
    myUserID: string, pairs: map<string, string>,
    users: map<string, User>, messages: map<string, Message>,
    ev: ReactionEvent, p: Platform, t: TicketCreator)
    ensures var h := HandleSpec(myUserID, pairs, users, messages, ev, p, t);
      && (h.user.Some? <==> LookupUser(users, ev.user, p).result.Ok?)
      && (h.user.Some? ==> LookupUser(users, ev.user, p).result.value == h.user.value)
      && (h.fetched.Some? ==> FetchSpec(messages, ev.channel, ev.timestamp, p).result == Ok(h.fetched.value))
      && (h.fetched.Some? ==> h.user.value.email != "" && h.user.value.email in pairs)
  {
  }

  /**
   * Idempotency, relative to the fetched record: when the message returned by
   * the fetch already carries the bot's marker, the event ends with the
   * "already created" answer and neither a permalink nor a ticket is requested.
   */
  lemma MarkedMessageNotTicketed(
    myUserID: string, pairs: map<string, string>,
    users: map<string, User>, messages: map<string, Message>,
    ev: ReactionEvent, p: Platform, t: TicketCreator)
    ensures var h := HandleSpec(myUserID, pairs, users, messages, ev, p, t);
      h.fetched.Some? && MarkedComplete(h.fetched.value, myUserID) ==>
        && h.out == Outcome(AlreadyCreatedText, ErrorReaction, None)
        && TicketRequests(h.calls) == []
        && forall c :: c in h.calls ==> !c.GetPermalink? && !c.CreateTicket?
  {
    var h := HandleSpec(myUserID, pairs, users, messages, ev, p, t);
    if h.fetched.Some? && MarkedComplete(h.fetched.value, myUserID) {
      var lu := LookupUser(users, ev.user, p);
      var f := FetchSpec(messages, ev.channel, ev.timestamp, p);
      assert h.calls == lu.calls + (f.calls + []);
      NoTicketRequests(h.calls);
    }
  }

  /** A lookup on the platform or a ticket request to the tracker: the only calls `handleEvent` makes. */
  predicate IsLookupOrTicket(c: Call)
  {
    c.GetUserInfo? || c.GetConversationHistory? || c.GetPermalink? || c.CreateTicket?
  }

  /** `handleEvent` makes only lookups and ticket requests: no reaction is touched and nothing is posted. */
  lemma HandleOnlyLooksUpAndFiles(
    myUserID: string, pairs: map<string, string>,
    users: map<string, User>, messages: map<string, Message>,
    ev: ReactionEvent, p: Platform, t: TicketCreator)
    ensures var h := HandleSpec(myUserID, pairs, users, messages, ev, p, t);
      forall c :: c in h.calls ==> IsLookupOrTicket(c)
  {
    var lu := LookupUser(users, ev.user, p);
    if lu.result.Ok? {
      RouteStage(myUserID, pairs, lu.result.value, messages, ev, p, t);
    }
  }

  /** In the filing stage a ticket is requested exactly when the message is unmarked and its permalink is known. */
  lemma FileTickets(myUserID: string, project: string, msg: Message, p: Platform, t: TicketCreator)
    ensures var link := p.permalink(msg.channel, msg.timestamp);
      TicketRequests(FileSpec(myUserID, project, msg, p, t).calls)
        == if !MarkedComplete(msg, myUserID) && link.Ok?
           then [CreateTicket(project, TicketTitle(msg.text), TicketBody(link.value, msg.text))]
           else []
  {
    var filed := FileSpec(myUserID, project, msg, p, t);
    var link := p.permalink(msg.channel, msg.timestamp);
    if !MarkedComplete(msg, myUserID) && link.Ok? {
      var request := CreateTicket(project, TicketTitle(msg.text), TicketBody(link.value, msg.text));
      assert filed.calls == [GetPermalink(msg.channel, msg.timestamp)] + [request];
      TicketRequestsAppend([GetPermalink(msg.channel, msg.timestamp)], [request]);
    }
  }

  /** Once the user is resolved, the ticket requests are those of the filing stage, reached only by a routed email and a fetched message. */
  lemma RouteTickets(
    myUserID: string, pairs: map<string, string>, user: User,
    messages: map<string, Message>, ev: ReactionEvent, p: Platform, t: TicketCreator)
    ensures var f := FetchSpec(messages, ev.channel, ev.timestamp, p);
      TicketRequests(RouteSpec(myUserID, pairs, user, messages, ev, p, t).calls)
        == if user.email != "" && user.email in pairs && f.result.Ok?
           then TicketRequests(FileSpec(myUserID, pairs[user.email], f.result.value, p, t).calls)
           else []
  {
    var f := FetchSpec(messages, ev.channel, ev.timestamp, p);
    NoTicketRequests(f.calls);
    if user.email != "" && user.email in pairs && f.result.Ok? {
      TicketRequestsAppend(f.calls, FileSpec(myUserID, pairs[user.email], f.result.value, p, t).calls);
    }
  }

  /**
   * At most one ticket is requested per event, and one is requested exactly
   * when every stage passes; it goes to the user's routed project, with the
   * title and body composed from the fetched message and its permalink.
   */
  lemma TicketRequestedExactlyWhenStagesPass(
    myUserID: string, pairs: map<string, string>,
    users: map<string, User>, messages: map<string, Message>,
    ev: ReactionEvent, p: Platform, t: TicketCreator)
    ensures var h := HandleSpec(myUserID, pairs, users, messages, ev, p, t);
      && |TicketRequests(h.calls)| <= 1
      && (|TicketRequests(h.calls)| == 1 <==> StagesPass(myUserID, pairs, users, messages, ev, p))
      && (|TicketRequests(h.calls)| == 1 ==>
            var msg := h.fetched.value;
            var link := p.permalink(msg.channel, msg.timestamp);
            && h.user.Some? && h.fetched.Some? && link.Ok?
            && TicketRequests(h.calls)[0] == CreateTicket(pairs[h.user.value.email], TicketTitle(msg.text), TicketBody(link.value, msg.text)))
  {
    var lu := LookupUser(users, ev.user, p);
    NoTicketRequests(lu.calls);
    if lu.result.Ok? {
      var user := lu.result.value;
      var r := RouteSpec(myUserID, pairs, user, messages, ev, p, t);
      TicketRequestsAppend(lu.calls, r.calls);
      RouteTickets(myUserID, pairs, user, messages, ev, p, t);
      var f := FetchSpec(messages, ev.channel, ev.timestamp, p);
      if user.email != "" && user.email in pairs && f.result.Ok? {
        FileTickets(myUserID, pairs[user.email], f.result.value, p, t);
      }
    }
  }

  /** Every error outcome carries no reaction and the message of its kind. */
  lemma FailureOutcomes(
    myUserID: string, pairs: map<string, string>,
    users: map<string, User>, messages: map<string, Message>,
    ev: ReactionEvent, p: Platform, t: TicketCreator)
    ensures var h := HandleSpec(myUserID, pairs, users, messages, ev, p, t);
      var o := h.out;
      && (o.err.Some? ==> o.reaction == "")
      && (o.err == Some(UserLookupFailed) <==> LookupUser(users, ev.user, p).result.Err?)
      && (o.err == Some(UserLookupFailed) || o.err == Some(MessageFetchFailed) || o.err == Some(PermalinkFailed) ==> o.message == "")
      && (o.err == Some(NoEmail) <==> h.user.Some? && h.user.value.email == "")
      && (o.err == Some(NoEmail) ==> o.message == NoEmailText)
      && (o.err == Some(Unrouted) <==> h.user.Some? && h.user.value.email != "" && h.user.value.email !in pairs)
      && (o.err == Some(Unrouted) ==> o.message == UnroutedText(h.user.value.email))
      && (o.err == Some(TicketCreationFailed) ==> o.message == CreateFailedText)
      && (o.err == Some(MessageFetchFailed) <==>
            h.user.Some? && h.user.value.email != "" && h.user.value.email in pairs
            && FetchSpec(messages, ev.channel, ev.timestamp, p).result.Err?)
      && (o.err == Some(PermalinkFailed) <==>
            h.fetched.Some? && !MarkedComplete(h.fetched.value, myUserID)
            && p.permalink(h.fetched.value.channel, h.fetched.value.timestamp).Err?)
      && (o.err == Some(TicketCreationFailed) <==>
            var requests := TicketRequests(h.calls);
            |requests| == 1 && t.createTicket(requests[0].project, requests[0].title, requests[0].content).Err?)
  {
    SuccessOutcome(myUserID, pairs, users, messages, ev, p, t);
  }

  /**
   * The bot reports success exactly when the tracker accepted the one ticket
   * request, and then answers with the ticket id and its browse URL.
   */
  lemma SuccessOutcome(
    myUserID: string, pairs: map<string, string>,
    users: map<string, User>, messages: map<string, Message>,
    ev: ReactionEvent, p: Platform, t: TicketCreator)
    ensures var h := HandleSpec(myUserID, pairs, users, messages, ev, p, t);
      var requests := TicketRequests(h.calls);
      && (h.out.reaction == CompletedReaction <==>
            |requests| == 1 && t.createTicket(requests[0].project, requests[0].title, requests[0].content).Ok?)
      && (h.out.reaction == CompletedReaction ==>
            h.out == Outcome(CreatedText(t.createTicket(requests[0].project, requests[0].title, requests[0].content).value), CompletedReaction, None))
      && (h.out.err.None? ==> h.out.reaction == CompletedReaction || h.out == Outcome(AlreadyCreatedText, ErrorReaction, None))
      && (h.out.err == Some(TicketCreationFailed) <==>
            |requests| == 1 && t.createTicket(requests[0].project, requests[0].title, requests[0].content).Err?)
  {
    var lu := LookupUser(users, ev.user, p);
    NoTicketRequests(lu.calls);
    if lu.result.Ok? {
      var r := RouteSpec(myUserID, pairs, lu.result.value, messages, ev, p, t);
      TicketRequestsAppend(lu.calls, r.calls);
      RouteOutcome(myUserID, pairs, lu.result.value, messages, ev, p, t);
    }
  }

  /** `SuccessOutcome` for a resolved user. */
  lemma RouteOutcome(
    myUserID: string, pairs: map<string, string>, user: User,
    messages: map<string, Message>, ev: ReactionEvent, p: Platform, t: TicketCreator)
    ensures var r := RouteSpec(myUserID, pairs, user, messages, ev, p, t);
      var requests := TicketRequests(r.calls);
      && (r.out.reaction == CompletedReaction <==>
            |requests| == 1 && t.createTicket(requests[0].project, requests[0].title, requests[0].content).Ok?)
      && (r.out.reaction == CompletedReaction ==>
            r.out == Outcome(CreatedText(t.createTicket(requests[0].project, requests[0].title, requests[0].content).value), CompletedReaction, None))
      && (r.out.err.None? ==> r.out.reaction == CompletedReaction || r.out == Outcome(AlreadyCreatedText, ErrorReaction, None))
      && (r.out.err == Some(TicketCreationFailed) <==>
            |requests| == 1 && t.createTicket(requests[0].project, requests[0].title, requests[0].content).Err?)
  {
    RouteTickets(myUserID, pairs, user, messages, ev, p, t);
    var f := FetchSpec(messages, ev.channel, ev.timestamp, p);
    if user.email != "" && user.email in pairs && f.result.Ok? {
      FileOutcome(myUserID, pairs[user.email], f.result.value, p, t);
    }
  }

  /** `SuccessOutcome` for a fetched message. */
  lemma FileOutcome(myUserID: string, project: string, msg: Message, p: Platform, t: TicketCreator)
    ensures var filed := FileSpec(myUserID, project, msg, p, t);
      var requests := TicketRequests(filed.calls);
      && (filed.out.reaction == CompletedReaction <==>
            |requests| == 1 && t.createTicket(requests[0].project, requests[0].title, requests[0].content).Ok?)
      && (filed.out.reaction == CompletedReaction ==>
            filed.out == Outcome(CreatedText(t.createTicket(requests[0].project, requests[0].title, requests[0].content).value), CompletedReaction, None))
      && (filed.out.err.None? ==> filed.out.reaction == CompletedReaction || filed.out == Outcome(AlreadyCreatedText, ErrorReaction, None))
      && (filed.out.err == Some(TicketCreationFailed) <==>
            |requests| == 1 && t.createTicket(requests[0].project, requests[0].title, requests[0].content).Err?)
  {
    FileTickets(myUserID, project, msg, p, t);
  }

  /**
   * The user cache memoises: a cached user costs no call; a failed lookup
   * leaves the cache as it was; a good one is stored. The message cache only
   * gains entries. Neither cache ever loses or changes an entry.
   */
  lemma HandleCaches(
    myUserID: string, pairs: map<string, string>,
    users: map<string, User>, messages: map<string, Message>,
    ev: ReactionEvent, p: Platform, t: TicketCreator)
    ensures var h := HandleSpec(myUserID, pairs, users, messages, ev, p, t);
      && (ev.user in users ==> h.users == users && GetUserInfo(ev.user) !in h.calls && h.user == Some(users[ev.user]))
      && (ev.user !in users && p.userInfo(ev.user).Err? ==> h.users == users && h.out.err == Some(UserLookupFailed))
      && (ev.user !in users && p.userInfo(ev.user).Ok? ==> h.users == users[ev.user := p.userInfo(ev.user).value])
      && Extends(users, h.users)
      && Extends(messages, h.messages)
  {
    var lu := LookupUser(users, ev.user, p);
    if lu.result.Ok? {
      RouteStage(myUserID, pairs, lu.result.value, messages, ev, p, t);
    }
  }

  /** Once the user is resolved, no user is looked up and the message cache only gains entries. */
  lemma RouteStage(
    myUserID: string, pairs: map<string, string>, user: User,
    messages: map<string, Message>, ev: ReactionEvent, p: Platform, t: TicketCreator)
    ensures var r := RouteSpec(myUserID, pairs, user, messages, ev, p, t);
      && (forall c :: c in r.calls ==> c.GetConversationHistory? || c.GetPermalink? || c.CreateTicket?)
      && Extends(messages, r.messages)
  {
    var f := FetchSpec(messages, ev.channel, ev.timestamp, p);
    assert Extends(messages, f.cache);
    if user.email != "" && user.email in pairs && f.result.Ok? {
      FileStage(myUserID, pairs[user.email], f.result.value, p, t);
    }
  }

  /** The filing stage asks only for the permalink and the ticket. */
  lemma FileStage(myUserID: string, project: string, msg: Message, p: Platform, t: TicketCreator)
    ensures forall c :: c in FileSpec(myUserID, project, msg, p, t).calls ==> c.GetPermalink? || c.CreateTicket?
  {
  }

  // ---------------------------------------------------------------------------
  // CommonetOnThread and one HandleEvents iteration

  datatype Comment = Comment(ok: bool, cache: map<string, Message>, calls: seq<Call>)

  /** `CommonetOnThread`: fetch the message, then post the comment to its thread. */
  ghost function CommentSpec(cache: map<string, Message>, channel: string, timestamp: string, comment: string, p: Platform): Comment
  {
    var f := FetchSpec(cache, channel, timestamp, p);
    if f.result.Err? then Comment(false, f.cache, f.calls)
    else
      var target := ThreadTarget(f.result.value, timestamp);
      Comment(p.postMessage(channel, target, comment).Ok?, f.cache, f.calls + [PostMessage(channel, target, comment)])
  }

  /**
   * A comment is posted once, in the event's channel, to the thread root when
   * the message is in a thread and to the message otherwise; when the message
   * cannot be fetched nothing is posted and an error is returned.
   */
  lemma CommentTarget(cache: map<string, Message>, channel: string, timestamp: string, comment: string, p: Platform)
    ensures var c := CommentSpec(cache, channel, timestamp, comment, p);
      var f := FetchSpec(cache, channel, timestamp, p);
      && (f.result.Err? ==> !c.ok && forall x :: x in c.calls ==> !x.PostMessage?)
      && (f.result.Ok? ==>
            var thread := f.result.value.threadTimestamp;
            && c.calls == f.calls + [PostMessage(channel, if thread == "" then timestamp else thread, comment)]
            && (c.ok <==> p.postMessage(channel, if thread == "" then timestamp else thread, comment).Ok?))
  {
  }

  datatype Iteration = Iteration(out: Outcome, users: map<string, User>, messages: map<string, Message>, calls: seq<Call>)

  /** The status reactions set after handling: the error mark on failure, then the returned reaction. */
  function StatusCalls(ev: ReactionEvent, out: Outcome): seq<Call>
  {
    (if out.err.Some? then [AddReaction(ErrorReaction, ev.channel, ev.timestamp)] else [])
    + (if out.reaction != "" then [AddReaction(out.reaction, ev.channel, ev.timestamp)] else [])
  }

  /** The thread reply, made only for a non-empty answer. */
  ghost function ReplySpec(messages: map<string, Message>, ev: ReactionEvent, out: Outcome, p: Platform): Comment
  {
    if out.message != "" then CommentSpec(messages, ev.channel, ev.timestamp, out.message, p)
    else Comment(true, messages, [])
  }

  /** The reply reads the message history and posts to the thread; it makes no other call. */
  lemma ReplyCalls(messages: map<string, Message>, ev: ReactionEvent, out: Outcome, p: Platform)
    ensures var c := ReplySpec(messages, ev, out, p);
      && |c.calls| <= 2
      && forall x :: x in c.calls ==> x == GetConversationHistory(ev.channel, ev.timestamp) || (x.PostMessage? && x.channel == ev.channel && x.text == out.message)
  {
  }

  /** The reporting half of a `HandleEvents` iteration, around a given `handleEvent` result `h`. */
  ghost function IterationOf(ev: ReactionEvent, h: Handled, p: Platform): Iteration
  {
    var c := ReplySpec(h.messages, ev, h.out, p);
    Iteration(h.out, h.users, c.cache, EnterCalls(ev) + h.calls + ReportCalls(ev, h.out, c))
  }

  /** The calls before `handleEvent`: add the wait reaction, remove the error mark. */
  function EnterCalls(ev: ReactionEvent): seq<Call>
  {
    [AddReaction(WaitReaction, ev.channel, ev.timestamp), RemoveReaction(ErrorReaction, ev.channel, ev.timestamp)]
  }

  /** The calls after `handleEvent`: status reactions, the reply, and the removal of the wait reaction. */
  function ReportCalls(ev: ReactionEvent, out: Outcome, c: Comment): seq<Call>
  {
    StatusCalls(ev, out) + c.calls + [RemoveReaction(WaitReaction, ev.channel, ev.timestamp)]
  }

  /** One iteration of the `HandleEvents` loop for a received event. */
  ghost function IterationSpec(
    myUserID: string, pairs: map<string, string>,
    users: map<string, User>, messages: map<string, Message>,
    ev: ReactionEvent, p: Platform, t: TicketCreator): Iteration
  {
    IterationOf(ev, HandleSpec(myUserID, pairs, users, messages, ev, p, t), p)
  }

  /**
   * The iteration with the cache entry of the event's message dropped before
   * `handleEvent`, so that the idempotency check sees the platform's current
   * record.
   */
  ghost function FreshIterationSpec(
    myUserID: string, pairs: map<string, string>,
    users: map<string, User>, messages: map<string, Message>,
    ev: ReactionEvent, p: Platform, t: TicketCreator): Iteration
  {
    IterationSpec(myUserID, pairs, users, messages - {CacheKey(ev.channel, ev.timestamp)}, ev, p, t)
  }

  /**
   * With the entry dropped first, a message whose current record carries the
   * bot's marker never gets a ticket request, whatever the cache held.
   */
  lemma FreshIterationHonoursMarker(
    myUserID: string, pairs: map<string, string>,
    users: map<string, User>, messages: map<string, Message>,
    ev: ReactionEvent, p: Platform, t: TicketCreator)
    requires p.history(ev.channel, ev.timestamp).Ok? && |p.history(ev.channel, ev.timestamp).value| > 0
    requires MarkedComplete(p.history(ev.channel, ev.timestamp).value[0], myUserID)
    ensures TicketRequests(FreshIterationSpec(myUserID, pairs, users, messages, ev, p, t).calls) == []
  {
    var evicted := messages - {CacheKey(ev.channel, ev.timestamp)};
    FetchMiss(evicted, ev.channel, ev.timestamp, p);
    var f := FetchSpec(evicted, ev.channel, ev.timestamp, p);
    assert MarkedComplete(f.result.value, myUserID);
    TicketRequestedExactlyWhenStagesPass(myUserID, pairs, users, evicted, ev, p, t);
    IterationTickets(ev, HandleSpec(myUserID, pairs, users, evicted, ev, p, t), p);
  }

  /**
   * As written, the cache decides the idempotency check: when it holds an
   * unmarked snapshot of the message (stored by the filing of an earlier
   * reaction, within the cache lifetime), a ticket is requested again, and the
   * platform's current record, which may carry the bot's marker, is never read.
   */
  lemma StaleSnapshotRequestsTicket(
    myUserID: string, pairs: map<string, string>,
    users: map<string, User>, messages: map<string, Message>,
    ev: ReactionEvent, p: Platform, t: TicketCreator)
    requires ev.user in users && users[ev.user].email != "" && users[ev.user].email in pairs
    requires CacheKey(ev.channel, ev.timestamp) in messages
    requires !MarkedComplete(messages[CacheKey(ev.channel, ev.timestamp)], myUserID)
    requires var cached := messages[CacheKey(ev.channel, ev.timestamp)];
      p.permalink(cached.channel, cached.timestamp).Ok?
    ensures var it := IterationSpec(myUserID, pairs, users, messages, ev, p, t);
      && |TicketRequests(it.calls)| == 1
      && GetConversationHistory(ev.channel, ev.timestamp) !in HandleSpec(myUserID, pairs, users, messages, ev, p, t).calls
  {
    FetchHit(messages, ev.channel, ev.timestamp, p);
    RouteStage(myUserID, pairs, users[ev.user], messages, ev, p, t);
    TicketRequestedExactlyWhenStagesPass(myUserID, pairs, users, messages, ev, p, t);
    IterationTickets(ev, HandleSpec(myUserID, pairs, users, messages, ev, p, t), p);
  }

  /**
   * The inputs on which the two iterations differ: the cache holds an
   * unmarked snapshot, the platform's record carries the bot's marker. As
   * written a second ticket is requested; with the entry dropped first, none.
   */
  lemma StaleSnapshotDiffers(
    myUserID: string, pairs: map<string, string>,
    users: map<string, User>, messages: map<string, Message>,
    ev: ReactionEvent, p: Platform, t: TicketCreator)
    requires ev.user in users && users[ev.user].email != "" && users[ev.user].email in pairs
    requires CacheKey(ev.channel, ev.timestamp) in messages
    requires !MarkedComplete(messages[CacheKey(ev.channel, ev.timestamp)], myUserID)
    requires var cached := messages[CacheKey(ev.channel, ev.timestamp)];
      p.permalink(cached.channel, cached.timestamp).Ok?
    requires p.history(ev.channel, ev.timestamp).Ok? && |p.history(ev.channel, ev.timestamp).value| > 0
    requires MarkedComplete(p.history(ev.channel, ev.timestamp).value[0], myUserID)
    ensures |TicketRequests(IterationSpec(myUserID, pairs, users, messages, ev, p, t).calls)| == 1
    ensures TicketRequests(FreshIterationSpec(myUserID, pairs, users, messages, ev, p, t).calls) == []
  {
    StaleSnapshotRequestsTicket(myUserID, pairs, users, messages, ev, p, t);
    FreshIterationHonoursMarker(myUserID, pairs, users, messages, ev, p, t);
  }

  /** A call that adds or removes a reaction. */
  predicate IsReactionCall(c: Call)
  {
    c.AddReaction? || c.RemoveReaction?
  }

  /** What the reporting relies on: only lookups and ticket requests were made, and the reaction is a known one. */
  ghost predicate Reportable(h: Handled)
  {
    && (forall c :: c in h.calls ==> IsLookupOrTicket(c))
    && (h.out.reaction == "" || h.out.reaction == ErrorReaction || h.out.reaction == CompletedReaction)
  }

  /** `handleEvent` touches no reaction, posts nothing, and answers with no reaction, the error mark or the marker. */
  lemma HandleReportable(
    myUserID: string, pairs: map<string, string>,
    users: map<string, User>, messages: map<string, Message>,
    ev: ReactionEvent, p: Platform, t: TicketCreator)
    ensures Reportable(HandleSpec(myUserID, pairs, users, messages, ev, p, t))
  {
    HandleOnlyLooksUpAndFiles(myUserID, pairs, users, messages, ev, p, t);
  }

  /**
   * The wait reaction brackets every iteration: it is added first and removed
   * last, whatever happens, and the error mark is removed right after it is
   * added.
   */
  lemma IterationBrackets(ev: ReactionEvent, h: Handled, p: Platform)
    ensures var it := IterationOf(ev, h, p);
      && |it.calls| >= 3
      && it.calls[0] == AddReaction(WaitReaction, ev.channel, ev.timestamp)
      && it.calls[1] == RemoveReaction(ErrorReaction, ev.channel, ev.timestamp)
      && it.calls[|it.calls| - 1] == RemoveReaction(WaitReaction, ev.channel, ev.timestamp)
  {
    var c := ReplySpec(h.messages, ev, h.out, p);
    var middle := h.calls + (StatusCalls(ev, h.out) + c.calls);
    Regroup(h.calls, StatusCalls(ev, h.out) + c.calls, [RemoveReaction(WaitReaction, ev.channel, ev.timestamp)]);
    Regroup(EnterCalls(ev), middle, [RemoveReaction(WaitReaction, ev.channel, ev.timestamp)]);
    Between(EnterCalls(ev), middle, RemoveReaction(WaitReaction, ev.channel, ev.timestamp));
  }

  /** Every reaction call between the brackets adds a status reaction other than the wait reaction. */
  lemma IterationInnerReactions(ev: ReactionEvent, h: Handled, p: Platform)
    requires Reportable(h)
    ensures var it := IterationOf(ev, h, p);
      && |it.calls| >= 3
      && forall c :: c in it.calls[2..|it.calls| - 1] && IsReactionCall(c) ==> c.AddReaction? && c.name != WaitReaction
  {
    var c := ReplySpec(h.messages, ev, h.out, p);
    var middle := h.calls + (StatusCalls(ev, h.out) + c.calls);
    Regroup(h.calls, StatusCalls(ev, h.out) + c.calls, [RemoveReaction(WaitReaction, ev.channel, ev.timestamp)]);
    Regroup(EnterCalls(ev), middle, [RemoveReaction(WaitReaction, ev.channel, ev.timestamp)]);
    Between(EnterCalls(ev), middle, RemoveReaction(WaitReaction, ev.channel, ev.timestamp));
    ReplyCalls(h.messages, ev, h.out, p);
    MiddleReactions(ev, h, c);
  }

  /** Between the brackets, only status reactions are added: `handleEvent` and the reply touch no reaction. */
  lemma MiddleReactions(ev: ReactionEvent, h: Handled, c: Comment)
    requires Reportable(h)
    requires forall x :: x in c.calls ==> x.GetConversationHistory? || x.PostMessage?
    ensures forall x :: x in h.calls + (StatusCalls(ev, h.out) + c.calls) && IsReactionCall(x) ==> x.AddReaction? && x.name != WaitReaction
  {
    forall x | x in h.calls + (StatusCalls(ev, h.out) + c.calls) && IsReactionCall(x)
      ensures x.AddReaction? && x.name != WaitReaction
    {
      assert !IsLookupOrTicket(x);
      if x !in c.calls {
        assert x in StatusCalls(ev, h.out);
      }
    }
  }

  /** Appending two logs one after the other appends their concatenation. */
  lemma Regroup<T>(a: seq<T>, b: seq<T>, c: seq<T>)
    ensures a + b + c == a + (b + c)
  {
  }

  /** Dropping a two-element head and a one-element tail leaves the middle. */
  lemma Between<T>(head: seq<T>, middle: seq<T>, last: T)
    requires |head| == 2
    ensures var s := head + middle + [last];
      s[2..|s| - 1] == middle && s[|s| - 1] == last && s[0] == head[0] && s[1] == head[1]
  {
    var s := head + middle + [last];
    assert s[2..|s| - 1] == middle;
  }

  /** The error mark is added exactly when handling failed or answered with the mark; a returned reaction is added. */
  lemma IterationStatus(ev: ReactionEvent, h: Handled, p: Platform)
    requires Reportable(h)
    ensures var it := IterationOf(ev, h, p);
      && it.out == h.out
      && (AddReaction(ErrorReaction, ev.channel, ev.timestamp) in it.calls <==> h.out.err.Some? || h.out.reaction == ErrorReaction)
      && (h.out.reaction != "" ==> AddReaction(h.out.reaction, ev.channel, ev.timestamp) in it.calls)
  {
    assert AddReaction(ErrorReaction, ev.channel, ev.timestamp) !in h.calls;
  }

  /**
   * A thread reply is posted only for a non-empty answer, and for a non-empty
   * answer whose message can be fetched it is posted to the thread target.
   */
  lemma IterationReply(ev: ReactionEvent, h: Handled, p: Platform)
    requires Reportable(h)
    ensures var it := IterationOf(ev, h, p);
      var f := FetchSpec(h.messages, ev.channel, ev.timestamp, p);
      && (h.out.message == "" ==> forall c :: c in it.calls ==> !c.PostMessage?)
      && (h.out.message != "" && f.result.Ok? ==>
            PostMessage(ev.channel, ThreadTarget(f.result.value, ev.timestamp), h.out.message) in it.calls)
  {
  }

  /** The reporting around `handleEvent` requests no ticket of its own. */
  lemma IterationTickets(ev: ReactionEvent, h: Handled, p: Platform)
    ensures TicketRequests(IterationOf(ev, h, p).calls) == TicketRequests(h.calls)
  {
    var c := ReplySpec(h.messages, ev, h.out, p);
    var rest := ReportCalls(ev, h.out, c);
    NoTicketRequests(EnterCalls(ev));
    NoTicketRequests(rest);
    TicketRequestsAppend(EnterCalls(ev), h.calls);
    TicketRequestsAppend(EnterCalls(ev) + h.calls, rest);
  }

  // ---------------------------------------------------------------------------
  // The handler object

  /**
   * `SlackHandler`: the bot's identity, the routing table, the receiving end of
   * the event queue and the two caches that `handleEvent` and `fetchMessage`
   * update in place.
   */
  class SlackHandler {
    const myUserID: string
    const userJiraPairs: map<string, string>
    const eventQueue: EventQueue
    var userCache: map<string, User>
    var messageCache: map<string, Message>
    /** Calls made to the chat platform and the tracker, oldest first. */
    ghost var effects: seq<Call>

    constructor (myUserID: string, userJiraPairs: map<string, string>, eventQueue: EventQueue)
      ensures this.myUserID == myUserID && this.userJiraPairs == userJiraPairs && this.eventQueue == eventQueue
      ensures userCache == map[] && messageCache == map[] && effects == []
    {
      this.myUserID := myUserID;
      this.userJiraPairs := userJiraPairs;
      this.eventQueue := eventQueue;
      userCache := map[];
      messageCache := map[];
      effects := [];
    }

    method FetchMessage(channel: string, timestamp: string, p: Platform) returns (r: Result<Message>)
      modifies this`messageCache, this`effects
      ensures var f := FetchSpec(old(messageCache), channel, timestamp, p);
        r == f.result && messageCache == f.cache && effects == old(effects) + f.calls
    {
      var cacheKey := channel + ":" + timestamp;
      if cacheKey in messageCache {
        return Ok(messageCache[cacheKey]);
      }
      effects := effects + [GetConversationHistory(channel, timestamp)];
      var messageArr := p.history(channel, timestamp);
      if messageArr.Err? {
        return Err(messageArr.error);
      }
      if |messageArr.value| == 0 {
        return Err(EmptyHistoryText);
      }
      var msg := messageArr.value[0];
      msg := msg.(channel := channel);
      messageCache := messageCache[cacheKey := msg];
      return Ok(msg);
    }

    /** Drops one message-cache entry (what the deferred deletion does when it fires). */
    method Evict(channel: string, timestamp: string)
      modifies this`messageCache
      ensures messageCache == old(messageCache) - {CacheKey(channel, timestamp)}
    {
      messageCache := messageCache - {CacheKey(channel, timestamp)};
    }

    method CommentOnThread(channel: string, timestamp: string, comment: string, p: Platform) returns (ok: bool)
      modifies this`messageCache, this`effects
      ensures var c := CommentSpec(old(messageCache), channel, timestamp, comment, p);
        ok == c.ok && messageCache == c.cache && effects == old(effects) + c.calls
    {
      var origMessage := FetchMessage(channel, timestamp, p);
      if origMessage.Err? {
        return false;
      }
      var targetTimestamp := timestamp;
      if origMessage.value.threadTimestamp != "" {
        targetTimestamp := origMessage.value.threadTimestamp;
      }
      effects := effects + [PostMessage(channel, targetTimestamp, comment)];
      var posted := p.postMessage(channel, targetTimestamp, comment);
      return posted.Ok?;
    }

    method HandleEvent(ev: ReactionEvent, p: Platform, t: TicketCreator) returns (out: Outcome)
      modifies this`userCache, this`messageCache, this`effects
      ensures var h := HandleSpec(myUserID, userJiraPairs, old(userCache), old(messageCache), ev, p, t);
        && out == h.out
        && userCache == h.users && messageCache == h.messages
        && effects == old(effects) + h.calls
    {
      ghost var lookup := LookupUser(userCache, ev.user, p);
      ghost var h := HandleSpec(myUserID, userJiraPairs, userCache, messageCache, ev, p, t);
      var user: User;
      if ev.user in userCache {
        user := userCache[ev.user];
      } else {
        effects := effects + [GetUserInfo(ev.user)];
        var info := p.userInfo(ev.user);
        if info.Err? {
          assert lookup.result.Err? && h.calls == [GetUserInfo(ev.user)];
          return Outcome("", "", Some(UserLookupFailed));
        }
        user := info.value;
        userCache := userCache[ev.user := user];
      }
      assert lookup.result == Ok(user) && lookup.cache == userCache && effects == old(effects) + lookup.calls;
      ghost var route := RouteSpec(myUserID, userJiraPairs, user, messageCache, ev, p, t);
      out := HandleForUser(user, ev, p, t);
      assert effects == old(effects) + lookup.calls + route.calls;
      Regroup(old(effects), lookup.calls, route.calls);
    }

    /** `handleEvent` from the email check on, for a resolved user. */
    method HandleForUser(user: User, ev: ReactionEvent, p: Platform, t: TicketCreator) returns (out: Outcome)
      modifies this`messageCache, this`effects
      ensures var r := RouteSpec(myUserID, userJiraPairs, user, old(messageCache), ev, p, t);
        && out == r.out
        && messageCache == r.messages
        && effects == old(effects) + r.calls
    {
      if user.email == "" {
        return Outcome(NoEmailText, "", Some(NoEmail));
      }

      if user.email !in userJiraPairs {
        return Outcome(UnroutedText(user.email), "", Some(Unrouted));
      }
      var jiraProject := userJiraPairs[user.email];

      var origMessage := FetchMessage(ev.channel, ev.timestamp, p);
      if origMessage.Err? {
        return Outcome("", "", Some(MessageFetchFailed));
      }
      ghost var fetched := effects;
      out := FileTicket(jiraProject, origMessage.value, p, t);
      assert effects == fetched + (effects[|fetched|..]);
    }

    /** `handleEvent` from the idempotency scan on, for a fetched message and a routed project. */
    method FileTicket(jiraProject: string, origMessage: Message, p: Platform, t: TicketCreator) returns (out: Outcome)
      modifies this`effects
      ensures var filed := FileSpec(myUserID, jiraProject, origMessage, p, t);
        && out == filed.out
        && effects == old(effects) + filed.calls
    {
      var done := ScanCompleted(origMessage.reactions, myUserID);
      if done {
        return Outcome(AlreadyCreatedText, ErrorReaction, None);
      }

      effects := effects + [GetPermalink(origMessage.channel, origMessage.timestamp)];
      var messagePermalink := p.permalink(origMessage.channel, origMessage.timestamp);
      if messagePermalink.Err? {
        return Outcome("", "", Some(PermalinkFailed));
      }

      var ticketTitle := Split(origMessage.text, '\n')[0];
      if |ticketTitle| > TitleLimit {
        ticketTitle := ticketTitle[..TitleLimit];
      }
      var ticketContent := BodyHeader + messagePermalink.value + "\n\n" + origMessage.text;
      effects := effects + [CreateTicket(jiraProject, ticketTitle, ticketContent)];
      var ticketID := t.createTicket(jiraProject, ticketTitle, ticketContent);
      if ticketID.Err? {
        return Outcome(CreateFailedText, "", Some(TicketCreationFailed));
      }
      return Outcome(CreatedText(ticketID.value), CompletedReaction, None);
    }

    /** The part of a `HandleEvents` iteration after `handleEvent` returned `out`. */
    method Report(ev: ReactionEvent, out: Outcome, p: Platform)
      modifies this`messageCache, this`effects
      ensures var reply := ReplySpec(old(messageCache), ev, out, p);
        && messageCache == reply.cache
        && effects == old(effects) + ReportCalls(ev, out, reply)
    {
      if out.err.Some? {
        effects := effects + [AddReaction(ErrorReaction, ev.channel, ev.timestamp)];
      }
      if out.reaction != "" {
        effects := effects + [AddReaction(out.reaction, ev.channel, ev.timestamp)];
      }
      assert effects == old(effects) + StatusCalls(ev, out);
      ghost var reported := effects;
      if out.message != "" {
        var commented := CommentOnThread(ev.channel, ev.timestamp, out.message, p);
      }
      effects := effects + [RemoveReaction(WaitReaction, ev.channel, ev.timestamp)];
    }

    /**
     * One iteration of `HandleEvents`: receive the oldest event and run the
     * status-signalling sequence around `handleEvent`. An empty queue would
     * block the receive, so nothing happens then.
     */
    method HandleNext(p: Platform, t: TicketCreator) returns (handled: Option<Outcome>)
      modifies this`userCache, this`messageCache, this`effects, eventQueue
      ensures old(eventQueue.items) == [] ==>
        && handled == None && eventQueue.items == []
        && userCache == old(userCache) && messageCache == old(messageCache) && effects == old(effects)
      ensures old(eventQueue.items) != [] ==>
        var it := IterationSpec(myUserID, userJiraPairs, old(userCache), old(messageCache), old(eventQueue.items)[0], p, t);
        && handled == Some(it.out)
        && eventQueue.items == old(eventQueue.items)[1..]
        && userCache == it.users && messageCache == it.messages
        && effects == old(effects) + it.calls
    {
      var next := eventQueue.Receive();
      if next.None? {
        return None;
      }
      var ev := next.value;
      ghost var h := HandleSpec(myUserID, userJiraPairs, userCache, messageCache, ev, p, t);
      effects := effects + [AddReaction(WaitReaction, ev.channel, ev.timestamp)];
      effects := effects + [RemoveReaction(ErrorReaction, ev.channel, ev.timestamp)];
      assert effects == old(effects) + EnterCalls(ev);
      var out := HandleEvent(ev, p, t);
      assert out == h.out && userCache == h.users && messageCache == h.messages;
      ghost var afterHandle := effects;
      assert afterHandle == old(effects) + EnterCalls(ev) + h.calls;
      Report(ev, out, p);
      ghost var report := ReportCalls(ev, h.out, ReplySpec(h.messages, ev, h.out, p));
      assert effects == afterHandle + report;
      Regroup(old(effects), EnterCalls(ev), h.calls);
      Regroup(old(effects), EnterCalls(ev) + h.calls, report);
      assert ev == old(eventQueue.items)[0];
      return Some(out);
    }

    /**
     * The corrected iteration: the cached record of the oldest event's message
     * is dropped before `HandleNext` runs, so the idempotency check reads the
     * platform's current record.
     */
    method HandleNextEvictFirst(p: Platform, t: TicketCreator) returns (handled: Option<Outcome>)
      modifies this`userCache, this`messageCache, this`effects, eventQueue
      ensures old(eventQueue.items) == [] ==>
        && handled == None && eventQueue.items == []
        && userCache == old(userCache) && messageCache == old(messageCache) && effects == old(effects)
      ensures old(eventQueue.items) != [] ==>
        var it := FreshIterationSpec(myUserID, userJiraPairs, old(userCache), old(messageCache), old(eventQueue.items)[0], p, t);
        && handled == Some(it.out)
        && eventQueue.items == old(eventQueue.items)[1..]
        && userCache == it.users && messageCache == it.messages
        && effects == old(effects) + it.calls
    {
      if eventQueue.items != [] {
        var ev := eventQueue.items[0];
        Evict(ev.channel, ev.timestamp);
      }
      handled := HandleNext(p, t);
    }
  }
}
