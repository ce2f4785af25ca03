# slack-to-jira, modelled in Dafny

slack-to-jira is a Slack bot that turns a reaction into a Jira ticket. A user
adds the configured emoji to a chat message. The bot then files a ticket in
the Jira project routed from that user's email, marks the message with a `+1`
reaction and answers in the message's thread. The bot has three parts, and
this project models each of them:

- **The ingress filter** (`listen.go`, module `Listen`). The webhook handler
  classifies an already-parsed Events API payload. It answers the
  URL-verification handshake and replies to mentions. Only reactions that
  are not the bot's own, use the configured emoji and sit on a message are
  put on the event queue. `SlackApi.EventQueue` is the queue: a FIFO
  sequence shared by the listener and the processor.
- **The event processor** (`handle.go`, module `Handle`). `handleEvent` is a
  staged pipeline:
  1. resolve the user through the user cache;
  2. require an email and route it to a project;
  3. fetch the message through the message cache;
  4. skip messages the bot already marked `+1`;
  5. get the permalink;
  6. compose the title and body, and request the ticket.

  One `HandleEvents` iteration wraps `handleEvent` in status reactions (the
  hourglass, the `x` mark, the returned reaction) and a thread reply.
- **The routing-table parser** (`main.go:150-157`, module `Routing`). It
  builds the email-to-project map from the `email=PROJECT,...` string, using
  Go's `strings.Split` semantics (module `GoStrings`).

The chat platform and the tracker are oracles. A `Platform` or a
`TicketCreator` value holds their answers for one event, and each class keeps
a ghost log of every call it makes, in order. The methods of
`Handle.SlackHandler` and `Listen.SlackListener` update their caches and the
queue in place. Each one is proved equal to a specification function, such as
`HandleSpec` or `FetchSpec`. The lemmas about those functions state what the
bot promises.

Where the code departs from the bot's intended behaviour, the model follows
the code:
- Nothing clears a message's cache entry when a new event for it starts.
  This is the subject of the finding below. `HandleNext` models the
  iteration as written; `HandleNextEvictFirst` models the corrected one.
- An already-marked message is not skipped silently. The event ends with the
  reply "Jira ticket already created for this comment" and the `x` mark.
- Replies are ordinary thread posts, not ephemeral messages.
- The routing table is never filled in `handle.go` (`handle.go:38`), so the
  processor takes it as a constructor argument.

## Model

| member | source | states |
|---|---|---|
| GoStrings.Split | main.go:150-151 | splitting always gives at least one piece, so the empty string gives one empty piece |
| GoStrings.SplitLength | main.go:150-151 | a string with n separators splits into n+1 pieces |
| GoStrings.SplitPiecesAreFree | main.go:150-151 | no piece contains the separator |
| GoStrings.JoinSplit | main.go:150-151 | joining the pieces with the separator gives back the original string |
| GoStrings.SplitJoin | main.go:150-151 | separator-free pieces survive join-then-split unchanged |
| GoStrings.FirstPiece | handle.go:162 | the first piece is a separator-free prefix that ends at the end of the string or at the first separator |
| Routing.ParseUserJiraPairs | main.go:150-157 | the loop builds the table of the comma-separated pieces, inserted in order |
| Routing.PairShape | main.go:151-156 | a piece is kept iff it has exactly one `=`; then it is key `=` value, and neither part is trimmed or contains `=` |
| Routing.TableKeys | main.go:150-157 | the table's keys are exactly the left parts of the kept pieces |
| Routing.LastPairWins | main.go:156 | a key maps to the value of the last kept piece with that key |
| Routing.SkippedPieceIgnored | main.go:151-155 | a piece with zero or several `=` changes nothing, wherever it stands |
| Routing.EmptyPairsEmptyTable | main.go:150-155 | an empty pair string gives an empty table |
| SlackApi.EventQueue.Send | listen.go:84 | the event is appended at the back and nothing else moves |
| SlackApi.EventQueue.Receive | handle.go:53 | the oldest event is removed and returned; an empty queue is left as it is |
| Listen.Classify | listen.go:51-90 | parse failure or a bad handshake fails; a handshake with a challenge echoes it; a mention is answered; a reaction is enqueued iff it is not the bot's own, uses the emoji and is on a message; everything else is dropped |
| Listen.ResponseTo | listen.go:53-68 | failure answers 500 with no body; a handshake answers 200 with exactly the challenge; all else answers an empty 200 |
| Listen.Enqueued | listen.go:74-84 | a payload enqueues something iff it is a reaction that is wanted, and then exactly that reaction; never more than one event |
| Listen.SelfReactionDropped | listen.go:75-78 | the bot's own reaction is never enqueued, and the request still gets an empty 200 |
| Listen.DeliveredAppend | listen.go:84 | `Delivered`, the fold of `Enqueued` over a run of payloads in arrival order, splits over concatenation: a later run's events come after an earlier run's. The lemma is about the fold; the queue itself is tied to it one request at a time by the ensures of `Handler` and `Send` |
| Listen.DeliveredAreWanted | listen.go:74-84 | every queued event is a wanted reaction that arrived in a payload |
| Listen.SlackListener.constructor | listen.go:23-35 | the listener starts with the given emoji, bot identity and queue, and no calls made |
| Listen.SlackListener.Handler | listen.go:42-91 | the response is that of the classification; the queue gains exactly the enqueued event; a mention posts "Yes, hello." |
| Handle.TicketTitle | handle.go:161-165 | the title has no line break, is at most 100 long and is a prefix of the text; it is the first line, cut at 100 |
| Handle.TicketBody | handle.go:166 | the body is the header, the permalink, a blank line and the whole text, in that order |
| Handle.ThreadTarget | handle.go:99-102 | a reply goes to the thread root when there is one, else to the message |
| Handle.ScanCompleted | handle.go:143-151 | the nested loop finds a `+1` reaction by the bot iff one exists |
| Handle.CacheKeyInjective | handle.go:179 | for channels without `:`, distinct (channel, timestamp) pairs get distinct keys |
| Handle.CacheKeyAmbiguous | handle.go:179 | a channel containing `:` can collide with another (channel, timestamp) pair |
| Handle.FetchHit | handle.go:180-182 | a cached message is returned as it is, with no call |
| Handle.FetchMiss | handle.go:184-200 | a miss makes one history call; a failed or empty answer leaves the cache and errs; a good one is stored under the key with its channel set |
| Handle.FetchAgainSameRecord | handle.go:178-200 | once fetched, a message is served from the cache whatever the platform now holds |
| Handle.TicketRequests | handle.go:167 | the ticket requests of a call log are exactly its ticket-creation calls: a call is among them iff it is in the log and is a ticket request; there are never more of them than calls |
| Handle.HandleObservesLookups | handle.go:116-141 | the user and message `handleEvent` reports are the ones its lookups returned; a message is fetched only for a routed email |
| Handle.MarkedMessageNotTicketed | handle.go:143-151 | if the fetched message carries the bot's `+1`, the event answers "already created" with `x` and no error, with no permalink or ticket request |
| Handle.HandleOnlyLooksUpAndFiles | handle.go:116-176 | `handleEvent` only looks things up and requests tickets; it touches no reaction and posts nothing |
| Handle.FileStage | handle.go:153-167 | after the fetch, only the permalink and the ticket are requested |
| Handle.RouteStage | handle.go:127-176 | once the user is resolved, no user is looked up, and the message cache only gains entries |
| Handle.FileTickets | handle.go:143-167 | the filing stage requests one ticket, with the composed title and body, iff the message is unmarked and its permalink is known |
| Handle.RouteTickets | handle.go:127-141 | a ticket is requested only for a non-empty, routed email and a fetched message, in the routed project |
| Handle.TicketRequestedExactlyWhenStagesPass | handle.go:117-167 | at most one ticket is requested per event; it is requested iff every stage passes, for project `pairs[email]` |
| Handle.FailureOutcomes | handle.go:119-172 | each error kind has an empty reaction and its own message, and each happens iff its stage fails: the user lookup fails; the email is empty; the email is not routed; the fetch of a routed user's message fails; the permalink of an unmarked fetched message fails; the one ticket request is refused |
| Handle.SuccessOutcome | handle.go:167-175 | the `+1` reaction is returned iff the one ticket request succeeded, with "I've created your jira ticket" and the browse URL; the creation error happens iff that request was refused; the only error-free answers are success and "already created" |
| Handle.FileOutcome | handle.go:143-175 | the same success property, stated for the filing stage |
| Handle.RouteOutcome | handle.go:127-175 | the same success property, for a resolved user |
| Handle.HandleCaches | handle.go:117-141 | a cached user costs no call; a failed lookup keeps the cache; a good one is stored; neither cache loses or changes an entry |
| Handle.CommentTarget | handle.go:94-112 | a reply is posted once, in the event's channel, to the thread target; if the message cannot be fetched nothing is posted and the result is an error |
| Handle.ReplyCalls | handle.go:80-85 | the reply only reads the history and posts the answer to the event's channel |
| Handle.HandleReportable | handle.go:116-176 | `handleEvent` makes only lookups and ticket requests, and answers with no reaction, `x` or `+1` |
| Handle.IterationBrackets | handle.go:54-89 | on every path the hourglass is added first and removed last, and `x` is removed right after the hourglass is added |
| Handle.IterationInnerReactions | handle.go:66-85 | every reaction call between the brackets adds a status reaction other than the hourglass |
| Handle.IterationStatus | handle.go:66-79 | `x` is added iff handling failed or answered `x`; a non-empty reaction is added |
| Handle.IterationReply | handle.go:80-85 | nothing is posted for an empty answer; a non-empty answer is posted to the thread target when the message can be fetched |
| Handle.IterationTickets | handle.go:54-89 | an iteration requests exactly the tickets of its `handleEvent` |
| Handle.StaleSnapshotRequestsTicket | handle.go:178-182 | as written, an unmarked cached snapshot gets a ticket without the platform's current record being read |
| Handle.StaleSnapshotDiffers | handle.go:138-151 | on a cached unmarked snapshot and a marked current record, the as-written iteration requests a ticket and the corrected one does not |
| Handle.FreshIterationHonoursMarker | handle.go:143-151 | with the cache entry dropped first, a message whose current record has the bot's `+1` gets no ticket request |
| Handle.SlackHandler.constructor | handle.go:33-48 | the processor starts with empty caches, the given routing table, bot identity and queue |
| Handle.SlackHandler.FetchMessage | handle.go:178-208 | the result, the new message cache and the calls are those of the cached fetch |
| Handle.SlackHandler.Evict | handle.go:202-206 | the message-cache entry under `channel:timestamp`, if there is one, is dropped and nothing else changes |
| Handle.SlackHandler.CommentOnThread | handle.go:94-112 | the result, the cache and the calls are those of the thread reply |
| Handle.SlackHandler.HandleEvent | handle.go:116-176 | the outcome, both caches and the calls are those of the staged pipeline |
| Handle.SlackHandler.HandleForUser | handle.go:127-176 | the same, from the email check on |
| Handle.SlackHandler.FileTicket | handle.go:143-176 | the same, from the idempotency scan on |
| Handle.SlackHandler.Report | handle.go:66-89 | the status reactions, the reply and the hourglass removal are made in order |
| Handle.SlackHandler.HandleNext | handle.go:50-92 | takes the oldest event and performs exactly the iteration as written, caches included; an empty queue changes nothing |
| Handle.SlackHandler.HandleNextEvictFirst | handle.go:50-92 | the corrected iteration: drops the cache entry of the oldest event's message, then runs `HandleNext` |

## Left out

- Parsing the request body, decoding JSON and comparing the verification token: a `Listen.ParsedEvent` value stands for their result.
- The Slack client calls are not implemented. They are oracle answers, held in `Platform` and recorded in the call log.
- The start-up identity check and `log.Fatal` are left out; the bot's user ID is a constructor argument.
- `jira.go` is not part of this model. `TicketCreator` is an abstract capability that gives an id or an error.
- The five-minute timer goroutine that evicts cache entries is time and concurrency. Only the eviction itself is modelled, as `Handle.SlackHandler.Evict`.
- The endless `for`/`select` loop, blocking on an empty queue and the channel's blocking send are concurrency. `HandleNext` models one iteration and does nothing on an empty queue.
- The HTTP plumbing is left out: `healthHandler`, `genericHandler`, header writes, `ListenAndServe`, argument parsing and logging setup.
- `main.go`'s older inline `handler` duplicates the `listen.go` filter, so it is not modelled.
- Error texts and logging: a failure is a `Handle.Failure` kind, and the wrapped Go error message and the log lines are not modelled.
- Handle.TicketTitle: cuts at 100 characters, where the code cuts at 100 bytes and may split a multi-byte UTF-8 character.
- Listen.SlackListener.Handler: the result of the mention reply's post is not modelled, because the code ignores it.

## Findings

| source | as written | input that shows it | evidently intended | confidence | as-written member | corrected member |
|---|---|---|---|---|---|---|
| handle.go:178-206 | `fetchMessage` serves a cached record for five minutes, and no event drops it, so the idempotency check at handle.go:143-151 reads the snapshot taken before the bot added its `+1` | two users add the emoji to one message within five minutes (or one user removes and re-adds it); the first event files a ticket and adds `+1`; the second is checked against the cached unmarked snapshot and files a second ticket | the check sees the message's current record: the cache entry is dropped when an event for the message starts, so a message the bot marked is never ticketed again | medium, not executed | Handle.StaleSnapshotDiffers | Handle.FreshIterationHonoursMarker |
