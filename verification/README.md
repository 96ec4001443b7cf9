# Customer service talk engine

A model of the live talk engine of the customer service back end: customers talk to
servicers, several sessions of either side follow a talk, and two single-threaded loops, one
for customers and one for servicers, pass every message, closing and change of ownership on.
The model has the source's shape. Sessions have a bounded outgoing queue and refuse what does
not fit; the two registries (`talk -> session`, `user -> session`) are nested maps whose
broadcasts delete from the maps they walk; the talk store is a collection of talks and one
message list per talk; the two controllers take from bounded channels in whatever order the
scheduler picks; posts between the loops are dropped when the queue is full; and the bus that
joins the sides is either called in process or runs over a message queue, with a tracker
handshake and a send cache.

The message domains, the talk model, the sessions, the registries, the controllers, the
receive routines, the message-queue object and the bus objects are classes and methods that
update their fields in place. Each method is proved to do what a function on plain values
says. A run of the whole engine is any sequence of steps of these functions: steps of the
connections' goroutines, steps of the two loops, and single callbacks of the bus in between,
with every store call allowed to fail. The theorems are about all runs.

How the files fit together:

- `Defs`, `Hubs`, `TalkStore`, `Sides`: the values. `Sessions`, `Registries`, `TalkModel`:
  the same, updated in place.
- `CustomerLogic`/`CustomerMD`, `ServicerLogic`/`ServicerMD`: the handlers of the two message
  domains, as functions and as methods. `LoopLogic`, `Channels`, `Controllers`,
  `MainRoutines`: the two select loops. `ReceiveLogic`, `Servers`: the receive routines.
- `Engine`: the step system. `Shapes`, `HubFacts`, `SideFacts`, `EngineFacts`, `Frames`: what
  every step keeps.
- `SendShapes`, `SendFacts`, `OfferShapes`, `OfferFacts`, `Streams`, `Evictions`, `Drains`:
  what every step sends to whom, and that a stream is just that. `QueueShapes`, `Queues`,
  `Connections`, `ConnectionRuns`, `Registrations`: what the channels, connections and
  registries do in every step. `CallShapes`, `BusCalls`, `Confirmations`: which calls go on
  the bus, that they are carried out, and what a confirmation is worth. `StoreShapes`,
  `StoreRuns`, `Announcements`, `TrueShapes`, `TrueStreams`, `CurrentCards`,
  `CustomerHistories`, `TalkLists`, `TrackRequests`: what is stored, listed and shown.
- `Lifetimes`, `Persistence`, `NoGapCustomers`, `Ownership`, `Views`, `Replay`, `Creations`,
  `NoGapServicers`, `Delivery`: the invariants over runs that need the most steps to argue
  (the `*Shapes` files hold them). `Runs`, `Misled`, `LeftOut`, `EdgeCases`: concrete runs
  that show where the theorems' conditions are needed.
- `Mq`, `Trackers`, `TrackerFacts`, `TrackerLives`, `TrackerStops`, `SendCache`,
  `SendCacheFacts`, `SendCourses`, `RabbitLogic`, `RabbitMQ`, `SharedBus`, `BusFacts`,
  `BusSettles`, `CacheLoss`, `MDIs`: the message-queue bus.

The theorems come in two kinds. Some say that nothing wrong happens: no gap, no repetition, no
message of somebody who is not the owner, one tracker per talk. The others say that what is asked
for is done: a stream is exactly what the steps offered, the bus has exactly the messages of the
requests handled, every call leads to its closures, every channel is served in order, a history
is the stored list, the wire is what was taken while the channel was open. Their reference is a
list of what the steps of the run asked for.

Things the theorems bring out that reading one body does not:

- A servicer's session that is sent its two lists and then every ownership notice knows the
  truth about every announced talk that was never closed, once the queued notices are replayed,
  whether it was connected before the talk was announced or after. The one exception: the
  creation notice, which is sent as a detach, was posted while the talk already had an owner,
  no ownership event on the talk came since, and it is the last word the session has. That is
  exact, and it does not arise when the notice is posted in time (`Creations`; a concrete run in
  `Misled`).
- A session of a talk's owner misses nothing the talk put on the bus once it has been told of
  the talk, and it has been told exactly unless the talk was closed at its install and neither
  listed nor taken over since: reopening a talk tells nobody (`NoGapServicers`; a concrete run in
  `LeftOut`).
- An ownership notice is a real change exactly when its store write did not fail (`Ownership`).
- A tracker routine's announcement is dropped exactly when ten others wait, and it can then
  never be stopped; tracking one of the special channels gets it a second routine
  (`TrackerFacts`).
- A routine that ends tells the main routine so exactly if fewer than ten others' events wait; if
  not, its talk stays in the map and is never tracked again (`TrackerLives`).
- Tracking is not counted: every customer's uninstall stops the tracking of its talk, also while
  other sessions of the talk are registered (`CustomerLogic`, `TrackerFacts`).
- The send cache is published again at every opening and goes to the talk's exchange, which is
  the one a direct send uses only if no other channel is named (`SendCacheFacts`). With shared
  channels every record names one, so whatever was cached is heard by nobody (`CacheLoss`).
- A reload request with an empty talk id is not refused: the reply has the first talk's card and
  the messages stored under the empty id (`EdgeCases`). So a reload a session asked for is not
  counted as the start of its following a talk (`NoGapServicers`).
- A confirmation that evicts a user's only session leaves the user's entry behind, empty, until
  a later broadcast (`EdgeCases`).

## Model

| member | source | states |
|---|---|---|
| Creations.SnapshotPlusReplayIsTruth | internal/impls/servicer_md.go:53-155 | In every run without a failed store call of the servicer loop, for every registered session that missed nothing and every announced, never closed talk: what the session was sent, replayed together with the ownership notices still queued, tells its user rightly whether the talk is its own and whether it waits for an owner, exactly unless the creation notice was posted while the talk had an owner whose take-over was queued before, no ownership event on it came since, and that notice is the last word on what the user gets wrong |
| Creations.EachHalfOfTheTruth | internal/impls/servicer_md.go:53-155 | The same for each half: its own is wrong exactly if the late notice met this user as the owner and is the last word on that, waiting exactly if it met any owner and is the last word on that |
| Creations.TimelyNoticeLeavesTheTruth | internal/impls/servicer_md.go:53-155 | If the creation notice is posted while nobody owns the talk, or with its take-over still to be queued behind it, every such session has the whole truth, connected before the announcement or after |
| Creations.LaterSessionsKnowTheTruth | internal/impls/servicer_md.go:165-184 | A session never sent the talk's creation notice, such as one installed after it ran, always has the truth |
| Creations.MarkedIffCreationLast | internal/impls/servicer_md.go:62-67 | A replayed view rests on the creation notice exactly when that notice is the last word of the stream that speaks of the talk |
| Misled.CreationNoticeCanMislead | internal/impls/servicer_md.go:53-73 | A concrete run with no failure and no loss in which the servicer owns a talk and its replayed view says that it waits: the take-over was posted before the creation notice, which was then late |
| Views.OwnerChanges | internal/impls/servicer_md.go:229-234 | Writing an owner and queueing its notice last keeps every view sound: the last queued notice agrees with the store, and talks without a queued notice are untouched |
| Views.TaskView | internal/impls/servicer_md.go:91-155 | Running the first queued closure, which tells every session its word, keeps each session's view sound |
| Views.SnapshotReads | internal/impls/servicer_md.go:172-177 | The two lists of an install make any view sound, and each list alone keeps a sound view sound, whatever notices are queued |
| Views.CreationSlipsIn | internal/impls/servicer_md.go:53-73 | A creation notice may enter the queue at any place without changing what the last real change in it says |
| Views.LastWordDecides | internal/impls/servicer_md.go:62-67 | Replaying a queue: a talk it does not mention keeps its view, otherwise the last word on the talk decides the view |
| Views.AttachedSnapshot | internal/impls/servicer_md.go:344-376 | The attached list names an open talk exactly when its stored owner is the session's user |
| Views.PendingSnapshot | internal/impls/servicer_md.go:378-398 | The pending list names an open talk exactly when it has no owner |
| NoGapCustomers.NoGapForCustomers | internal/impls/customer_md.go:104-139 | In every interleaving with no dropped post, a registered session that was sent a history has each message its talk put on the bus in that history, live in its stream, or still underway to it |
| NoGapCustomers.HistoryReadCovered | internal/impls/customer_md.go:114-120 | Reading the history after registering covers everything on the bus, as that is stored first |
| NoGapCustomers.TaskCovered | internal/impls/customer_md.go:41-49 | A message closure leaves no gap: it reaches every session of the talk that stays registered |
| CustomerHistories.HistoryIsThePersistedList | internal/impls/customer_md.go:114-139 | In every run a customer's stream has at most one history; it names the session's talk and is the beginning of the talk's stored list, in order and without repetition; and there is one once the routine has ended, unless its read failed or the session missed something |
| CustomerHistories.HistoryStartedIff | internal/impls/customer_md.go:69-114 | In every run the routine that sends a session its history was started exactly if the session's install was granted |
| StoreRuns.MessagesAreWhatWasStored | internal/model/model.go:91-95 | In every run a talk's message list is its first one followed by the messages received for it, in order |
| NoGapServicers.NoGapForServicers | internal/impls/servicer_md.go:109-130 | In every run without a failed store call of the servicer loop and without a dropped post: a registered session of the talk's owner that missed nothing, with no take-over of that user still queued, has been told that the talk is its own exactly unless the talk was not on its list when it was installed and it was neither listed nor taken over again since, so always if the talk was never closed; and once told, it has each message the talk put on the bus among the stored ones it was shown, live, or underway |
| LeftOut.ReopenedTalkCanLeaveAGap | internal/server/customer_server.go:191-197 | A concrete run with no failure and no loss in which a session installed while its user's talk is closed misses a message of it after the talk is reopened, as reopening tells nobody |
| NoGapServicers.SendsComplete | internal/impls/servicer_md.go:344-376 | Whatever a pick sends a session shows all messages on the bus of every talk it begins, in the list or in the reload that follows the notice |
| NoGapServicers.AttachTaskComplete | internal/impls/servicer_md.go:113-130 | The closure of a take-over sends the new owner's sessions all stored messages of the talk |
| NoGapServicers.OwnerBecomes | internal/impls/servicer_md.go:206-235 | A user comes to own a talk only by a take-over whose notice is then queued |
| TrueStreams.EverythingSentIsTrue | internal/impls/servicer_md.go:344-419 | In every run everything a servicer's session was ever sent is true of the stored talks: no list has a talk twice, each card is its talk's, messages shown with a talk are the beginning of its list (or, for a reload without a talk id, of the one stored under none), and a live message is in it |
| TrueStreams.RunPreserves | internal/model/model.go:196-212 | In every run talks keep their place in the collection, their titles, times and creators, and the beginning of their message lists |
| TrackerFacts.OneTrackerPerTalk | internal/impls/rabbitmq.go:361-398 | Over every course of the handshake, with any scheduling, dropped events and repeated requests: routines of a talk that have not ended and stopped events queued for it never exceed one together, and then the talk is in the tracker map |
| TrackerFacts.CancelIsTheCurrentOne | internal/impls/rabbitmq.go:383-388 | A stored cancel function belongs to the last routine started for that talk, no other routine of the talk is alive, and a cancelled routine is that one |
| TrackerFacts.OneTrackerIffNotSpecial | internal/impls/rabbitmq.go:281-292 | The bound holds in all courses exactly for the ids that are not the process's special channels |
| TrackerFacts.AnnouncedUnheardIff | internal/impls/rabbitmq.go:505-514 | A routine that announces itself goes unheard, its event dropped and no cancel function stored, exactly when it finds the started queue full |
| TrackerFacts.UnheardIsNeverStopped | internal/impls/rabbitmq.go:508-514 | In every course, a routine that finds the started queue full when it announces itself stays alive for ever, whatever stop requests follow |
| TrackerFacts.AnnouncementsCanGoUnheard | internal/impls/rabbitmq.go:361-388 | A concrete course in which ten routines announce themselves before the main routine takes an event, so that the eleventh can never be stopped |
| TrackerStops.CanBeStoppedIff | internal/impls/rabbitmq.go:375-388 | In every course a routine about to announce itself can still be cancelled by some later steps exactly if it finds room in the started queue |
| TrackerStops.StoppedEventCancelsNothing | internal/impls/rabbitmq.go:389-398 | In every course the cancel function called when a stopped event is taken belongs to a routine that has ended, so it cancels nothing |
| TrackerStops.OnlyAskedAreTracked | internal/impls/rabbitmq.go:145-168 | In every course a talk is in the map, waits to be started or has had a routine of its own only if it was asked for by name; likewise the requests to stop |
| TrackerFacts.TrackingIsNotCounted | internal/impls/rabbitmq.go:361-382 | However often a tracked talk is asked for again, a single request to stop it cancels its routine |
| TrackerLives.RetiredIsReportedIff | internal/impls/rabbitmq.go:599-605 | A routine that ends is gone, its talk is still in the map, and its stopped event is queued exactly when the queue has room |
| TrackerLives.StoppedTalkIsTrackedAgain | internal/impls/rabbitmq.go:389-398 | In every course, once the stopped event of an ending routine and those before it are taken, the talk is out of the map, and the next request for it starts a new routine, its only one |
| TrackerLives.LostStopIsForeverIff | internal/impls/rabbitmq.go:599-605 | In every course, the talk of an ending routine stays in the map in all later courses exactly when the stopped queue is full, and then no routine ever tracks it again |
| TrackerLives.StopsCanBeLost | internal/impls/rabbitmq.go:599-605 | A concrete course in which eleven routines live and end before the main routine takes a stopped event, so that the last one's talk can never be tracked again |
| TrackerLives.AskedStartsIff | internal/impls/rabbitmq.go:361-374 | A request that is taken starts a new routine exactly if its talk is not in the map, and changes nothing otherwise |
| TrackerLives.WholeLife | internal/impls/rabbitmq.go:496-606 | A request, the start, both events, the stop and the end in a row leave nothing but the talk's entry in the map and, if there is room, the stopped event |
| TrackerLives.LifeAndAfterlife | internal/impls/rabbitmq.go:361-398 | With the stopped event taken as well, everything is as it was but for the routine's number |
| SendCacheFacts.NothingIsLost | internal/impls/rabbitmq.go:308-360 | With successful publications and distinct items: the first occurrences in the publish log followed by the part of the cache not published yet equal the items taken from the send queue, in order, over every sequence of connects, breaks and sends |
| SendCacheFacts.HowOftenPublished | internal/impls/rabbitmq.go:341-350 | A directly sent item is published once, the i-th cached item as often as the channel was opened after it was cached |
| SendCacheFacts.FlushGoesElsewhereIff | internal/impls/rabbitmq.go:408-418 | The flush uses the exchange a direct send would use exactly when the datum names no channel other than its talk |
| SendCourses.StepsTellAll | internal/impls/rabbitmq.go:302-420 | After any steps the channel is open exactly if the last step that opened or broke it opened it; the cache holds what was taken while it was closed, in order; the wire has what was taken while it was open and, at each opening of a closed channel, everything taken while it was closed before, all but what failed |
| SendCourses.FlushPlaces | internal/impls/rabbitmq.go:341-350 | A flush puts each cached datum whose publication does not fail on the wire, after those before it, and nothing else |
| SendCourses.ChannelUpIff | internal/impls/rabbitmq.go:302-360 | After any picks of the main routine the channel is open exactly if a ticker that found the connection up opened it and neither a break nor a new connection came since |
| CacheLoss.FlushedReachesNobody | internal/impls/rabbitmq.go:341-350 | With shared channels a flushed record is published on an exchange nobody listens on and leaves every process as it was |
| CacheLoss.CachedCallGoesAstrayIff | internal/impls/customer_rabbitmq_mdi.go:63-99 | A call that was cached is published where it would have gone directly exactly if it is a message and channels are not shared |
| CacheLoss.HeardIffTakenWhileOpen | internal/impls/rabbitmq.go:399-418 | With shared channels and successful publications, a record gets through exactly when, of the steps before it was taken from the send queue, the last that opened or broke the channel opened it; what was cached is lost |
| RabbitLogic.MainRunSends | internal/impls/rabbitmq.go:302-420 | For all picks, failing publications included, the main routine's send side is a course of the send cache, a successful one if every publication succeeds, and what was taken followed by what is still queued is what was queued |
| RabbitLogic.MainRunTracks | internal/impls/rabbitmq.go:361-398 | For all picks the main routine's tracker map goes through the handshake's steps in the order of the picks, whatever is sent in between |
| RabbitLogic.AcceptedDataAreTaken | internal/impls/rabbitmq.go:131-143 | Whatever is given to send and picked in between, what the main routine has taken followed by what is queued are the data given while the queue had room, in order |
| Delivery.InOrderAtMostOnce | internal/controller/customer_controller.go:118-134 | After any run, whatever was dropped or failed: the live messages of a connection in any session's stream are a duplicate-free subsequence of what the connection persisted, in that order |
| Delivery.StepInOrder | internal/server/customer_server.go:214-250 | Every step keeps the order of a connection's messages along stream, closures, callbacks and message channel |
| Delivery.RunInOrder | internal/server/customer_server.go:227-238 | The numbers given out are exactly the places in what the connection persisted, everywhere in the engine |
| Streams.CustomerStream | internal/controller/customer.go:43-62 | In every run a customer's stream holds what the steps offered its session: nothing else but kick-outs, and unless something was missed just that, in that order |
| Streams.ServicerStream | internal/controller/servicer.go:31-50 | The same for a servicer's stream |
| Streams.CustomerMissesIff | internal/controller/customer.go:43-51 | In every run a customer's session has missed something exactly if some step offered it more responses than its queue had room for |
| Streams.ServicerMissesIff | internal/controller/servicer.go:31-39 | The same for a servicer's session |
| Evictions.CustomerEvictionIsToldIff | internal/controller/customer.go:53-62 | A customer evicted by a full queue finds the kick-out last in its stream exactly if the stream takes an item in between, and else finds nothing |
| Evictions.ServicerEvictionIsToldIff | internal/controller/servicer.go:41-50 | The same for a servicer, with the reason that goes with what could not be sent |
| CurrentCards.CardsAreCurrent | internal/impls/servicer_md.go:344-398 | Every card a servicer is sent shows the status its talk has then, except that a release notice shows it as the closure holds it |
| CurrentCards.ReleaseHoldsTheTalk | internal/impls/servicer_md.go:134-155 | A release's closure holds the talk as it is stored when the closure is posted |
| OfferFacts.CustomerStepOffers | internal/impls/customer_md.go:69-239 | Every step offers every customer session just the listed responses: the reason of a refused install, the history, the confirmation of its message, a live message or a closing of its talk |
| Confirmations.CustomersConfirmedInOrder | internal/impls/customer_md.go:160-196 | In every run the confirmations in a customer's stream are, unless something was missed, those of its messages put on the bus, one for one and in order; and each confirms one that is on the bus, with its number and time |
| Confirmations.ServicersConfirmedInOrder | internal/impls/servicer_md.go:299-338 | The same for a servicer |
| Drains.CustomersAreHandedTheirStreams | internal/server/customer_server.go:122-147 | In every reachable state n drains hand a live session the next n responses waiting in its stream, or all of them, and change nothing else; a session whose stream has not begun or has ended is handed nothing |
| Drains.ServicersAreHandedTheirStreams | internal/server/servicer_server.go:85-110 | The same for a servicer |
| Persistence.PersistedBeforeBroadcast | internal/server/customer_server.go:227-238 | In every reachable state each message in a controller queue, in a posted closure or live in a stream is in the store's list of its talk |
| Persistence.StepToBusStored | internal/server/servicer_server.go:171-188 | Every step keeps everything waiting or on the bus stored |
| BusCalls.OwnersMessageIsReleased | internal/impls/servicer_md.go:299-338 | The servicer loop puts the message at the head of its channel, if its talk is found, on the bus for both sides exactly if its author owns the talk, and otherwise puts nothing there |
| BusCalls.CustomersMessageIsReleased | internal/impls/customer_md.go:160-196 | The customer loop always puts the message at the head of its channel on the bus for both sides |
| Announcements.CreationIsAnnounced | internal/impls/customer_md.go:69-112 | In every run the install at the head of the channel tells the servicers of its talk exactly if a step of the run created that talk for this session, and neither the lookup nor the tracking fails |
| Announcements.AnnouncedAndClosedIff | internal/impls/servicer_md.go:53-73 | In every run the talks the view theorems speak of are, besides the first ones, just those a creation callback was made for, and the closed ones those a closing was called for |
| BusCalls.ClosingIsAnnounced | internal/impls/customer_md.go:198-212 | A closing request closes its talk and is announced to both sides, or does neither when the store fails |
| BusCalls.BusIsWhatWasCalled | internal/impls/allinone_mdi.go:45-73 | In every run the messages on the bus and the ownership events are exactly those of the calls the handled requests ask for |
| BusCalls.CallsLeadToCallbacks | internal/impls/allinone_mdi.go:45-73 | In every run each loop has made, or has still pending, the callbacks of its calls, one call after the other, all of them and no others |
| BusCalls.CallbacksLeadToClosures | internal/controller/servicer_controller.go:79-87 | In every run the closures run and those queued are those that got into the queue, in order; and unless a post was refused, those are all the callbacks were to post |
| BusCalls.EveryCallIsCarriedOut | internal/impls/allinone_mdi.go:45-73 | In every run without a refused post, each message and closing reaches both loops and each creation and take-over the servicers': its closure has been run, is queued, or its callback is pending |
| Registries.Registry.Walk | internal/impls/servicer_md.go:435-448 | The loop over one inner map that deletes while it walks: in any order, sessions with room get the response once and stay, full ones go, and no other session is touched |
| Registries.Registry.CastKey | internal/impls/servicer_md.go:469-486 | The broadcast to one key's sessions equals the pure filter and prunes the inner map when nothing is left |
| Registries.Registry.CastAll | internal/impls/servicer_md.go:454-467 | The broadcast to all sessions, in any order of both maps, equals the pure filter over the registry |
| Registries.Registry.ConfirmOrDrop | internal/impls/servicer_md.go:320-335 | The confirmation that removes its session when the queue is full, and may leave an empty inner map |
| Registries.Registry.Join | internal/server/customer_server.go:105-107 | A session that is made is known from then on and not registered yet |
| Registries.Registry.NewSession | internal/server/servicer_server.go:68-70 | Makes a session with a unique id, an empty queue and its key |
| Registries.Registry.Enter | internal/impls/servicer_md.go:179-183 | Files the session under its own key, making the inner map if there is none |
| Registries.Registry.Leave | internal/impls/servicer_md.go:186-197 | Removes the session and the inner map it empties |
| Hubs.CastUnderOneMore | internal/impls/servicer_md.go:454-467 | Walking one more key, in any order, extends the filter by exactly that key |
| HubFacts.CastKeyBroadcasts | internal/impls/customer_md.go:218-239 | A broadcast to one key gives each addressed session with room exactly the response, removes each full one, and leaves the rest as it was |
| HubFacts.CastAllBroadcasts | internal/impls/servicer_md.go:454-467 | The same for a broadcast to all, after which no inner map is empty |
| HubFacts.LeaveRegisters | internal/impls/customer_md.go:142-158 | Uninstalling takes out exactly the session that leaves |
| Ownership.OwnershipTraceIsFaithful | internal/impls/servicer_md.go:206-272 | After any run in which no owner write fails, each event sent is one real change of the stored owner, and folding the events over the first owners gives every present owner |
| Ownership.StepFaithfulIff | internal/impls/servicer_md.go:229-234 | A step keeps the trace faithful exactly when it sends no event or its write did not fail |
| Ownership.AttachAnnouncesChanges | internal/impls/servicer_md.go:206-235 | Without a write error a take-over is announced exactly when the talk is found and owned by somebody else, and otherwise changes and sends nothing |
| Ownership.DetachAnnouncesChanges | internal/impls/servicer_md.go:237-272 | A release is announced exactly when its asker owns the talk; refused, it changes nothing and at most tells the asker |
| Ownership.MessagesFollowOwnership | internal/impls/servicer_md.go:299-338 | In every step of every run, a talk message is appended only to sessions of the talk's stored owner, and a servicer's message goes on the bus only while its author is the owner |
| TalkStore.OpenedTalksArePartitioned | internal/model/model.go:119-129 | The open talks are the disjoint union of the pending list and the attached lists of the users above 0 |
| TalkLists.OpenedTalksAreCounted | internal/model/model.go:119-129 | The opened talks number as many as the pending list and the attached lists of their owners together |
| TalkLists.ListsListOnce | internal/model/model.go:171-194 | The pending list and every attached list have each of their talks once, in collection order |
| TalkLists.QueriesListOnce | internal/model/model.go:171-194 | Every query answers with each talk once, in collection order, or fails for an id that cannot be parsed |
| TalkLists.QueryAnswers | internal/model/model.go:141-169 | A query answers with exactly the talks whose fields have the values asked for, zero and empty asking for nothing |
| TalkLists.PagesCoverTheList | internal/model/model.go:97-112 | Reading a list page after page gives the list whatever the length of the pages; with no count, a page is the whole list whatever the offset |
| StoreRuns.CollectionIsWhatWasCreated | internal/model/model.go:66-77 | In every run the collection is the first one followed by the talks created, in order |
| StoreRuns.StatusIsTheLastGiven | internal/model/model.go:79-89 | In every run a talk's status is the last one that creating, opening or closing gave it |
| TalkStore.OnlyTheNamedTalkMoves | internal/model/model.go:79-89 | Create, open, close, take-over and release put the one talk they name on the list it should be on and leave every other talk on its lists |
| TalkStore.QueryByIdIsLookup | internal/model/model.go:155-166 | A query by id alone finds the talk or nothing, fails for an id that cannot be parsed, and for the empty id is a query for any talk |
| TalkStore.SelectMembers | internal/model/model.go:182-193 | A query returns exactly the stored talks that meet every condition |
| TalkStore.InAttached | internal/impls/model_ex.go:85-92 | Who is on a servicer's list; for id 0 every open talk is |
| TalkStore.InPending | internal/model/model.go:119-129 | The pending list is the open talks without an owner, the extra condition overriding the wildcard |
| TalkModel.Model.QueryTalkFilter | internal/model/model.go:141-169 | Builds the filter: zero and empty arguments leave their field open, a bad id fails |
| TalkModel.Model.QueryTalksEx | internal/model/model.go:171-194 | Adds the extra conditions over those built and returns what they select |
| TalkModel.Model.GetPendingTalkInfos | internal/model/model.go:119-129 | Returns the pending list |
| TalkModel.Model.GetTalkMessages | internal/model/model.go:97-112 | All messages in order, or the page asked for when a count is given |
| TalkModel.Model.AddTalkMessage | internal/model/model.go:91-95 | Appends to the talk's list, whether or not the talk exists |
| TalkModel.Model.UpdateTalkInfo | internal/model/model.go:196-212 | Changes the one document or reports an error |
| TalkModel.Model.CreateTalk | internal/model/model.go:66-77 | Inserts the document under its new id |
| TalkModel.Model.OpenTalk | internal/model/model.go:79-83 | Sets the status of the one talk |
| TalkModel.Model.CloseTalk | internal/model/model.go:85-89 | Sets the status of the one talk |
| TalkModel.Model.UpdateTalkServiceID | internal/model/model.go:131-135 | Sets the owner of the one talk |
| TalkModel.Model.TalkExists | internal/impls/model_ex.go:40-53 | An error for an id that cannot be parsed, otherwise whether the lookup finds anything |
| TalkModel.Model.GetTalkInfo | internal/impls/model_ex.go:60-75 | The first talk found, an error when there is none |
| TalkModel.Model.GetServicerTalkInfos | internal/impls/model_ex.go:85-92 | Returns the servicer's list, a wildcard for id 0 |
| TalkModel.Model.GetTalkServicerID | internal/impls/model_ex.go:94-103 | The owner of the talk found |
| Lifetimes.UndrainedSessionHasBoundedLife | internal/controller/customer.go:43-51 | A session that stays registered while nothing drains it has had no more sends than its queue had room for, whatever became of its uninstall |
| Lifetimes.FullSessionIsGoneForGood | internal/controller/servicer.go:31-39 | The send that finds the queue full removes the session from the registry for the rest of the run |
| Lifetimes.OneRegistryLifetime | internal/controller/customer_controller.go:149-164 | A session that was in the registry and is not any more never comes back, in whatever order installs and uninstalls are handled |
| Lifetimes.RegistriesWellFormed | internal/impls/customer_md.go:69-112 | In every reachable state sessions are filed under their own keys, no customer entry is empty and every registered talk is stored |
| Lifetimes.NoEmptyEntryAfterTellingAll | internal/impls/servicer_md.go:454-467 | No servicer entry is empty right after a broadcast to all servicers |
| Lifetimes.ConfirmationLeavesEmptyEntryIff | internal/impls/servicer_md.go:320-335 | A confirmation leaves an empty servicer entry exactly when it evicts the only session of its user or the entry was empty |
| Registrations.CustomerRegisteredIff | internal/impls/customer_md.go:69-239 | In every step a customer session is registered afterwards exactly if its install was granted, or it was registered and was neither uninstalled nor sent something its full queue could not take |
| Registrations.ServicerRegisteredIff | internal/impls/servicer_md.go:165-204 | The same for a servicer session, whose install is always granted and which goes when what a closure or confirmation sends it does not fit |
| Queues.CustomersAreServed | internal/controller/customer_controller.go:76-164 | In every run what was taken from each of the four channels of the customer controller, followed by what waits in it, is what got into it, in order |
| Queues.ServicersAreServed | internal/controller/servicer_controller.go:89-251 | The same for the servicer controller's install, uninstall and message channels |
| Queues.RequestsAreServed | internal/controller/servicer_controller.go:117-251 | And for its channels of requests about a talk |
| Connections.CustomerConnectionStep | internal/server/customer_server.go:105-156 | In every step a customer's connection begins, reads, holds, offers and ends just as its own requests and the room in the channels have it |
| Connections.ServicerConnectionStep | internal/server/servicer_server.go:68-208 | The same for a servicer's connection, whose receive loop outlasts every refusal but a message that cannot be stored |
| ConnectionRuns.CustomerRoutinesAre | internal/server/customer_server.go:105-156 | In every run the steps alone tell whether a customer's stream has begun or ended and whether its receive loop runs: from the install that is queued to the first refusal |
| ConnectionRuns.ServicerRoutinesAre | internal/server/servicer_server.go:68-121 | The same for a servicer, whose receive loop runs until a message cannot be stored |
| ConnectionRuns.CustomerJoinsOnce | internal/server/customer_server.go:96-107 | In every run a customer's connection has a session exactly if a step created or opened a talk for it, one step at most, and the session is of that talk |
| ConnectionRuns.ServicerJoinsOnce | internal/server/servicer_server.go:44-70 | The same for a servicer, whose session is of the user it came with |
| ConnectionRuns.CustomerOffersWhatItStores | internal/server/customer_server.go:220-239 | In every run the messages a connection stored are those it offered to the controller, one for one and in order, followed by the one it holds |
| ConnectionRuns.ServicerOffersWhatItStores | internal/server/servicer_server.go:164-188 | The same for a servicer |
| EdgeCases.EmptyEntryIsReached | internal/impls/servicer_md.go:320-335 | A concrete run after which a user's servicer entry is there and empty |
| EdgeCases.ReloadMatchesIff | internal/impls/servicer_md.go:400-419 | A reload shows the talk's own messages exactly when the request names a talk or the first talk's messages are those stored under the empty id, whose card it carries |
| EngineFacts.StepOk | internal/controller/servicer_controller.go:228-251 | Every step keeps the engine's shape, loses no talk and no stored message, takes nothing back from a stream and lets nobody back in |
| SideFacts.InstallOk | internal/server/customer_server.go:107-149 | Handling an install lets in at most the session at the head, and only the first time |
| SendFacts.LoopGives | internal/impls/servicer_md.go:340-486 | Each pick of the servicer loop offers every session just the listed responses: unless something was missed, exactly those, in that order |
| BusFacts.SharedBusRefinesAllInOne | internal/impls/rabbitmq.go:406-418 | After any run of two processes and a lossless broker: what a process published and still has queued are the calls its send queue accepted, in order, and per exchange its callbacks made and pending are those of the in-process bus for the calls published there, in that order |
| BusSettles.EverythingArrives | internal/impls/rabbitmq.go:406-418 | From every state of every run, publishing and delivering what is queued ends, and then every accepted call has been published and each process has made, per exchange, exactly the in-process bus's callbacks, in order |
| BusSettles.CallsAreThoseAccepted | internal/impls/rabbitmq.go:131-143 | The calls a process has made are those it may make that came while its send queue had room |
| BusFacts.EachKindOnOneExchange | internal/impls/servicer_rabbitmq_mdi.go:59-97 | Messages and closings travel on the common exchange, creations and ownership changes on the servicers' one, nothing on the customers' one |
| BusFacts.DispatchIsObserved | internal/impls/rabbitmq.go:565-595 | The callbacks a process makes for a delivery are the in-process bus's callbacks for its own side |
| BusFacts.DecodeEncode | internal/impls/customer_rabbitmq_mdi.go:63-99 | The call a record was sent for can be read back from it |
| MDIs.AllInOneMDI.SendMessage | internal/impls/allinone_mdi.go:45-48 | Both observers hear the message |
| MDIs.AllInOneMDI.SendTalkCloseMessage | internal/impls/allinone_mdi.go:54-57 | Both observers hear the closing |
| MDIs.AllInOneMDI.SendTalkCreateMessage | internal/impls/allinone_mdi.go:59-61 | Only the servicers' observer hears the creation |
| MDIs.AllInOneMDI.SendServicerAttachMessage | internal/impls/allinone_mdi.go:67-69 | Only the servicers' observer hears the take-over |
| MDIs.AllInOneMDI.SendServiceDetachMessage | internal/impls/allinone_mdi.go:71-73 | Only the servicers' observer hears the release |
| MDIs.CustomerRabbitMDI.SendMessage | internal/impls/customer_rabbitmq_mdi.go:63-77 | Queues the record of the call, on the common channel when channels are shared and else on the talk's own |
| MDIs.CustomerRabbitMDI.SendTalkCloseMessage | internal/impls/customer_rabbitmq_mdi.go:83-89 | Queues the record on the common channel |
| MDIs.CustomerRabbitMDI.SendTalkCreateMessage | internal/impls/customer_rabbitmq_mdi.go:91-99 | Queues the record on the servicers' channel |
| MDIs.CustomerRabbitMDI.AddTrackTalk | internal/impls/customer_rabbitmq_mdi.go:47-53 | Does nothing when channels are shared, otherwise asks the message-queue object |
| MDIs.CustomerRabbitMDI.RemoveTrackTalk | internal/impls/customer_rabbitmq_mdi.go:55-61 | Does nothing when channels are shared, otherwise asks the message-queue object |
| MDIs.ServicerRabbitMDI.AddTrackTalk | internal/impls/servicer_rabbitmq_mdi.go:43-49 | Does nothing when channels are shared, otherwise asks the message-queue object |
| MDIs.ServicerRabbitMDI.RemoveTrackTalk | internal/impls/servicer_rabbitmq_mdi.go:51-57 | Does nothing when channels are shared, otherwise asks the message-queue object |
| MDIs.ServicerRabbitMDI.SendMessage | internal/impls/servicer_rabbitmq_mdi.go:59-73 | Queues the record of the call, on the common channel when channels are shared and else on the talk's own |
| MDIs.ServicerRabbitMDI.SendServicerAttachMessage | internal/impls/servicer_rabbitmq_mdi.go:79-87 | Queues the record on the servicers' channel |
| MDIs.ServicerRabbitMDI.SendServiceDetachMessage | internal/impls/servicer_rabbitmq_mdi.go:89-97 | Queues the record on the servicers' channel |
| MDIs.Consumer.OnDelivery | internal/impls/rabbitmq.go:554-595 | Calls the observers that are set, as the kind of record asks |
| RabbitMQ.RabbitMQ.MainRoutine | internal/impls/rabbitmq.go:269-421 | The select loop, for any picks, does what the picks' functions say one after the other |
| RabbitMQ.RabbitMQ.PublishCache | internal/impls/rabbitmq.go:341-350 | The flush loop publishes the whole cache in order, leaving out failing places, and keeps the cache |
| RabbitMQ.RabbitMQ.OnSend | internal/impls/rabbitmq.go:399-418 | Caches while the channel is closed, publishes to the named channel's or the talk's exchange while it is open |
| RabbitMQ.RabbitMQ.OnTicker | internal/impls/rabbitmq.go:316-350 | Opens the channel if it is closed and the connection is up, and publishes the cache |
| RabbitMQ.RabbitMQ.CloseChannel | internal/impls/rabbitmq.go:351-360 | The channel is closed and nothing else changes |
| RabbitMQ.RabbitMQ.OnStartRequest | internal/impls/rabbitmq.go:361-374 | Starts a routine unless the talk is in the map |
| RabbitMQ.RabbitMQ.OnStopRequest | internal/impls/rabbitmq.go:375-382 | Cancels the routine whose cancel function the map holds, if any |
| RabbitMQ.RabbitMQ.OnStartedEvent | internal/impls/rabbitmq.go:383-388 | Stores the cancel function if the talk is in the map |
| RabbitMQ.RabbitMQ.OnStoppedEvent | internal/impls/rabbitmq.go:389-398 | Cancels and forgets the talk if it is in the map |
| RabbitMQ.RabbitMQ.AnnounceRoutine | internal/impls/rabbitmq.go:505-514 | Queues the started event if there is room and enters the loop |
| RabbitMQ.RabbitMQ.LeaveLoop | internal/impls/rabbitmq.go:525-530 | A routine leaves its loop only once it was cancelled |
| RabbitMQ.RabbitMQ.RetireRoutine | internal/impls/rabbitmq.go:599-605 | Queues the stopped event if there is room and ends |
| RabbitMQ.RabbitMQ.SendData | internal/impls/rabbitmq.go:131-143 | Queues the datum, or refuses none and what does not fit |
| RabbitMQ.RabbitMQ.AddTrackTalk | internal/impls/rabbitmq.go:145-157 | Queues the start request, or refuses an empty id and what does not fit |
| RabbitMQ.RabbitMQ.RemoveTrackTalk | internal/impls/rabbitmq.go:159-168 | Queues the stop request if it names a talk and fits |
| CustomerMD.Domain.InstallCustomer | internal/impls/customer_md.go:69-140 | Registers the session only if its talk is found and its tracking accepted, announces a created talk and starts the history routine; otherwise kicks the session out with the reason, having asked for tracking only if the talk was found |
| CustomerMD.Domain.SendHistory | internal/impls/customer_md.go:114-139 | Offers all stored messages of the talk to the session, or nothing if they cannot be read |
| CustomerMD.Domain.UninstallCustomer | internal/impls/customer_md.go:142-158 | Asks to stop tracking the talk in every case, and removes the session and the entry it empties |
| CustomerLogic.OthersLoseTrackingIff | internal/impls/customer_md.go:149-157 | The tracking that every uninstall stops is that of a talk still followed exactly when another session of it is registered |
| CustomerMD.Domain.CustomerMessageIncoming | internal/impls/customer_md.go:160-196 | Confirms to the sender or drops it, prunes its entry, and puts the message on the bus |
| CustomerMD.Domain.CustomerClose | internal/impls/customer_md.go:198-212 | Closes the talk and announces it only if the store did |
| CustomerMD.Domain.RunTask | internal/impls/customer_md.go:218-239 | A posted closure is one broadcast to the sessions of its talk |
| ServicerMD.Domain.InstallServicer | internal/impls/servicer_md.go:165-184 | Sends the attached list and asks to track each talk of it, then sends the pending list, then registers the session |
| ServicerMD.Domain.UninstallServicer | internal/impls/servicer_md.go:186-204 | Removes the session and the entry it empties, and only then asks to stop tracking each open talk of the user, if they can be read |
| TrackRequests.InstallTracksOwned | internal/impls/servicer_md.go:172-175 | An install asks to track each open talk of its user once, and no other |
| TrackRequests.LastUninstallUntracksOwned | internal/impls/servicer_md.go:194-203 | An uninstall asks to let each open talk of its user go, once, exactly if it takes out the user's last session and the talks can be read |
| ServicerMD.Domain.ServicerAttachTalk | internal/impls/servicer_md.go:206-235 | Takes the talk over from whoever owns it, and announces it even if the write failed |
| ServicerMD.Domain.ServicerDetachTalk | internal/impls/servicer_md.go:237-272 | Releases the talk for its owner only, and announces it even if the write failed |
| ServicerMD.Domain.ServicerReloadTalk | internal/impls/servicer_md.go:282-297 | Sends the talk with all its messages if both reads succeed |
| ServicerMD.Domain.ServiceMessage | internal/impls/servicer_md.go:299-338 | Confirms and releases a message of the talk's owner, and drops any other |
| ServicerMD.Domain.SendAttachedTalks | internal/impls/servicer_md.go:344-376 | Sends the user's open talks with their messages |
| ServicerMD.Domain.SendPendingTalks | internal/impls/servicer_md.go:378-398 | Sends the open talks nobody owns |
| ServicerMD.Domain.CollectMessages | internal/impls/servicer_md.go:354-362 | The loop that reads each talk's messages, leaving them out where the read fails |
| ServicerMD.Domain.GetTalkInfoWithMessages | internal/impls/servicer_md.go:400-419 | The talk with its messages, or nothing if a read fails |
| ServicerMD.Domain.RunTask | internal/impls/servicer_md.go:40-155 | What each kind of posted closure sends to whom |
| Sessions.Session.SendMessage | internal/controller/customer.go:43-51 | A non-blocking send: refused exactly when the queue is full |
| Sessions.Session.Remove | internal/controller/customer.go:53-62 | The kick-out goes through the same queue, so it is lost if that is still full |
| Controllers.CustomerController.NewCustomer | internal/controller/customer.go:9-17 | The new session is known to the controller, as a creator or not, and in no channel and no registry yet |
| Controllers.ServicerController.NewServicer | internal/controller/servicer.go:9-15 | The same for a servicer's session |
| Controllers.ServicerController.ServicerQueryAttachedTalks | internal/controller/servicer_controller.go:151-163 | A query is answered at once if the loop is ready to take it, and refused otherwise |
| Controllers.ServicerController.ServicerQueryPendingTalks | internal/controller/servicer_controller.go:165-177 | The same for the pending list |
| Controllers.ServicerController.Post | internal/controller/servicer_controller.go:79-87 | Queues the closure, or drops it silently when the queue is full |
| Controllers.ServicerController.OnCallback | internal/impls/servicer_md.go:134-155 | A bus callback posts its closure; a release reads the talk first and posts nothing when that fails |
| Controllers.ServicerController.ServicerMessageIncoming | internal/controller/servicer_controller.go:196-213 | Queues a message with a talk id, and refuses what does not fit |
| Controllers.ServicerController.ServicerReloadTalk | internal/controller/servicer_controller.go:179-194 | Queues the request; an empty talk id is not refused here |
| Controllers.ServicerController.ServicerAttachTalk | internal/controller/servicer_controller.go:117-132 | Queues the request, and refuses an empty talk id or what does not fit |
| Controllers.CustomerController.Post | internal/controller/customer_controller.go:66-74 | Queues the closure, or drops it silently when the queue is full |
| Controllers.CustomerController.OnPick | internal/controller/customer_controller.go:149-164 | One pick of the customer loop does what its function says to channels, registry, store and bus |
| MainRoutines.CustomerMainRoutine | internal/controller/customer_controller.go:141-165 | The customer loop, for any picks, does what the picks' functions say one after the other |
| MainRoutines.ServicerMainRoutine | internal/controller/servicer_controller.go:220-252 | The servicer loop likewise, a query being taken from the session that asks |
| LoopLogic.EngineServesServicers | internal/controller/servicer_controller.go:228-251 | Between two calls on the bus, the engine's servicer loop step is the controller's pick, and its pending callbacks are those of the call made |
| LoopLogic.EngineServesCustomers | internal/controller/customer_controller.go:149-164 | The same for the customer loop |
| Servers.Talk | internal/server/customer_server.go:63-114 | A customer's stream begins: its talk is created or opened, its session made and offered for install; nothing happens to the sessions if the talk cannot be had |
| Servers.HandleTalkStart | internal/server/customer_server.go:163-202 | Creates a titled talk or opens the one named, and refuses everything else |
| Servers.Service | internal/server/servicer_server.go:68-77 | A servicer's stream begins: its session is made and offered for install |
| Servers.CustomerReceiveRoutine | internal/server/customer_server.go:204-251 | Stores each message before offering it, skips what cannot be stored, and ends at the first refusal |
| Servers.ServicerReceiveRoutine | internal/server/servicer_server.go:126-209 | Stores each message before offering it, hands the other requests and the queries to the controller, goes on after a refusal, and ends when a message cannot be stored |
| ReceiveLogic.EngineReceivesFromCustomer | internal/server/customer_server.go:220-239 | The engine's two steps for a message, one right after the other, are the routine's turn |
| ReceiveLogic.EngineReceivesFromServicer | internal/server/servicer_server.go:164-188 | The same for a servicer's message |
| ReceiveLogic.EngineTakesRequests | internal/server/servicer_server.go:156-206 | The engine's steps for the three requests about a talk are the routine's turns |
| ReceiveLogic.EngineTakesQueries | internal/server/servicer_server.go:142-155 | The engine's steps for the two queries are the routine's turns with a loop ready between two calls on the bus |
| ReceiveLogic.EngineTakesCloses | internal/server/customer_server.go:240-246 | The engine's step for a customer's close request is the routine's turn |
| ReceiveLogic.EngineStartsCustomers | internal/server/customer_server.go:96-114 | Creating or opening a talk and queueing the install, one right after the other, are the beginning of a customer's stream |
| ReceiveLogic.EngineStartsServicers | internal/server/servicer_server.go:68-77 | The same for a servicer's stream |

## Left out

- Creations.SnapshotPlusReplayIsTruth: stated for one servicer process; with several, the check of the owner and its write can interleave.
- Delivery.InOrderAtMostOnce: stated for the in-process bus; over the message queue a datum cached while disconnected is published again at every later opening.
- Unique ids are taken to be distinct and not 0, and user ids not 0, as the generator and the accounts make them.
- Sessions.Session.Remove: `drained` stands for the stream taking an item between the failed send and the kick-out; what the stream does in general is a step of its own.
- Each handler runs in one step, except that the callbacks of the call it makes on the bus are steps of their own; other goroutines between two store reads of one handler are not modelled.
- After a kick-out the source's stream loop ends; in the model it may go on draining, which only adds runs.
- A controller main routine takes its picks as an argument; whether and when the scheduler makes them (liveness, fairness) and the shutdown of the routines are not modelled.
- A talk id that spells an object id in upper-case hexadecimal digits is treated as one the store does not have.
- The error text appended to the reason of a kick-out at install, and the sender id argument of the callbacks, which no observer uses.
- Message bodies, user names and the conversions between stored and wire records: a message carries a time, a text, its sender's connection and a number.
- The gRPC, websocket and HTTP streams: received requests are arbitrary inputs of the receive routines, and a failing stream is a departure.
- The database and the broker themselves: an in-memory store whose calls may fail, and a lossless fanout in order; dialling, tickers and reconnect times are picks.
- JSON of the wire record is the identity; a publication that fails is lost, as in the source.
- Tokens, login, registration, configuration, logging, id generation and wall-clock time.
- Per-talk tracking inside the engine: its bus is the in-process one, which ignores the requests the message domains make; that a request may be refused is an input of the install, so the engine's runs include it.
- The view and gap theorems say nothing of a talk's view after it was closed once, as closing and reopening carry no owner; what reopening leaves out is stated by the gap theorem.
