# Verified model of wsaw's concurrent and stateful core

wsaw runs Chrome scans, records each page's network traffic, and maintains stored evidence on a
schedule. This project models the parts of it whose correctness is hardest to see by reading, and
proves what they promise.

| module | what it models |
|---|---|
| `BrowserPool`, `BrowserPoolInvariants`, `BrowserPoolTheorems`, `BrowserPoolClosing` | the browser pool: slot tokens, idle stack, live counter and generations, under any interleaving of `Acquire`, `put`, `Switch`, `Close` and the probe fallback |
| `EventTap` | one listener's bounded event queue, its pump, drop accounting and wakeups |
| `Observation` | what a scan observes of the traffic, as a function of the events alone |
| `Traces` | traces of events and body reads, and what the reads can change of it |
| `BodyStorage` | who owes a body, the reasons for a missing one, the statistics, and the body budget |
| `Hops` | what one event or one read leaves of one hop |
| `Recorder` | the recorder and its shared hop records as mutable objects, proved to compute `Observation` in every storage mode |
| `BodyQueues` | the queues between the listener and the body workers, as this scan's storage fills them, and what they guarantee is read |
| `EventLists`, `Independence` | which bodies a list of events makes each storage mode ask for, when that leaves no doubt about which are found, and when two scans of the same events observe the same |
| `Timelines`, `Doubts` | scans built to order for a given list of events, and with them the exact condition under which storing bodies can show |
| `BodyRaces` | three pages on which it does, each with the same steps in the same order whatever is stored |
| `Ledgers`, `Obligations` | what a scan keeps of its bodies and charges to its budget over a whole history, and what its statistics count |
| `Sessions` | one page session driven by events, interaction and workers in any order, its statistics, and two sessions that store different things |
| `Settle` | waiting for network idle, in discrete time |
| `Maintenance` | due times of prune, sweep and vacuum across fires, reloads and restarts |
| `Offer` | the one-slot, latest-wins hand-off of reloaded schedules |
| `Images` | the browser-image retention plan and the prune |
| `Rules` | the in-place stable sort of consent rules, and staged merging |
| `Challenge` | the parser of bearer challenges (section 11.6.1 of RFC 9110, section 3 of RFC 6750) |
| `Consent`, `ConsentEvidence`, `ConsentUnset`, `ConsentHandler` | the consent outcome machine over an arbitrary page, what backs its outcomes, and when it has none |
| `Wrappers` | an option type and a count of what holds, shared by the others |

How it is built. Code that works under a mutex is a class whose methods are the locked sections,
each proved against a function of the guarded fields. Protocols that drop their lock between
decisions (`BrowserPool`, `EventTap`, `Offer`) are action systems over those functions: one action
is one locked section, one channel operation or one step outside the lock, and actions of
different threads interleave freely. A theorem that requires `Inv` holds in every reachable state,
by `BrowserPoolTheorems.Reachable` and `EventTap.Reachable`. Loops are loops, with invariants,
proved against recursive specifications whose properties are then proved as lemmas. In
`ConsentHandler` every method also returns, as ghost results, the questions it asked and the page's
answers, and its contract says that these are exactly what it added to the log.

`dafny verify dfyconfig.toml` checks the whole project.

## Where the code and its documentation disagree

- `internal/browser/pool.go:31-32` promises `ErrPoolClosed` to every call on a closed pool. A call that
  waits for a slot (`internal/browser/pool.go:126-131`) can still get that answer exactly as long as
  `Close` (`internal/browser/pool.go:406-409`) has not taken every slot, and from then on waits until
  its context ends: `BrowserPoolClosing.ToldUntilDrained`, with a run in which that happens,
  `BrowserPoolClosing.NeverTold`.
- `internal/consent/rules.go:256` and `internal/consent/rules.go:385-386` say that later sets take
  precedence at equal priority. The sort is stable and tries the first rule first, so the earlier
  set's rules come first; the claim holds exactly when no priority is shared:
  `Rules.LaterFirstExactly`, with the concrete case `Rules.EarlierRuleIsTriedFirst`.
- `internal/consent/handler.go:142-145` promises that the consent returned always says what happened.
  When the budget ends right after a rule whose steps, all optional, took no effect, and which has
  no fallback, what is returned names the rule, its detection and its mechanism, but its outcome is
  unset (`internal/consent/handler.go:740-742`, `internal/consent/handler.go:566-570`).
  `ConsentHandler.Handler.Apply` states this as an if-and-only-if over the log of every interaction,
  and that it takes a candidate that can miss behind none that always concludes;
  `ConsentHandler.EndUnset` builds, for any rules that meet this condition, a page on which it happens,
  and `ConsentHandler.UnsetHappens` is one such interaction.
- `internal/capture/bodies.go:192-195` takes a payload that is not recorded to be one that is not
  charged either. The first request past the request cap finds no cap recorded yet, so its payload
  is stored and charged, and then the request is not recorded. `Recorder.Recorder.RequestWillBeSent`
  states exactly when, and `Recorder.ChargeUnrecorded` is a recorder to which it happens.
- `internal/capture/session.go:774-776` says that what a comparison sees does not depend on how many
  bodies are stored. Two scans of the same events observe the same exactly when every mark that only
  one of them found says nothing that the other does not show: `Independence.SameHistoriesExactly`.
  Which events make sure of that is `Doubts.StorageShowsExactly`, and there are three causes for
  which they do not. An ID is used again before the body that loaded under it was read
  (`internal/capture/bodies.go:88-105` looks hops up by ID when the body is read). A response gives a
  hop that has loaded a fingerprinted type (`internal/capture/recorder.go:407-424`), which only a
  scan that stores every body has asked for. And a full queue - storing is what fills it - has no room
  for a fingerprinted body (`internal/capture/bodies.go:23`, `internal/capture/recorder.go:472-485`). If no
  ID is used again once its body was asked for, the last two are the only ones:
  `Doubts.StorageShowsWhen`. Each has a page on which it happens, to a scan that stores nothing and one
  that stores every body, with the same steps in the same order: `BodyRaces.ReuseIsObserved`,
  `BodyRaces.LateResponseIsObserved`, `BodyRaces.FullQueueIsObserved`.
- `internal/capture/bodies.go:310-312` promises every request of a storing scan a stored body or a reason,
  and `internal/capture/bodies.go:363-397` counts them. Each body and payload that is owed is counted
  once, but the counters also count what was given to hops that owe nothing - a data: URI whose
  payload is kept or is too large, and what arrives under an ID that has passed to such a hop - and
  exactly that: `Sessions.Session.DriveAndCount`, `Obligations.ExtraIsStray`, with the concrete case
  `Obligations.DataUriStrays`.
- `internal/app/maintenance.go:389-396` calls it safe to treat unreadable receipts as none.
  `Maintenance.SpacedExactly` says which starts and reloads keep an interval between runs, and
  `Maintenance.LostReceipt` is a history that does not.

## Model

| member | source | states |
|---|---|---|
| BrowserPool.Pool.constructor | internal/browser/pool.go:56-75 | a new pool holds nothing, and one launched without browser contexts serves one scan per browser |
| BrowserPool.Pool.Take | internal/browser/pool.go:146-161 | the newest idle browser leaves the stack, nothing when there is none, refused when closed; nothing else changes |
| BrowserPool.Pool.Stale | internal/browser/pool.go:346-351 | a browser is stale exactly when its generation is not the current one |
| BrowserPool.Pool.Register | internal/browser/pool.go:210-222 | a launched browser is counted unless the pool was closed meanwhile |
| BrowserPool.Pool.Put | internal/browser/pool.go:236-250 | a returned browser goes on top of the idle stack only when the pool is open, it is alive and of the current generation |
| BrowserPool.Pool.CountDown | internal/browser/pool.go:263-265 | one live browser less |
| BrowserPool.Pool.SwitchTo | internal/browser/pool.go:325-334 | new source, next generation, and the whole idle stack handed to the caller, every other option kept |
| BrowserPool.Pool.UseProcessIsolation | internal/browser/pool.go:353-359 | no browser contexts any more, and one scan per browser |
| BrowserPool.Pool.BeginClose | internal/browser/pool.go:395-404 | only the first Close closes |
| BrowserPool.Pool.TakeAll | internal/browser/pool.go:411-414 | the idle stack is handed over whole |
| BrowserPoolInvariants.CommitSlots | internal/browser/pool.go:126-142 | no step makes up or loses a slot token |
| BrowserPoolInvariants.CommitPlaced | internal/browser/pool.go:144-266 | every step keeps each launched browser in exactly one place: idle, in one thread's care, or closed |
| BrowserPoolInvariants.CommitCounted | internal/browser/pool.go:198-266 | every step keeps `live` equal to the number of registered browsers not yet subtracted |
| BrowserPoolInvariants.CommitCapacity | internal/browser/pool.go:126-251 | every step keeps idle browsers plus slot holders that own or launch one within the size |
| BrowserPoolInvariants.CommitClosing | internal/browser/pool.go:394-429 | every step keeps: one closer at most, and once it has drained, nothing is idle and no slot is out |
| BrowserPoolInvariants.CommitGenerations | internal/browser/pool.go:198-251 | every step keeps: a browser's source is the one its generation stands for, and idle browsers are current |
| BrowserPoolInvariants.CommitIsolated | internal/browser/pool.go:185-196 | every step keeps: a browser without browser contexts has served at most one scan |
| BrowserPoolInvariants.OutcomeOk | internal/browser/pool.go:126-266 | every action of every call meets what the seven invariants ask of one step |
| BrowserPoolInvariants.StepInv | internal/browser/pool.go:126-429 | every action of any thread keeps the whole invariant |
| BrowserPoolInvariants.BeginInv | internal/browser/pool.go:126-429 | starting any call at any moment keeps it |
| BrowserPoolTheorems.Reachable | internal/browser/pool.go:56-429 | the invariant holds after every run of every pool |
| BrowserPoolTheorems.CapacityHolds | internal/browser/pool.go:126-183 | capacity and token conservation in every reachable state; returning a slot never blocks |
| BrowserPoolTheorems.LiveBound | internal/browser/pool.go:198-266 | `live` exceeds the size only by browsers an in-progress Switch is closing |
| BrowserPoolTheorems.WhereCounted | internal/browser/pool.go:227-266 | every counted browser is idle, with a slot holder, or being closed by Switch or Close |
| BrowserPoolTheorems.NothingLeaks | internal/browser/pool.go:391-429 | when the closing Close has returned and no Switch is still closing, `live` is 0 and every browser ever launched is closed, one that raced Close included |
| BrowserPoolTheorems.LeaseIsExclusive | internal/browser/pool.go:77-142 | a leased browser is open, not idle, and in nobody else's hands |
| BrowserPoolClosing.SlotLeft | internal/browser/pool.go:406-409 | Close has slots left to take exactly when one is free or some call holds one |
| BrowserPoolClosing.SlotComesBack | internal/browser/pool.go:126-266 | on a closed pool whoever holds a slot can go on until it is free again, while another call waits |
| BrowserPoolClosing.ToldUntilDrained | internal/browser/pool.go:126-131 | on a closed pool, a call that waits for a slot can still be told so if and only if Close has not taken every slot |
| BrowserPoolClosing.NeverTold | internal/browser/pool.go:406-409 | a run after which a waiting call can never be told |
| BrowserPoolTheorems.CloseWaitsForHolders | internal/browser/pool.go:406-409 | Close waits only while some call still holds a slot |
| BrowserPoolTheorems.NeverStuck | internal/browser/pool.go:126-429 | every call can take its next step unless it has ended or waits for a token |
| BrowserPoolTheorems.AcquireAfterSwitch | internal/browser/pool.go:315-351 | an Acquire that begins after a Switch's critical section never returns a browser from before it, and what it returns was launched from its generation's source |
| BrowserPoolTheorems.IdleIsCurrent | internal/browser/pool.go:243-249 | an idle browser carries the current generation and source, and is open |
| BrowserPoolTheorems.OneScanPerIsolatedBrowser | internal/browser/pool.go:185-196 | a browser launched without browser contexts has at most one scan in its lifetime, over every run |
| BrowserPoolTheorems.FallbackIsForGood | internal/browser/pool.go:289-313 | once isolation is in force it stays so, across any Switch |
| EventTap.EventSink.Push | internal/browser/events.go:165-174 | the message is appended, or counted as dropped when the queue is full |
| EventTap.EventSink.TakeAll | internal/browser/events.go:184-187 | the pump takes the whole queue and the drop count at once |
| EventTap.Tap.Listen | internal/browser/events.go:86-99 | a tab gets its own new queue, a second listener is refused |
| EventTap.Tap.Forget | internal/browser/events.go:101-108 | the end of a listener removes its own queue and never a later one's |
| EventTap.Tap.Publish | internal/browser/events.go:115-123 | a message reaches the queue of its own tab and no other |
| EventTap.StoryIsExact | internal/browser/events.go:165-213 | the story of the pushes has the kept messages in order and, at their exact positions, one gap of exact length per maximal run of lost ones |
| EventTap.StepInv | internal/browser/events.go:165-231 | every step of pusher and pump keeps told, pending and queued equal to the story of everything pushed |
| EventTap.DeliveryIsFaithful | internal/browser/events.go:182-231 | in every run the listener has been called with a prefix of that story; only messages that decode as unknown are skipped |
| EventTap.QuietMeansAllTold | internal/browser/events.go:203-211 | a pump that waits with nothing under way has told the whole story |
| EventTap.NoLostWakeup | internal/browser/events.go:176-179 | a waiting pump with events or drops pending has a token, or a pusher is about to send one |
| EventTap.MemoryIsBounded | internal/browser/events.go:168-172 | the queue never exceeds its bound, queue and batch never twice that |
| EventTap.CallsOnlyGrow | internal/browser/events.go:189-201 | no step takes back a call, and none follows once the pump has noticed the end of the context |
| Observation.EventAgrees | internal/capture/recorder.go:299-572 | after every event the counters equal a recount: in flight, bytes, and the cap on records |
| Observation.OpenIsCounted | internal/capture/recorder.go:622-633 | a request that ends is one the recount counts, so the clamp at zero never applies |
| Observation.EndsOnce | internal/capture/recorder.go:309-318 | how a hop ended, what it transferred, the first cap and the phase never change again, through redirects, reused IDs and late completions |
| Observation.PhasesStayInOrder | internal/capture/recorder.go:193-198 | requests seen before the interaction come before those seen after it |
| Traces.RunAgrees | internal/capture/recorder.go:299-572 | the recount and the phase order hold after every sequence of events and reads |
| Traces.TraceExtends | internal/capture/recorder.go:299-572 | from any point of a trace on, no hop is lost or reordered, none that has ended ends again or otherwise, and the first cap and the end of the first phase stay |
| Traces.Separation | internal/capture/session.go:744-797 | a trace of events and reads leads to what its events alone lead to, with the digests of the hops read filled in |
| Traces.DigestedAre | internal/capture/session.go:774-797 | in a well-timed trace the digests come from exactly the fingerprinted hops that were read, all of them loaded |
| Traces.SameObservation | internal/capture/session.go:774-797 | two traces of the same events that read every fingerprinted body that loaded, in time and with the same outcomes, lead to the same scan, whatever else each of them reads and in whatever order |
| Traces.SameExactly | internal/capture/session.go:774-797 | two traces of the same events whose reads agree lead to the same scan if and only if every mark that only one of them has is empty or what the events alone say; nothing is asked of time, order, IDs or completeness |
| BodyStorage.TextTellsNoBody | internal/model/bodies.go:131-149 | the prefix test of the statistics picks out exactly the reasons that say there was no body |
| BodyStorage.BodyOutcome | internal/capture/session.go:744-823 | the digest does not depend on storing; a reference is one the store gave for a body that fits and was granted; a body to be stored has a reference or a reason |
| BodyStorage.PayloadOutcome | internal/capture/bodies.go:222-271 | a payload's reference is one the store gave for one that fits and was granted, and without it there is a reason |
| BodyStorage.Finish | internal/capture/bodies.go:310-361 | every owed body and payload gets a reference or a reason, none already there is overwritten, and a body is said not to exist exactly when the exchange could carry none |
| BodyStorage.StatsPartition | internal/capture/bodies.go:363-397 | after finishing, the counters and the exchanges without a body count what is owed exactly once, and beyond it exactly what the records hold unowed |
| BodyStorage.GrantedIsLongestPrefix | internal/capture/bodies.go:107-129 | the reservations granted are a prefix that fits and would not with one more |
| BodyStorage.NothingLongerFits | internal/capture/bodies.go:107-129 | no longer prefix fits either |
| Hops.StalledDoNotWait | internal/capture/recorder.go:646-684 | nothing is active exactly when every unfinished request that is no beacon is stallAfter old |
| Recorder.HopLog.Get | internal/capture/recorder.go:411-414 | the live hop of an ID |
| Recorder.HopLog.Put | internal/capture/recorder.go:309-313 | a write through the live record is seen through the list of records, and through no other record |
| Recorder.HopLog.AddLive | internal/capture/recorder.go:380-381 | a new record is appended and becomes the live one of its ID |
| Recorder.ExtractDataUri | internal/capture/recorder.go:254-295 | the shown URL, the digest and the stored reference of a data: URI, the first two whatever is stored |
| Recorder.PlanBody | internal/capture/bodies.go:69-82 | a fingerprinted type is read and digested, any other body only read, and only when all are stored |
| Recorder.NewHop | internal/capture/recorder.go:335-378 | the hop of a request that begins |
| Recorder.Recorder.RequestWillBeSent | internal/capture/recorder.go:299-405 | observes as specified in every storage mode; states the new hop, the budget's charge and the payload queue; charges for a request it does not record if and only if the record is full and its payload is wanted, in the event and fits |
| Recorder.ChargeUnrecorded | internal/capture/bodies.go:185-196 | a recorder whose second request is charged and not recorded, and whose third is neither |
| Recorder.Recorder.ResponseReceived | internal/capture/recorder.go:407-424 | observes as specified; the type is replanned and the status set on the live hop |
| Recorder.Recorder.LoadingFinished | internal/capture/recorder.go:447-485 | observes as specified; a wanted body is queued, or says that the queue was full |
| Recorder.Recorder.LoadingFailed | internal/capture/recorder.go:487-526 | observes as specified; the live hop ends as failed |
| Recorder.Recorder.WebSocketCreated | internal/capture/recorder.go:540-572 | observes as specified; the request is recorded as finished and never live |
| Recorder.Recorder.SetPhase | internal/capture/recorder.go:193-198 | only the phase of later requests changes |
| Recorder.Recorder.ReserveBodyBytes | internal/capture/bodies.go:107-129 | the recorder's counters always equal those of the sequence of requests so far, and the answer is whether this one is granted |
| Recorder.Recorder.StorePayload | internal/capture/bodies.go:222-271 | the payload's reference or reason, and what it asked of the budget |
| Recorder.Recorder.InlinePayload | internal/capture/bodies.go:185-220 | whether a payload is wanted, stored at once or still to be fetched |
| Recorder.Recorder.BodyPlan | internal/capture/bodies.go:86-105 | whether a body is fingerprinted and whether it is stored |
| Recorder.Recorder.StoreBody | internal/capture/session.go:799-823 | the body's reference or reason, and what it asked of the budget |
| Recorder.Recorder.SetBody | internal/capture/bodies.go:140-168 | what a read produced is attached to the hop its ID names by then and to no other; only its digest is observed |
| Recorder.Recorder.RequestUrl | internal/capture/recorder.go:589-599 | the URL of the hop an ID names by then |
| Recorder.Recorder.SetBodyIdentity | internal/capture/recorder.go:601-620 | the identity is attached to the hop its ID names by then and to no other, and nothing else changes |
| Recorder.Recorder.SetPayload | internal/capture/bodies.go:292-308 | a fetched payload is attached, and observed by nothing |
| Recorder.Recorder.ReadBodyOf | internal/capture/session.go:750-784 | what reading a body produced, stored if that was planned and there is room, with what it asked of the budget; nothing observed changes |
| Recorder.Recorder.ReadPayloadOf | internal/capture/session.go:825-843 | the payload or the reason Chrome's answer leads to, with what it asked of the budget; nothing is attached yet |
| Recorder.Recorder.FinishBodies | internal/capture/bodies.go:310-337 | every hop is finished as specified, and nothing observed changes |
| Recorder.Recorder.BodyStats | internal/capture/bodies.go:363-397 | the statistics of all hops, none in a scan that stores nothing |
| Recorder.Recorder.ActiveInflight | internal/capture/recorder.go:666-684 | the number of active requests |
| BodyQueues.OrderlyIsComplete | internal/capture/session.go:681-797 | a session that has read every body it asked for, in any storage mode, has found digest and identity of every fingerprinted body that loaded, each in time and as planned |
| BodyQueues.StorageIsNotObserved | internal/capture/session.go:774-797 | two such histories of the same events under any two storage configurations are observed the same, whatever else each of them reads and in whatever order |
| Independence.SameHistoriesExactly | internal/capture/session.go:774-797 | the same for two whole scans under any two storage configurations, whatever their queues and the order of their steps |
| Independence.FindsExactly | internal/capture/session.go:681-797 | when the events leave no doubt, every scan that has read all it asked for finds exactly the bodies that are asked for in every mode |
| Doubts.HeldTooLong | internal/capture/bodies.go:88-105 | for any events in which the ID of a fingerprinted hop that loaded passes on, a scan in any mode that reads everything and does not find that hop's digest |
| Doubts.TakenForAnother | internal/capture/bodies.go:86-105 | for any events in which a body that waits can be taken for that of another fingerprinted hop, a scan that stores every body and finds a digest for that hop |
| Doubts.LostInQueue | internal/capture/recorder.go:472-485 | for any events in which a fingerprinted hop loads after as many bodies as the queue has room for, a scan that stores every body and never finds that hop's digest |
| Doubts.StorageShowsExactly | internal/capture/session.go:774-797 | scans that store every body and scans of the same events with any given storage always observe the same if and only if the events leave no doubt: fingerprinted hops that loaded keep their IDs, no waiting body can be taken for another fingerprinted hop's, and none of theirs finds the queue full; for scans whose queue is never too full, whatever their IDs, and for all scans in which no ID is used again once its body was asked for |
| Doubts.OnlyLateOrLost | internal/capture/recorder.go:407-485 | if no ID is used again once its body was asked for, the only doubts are a response that makes a loaded hop a fingerprinted one while its body can wait, and a fingerprinted hop that loads after as many bodies as the queue has room for |
| Doubts.StorageShowsWhen | internal/capture/session.go:774-797 | so for such events storing every body can show if and only if one of these two happens |
| BodyRaces.LateResponseIsObserved | internal/capture/bodies.go:69-82 | one history in which a response changes the type of a hop that has loaded: a scan that stores nothing and one that stores every body observe it differently |
| BodyRaces.ReuseIsObserved | internal/capture/bodies.go:86-105 | the same for a history in which an ID is used again, and the scan that stores every body has another one to read first |
| BodyRaces.FullQueueIsObserved | internal/capture/bodies.go:20-23 | the same for a history in which the images that only one of them reads fill the queue before a script loads |
| Ledgers.LedgerShows | internal/capture/recorder.go:299-572 | after every history in any storage mode, the hops with all that is kept of them show exactly what was observed, and are in step with the queues |
| Obligations.HistoryHas | internal/capture/bodies.go:140-308 | after every history of a storing scan, a hop has a body or a payload, or a reason, if and only if some step of the history gave it one |
| Obligations.ExtraIsStray | internal/capture/bodies.go:363-397 | what the counters count without its being owed is exactly as many as were given a body or payload and owe none in the end |
| Obligations.NothingStrays | internal/capture/bodies.go:363-397 | there are none when no ID begins another request while something is still to come under it and no recorded request carries its body itself |
| Obligations.DataUriStrays | internal/capture/recorder.go:254-295 | one history with one: a data: URI whose payload is stored |
| Sessions.Session.MarkInteracted | internal/capture/session.go:182-197 | only the first call says when the interaction was; the phase is over after any |
| Sessions.Session.Listen | internal/capture/session.go:212-228 | every event moves the observed scan exactly as specified, in every storage mode, and fills the two queues and what is kept of each hop as this storage asks |
| Sessions.Session.TakeBody | internal/capture/session.go:685-745 | a worker takes the next queued body and plans what to do with it |
| Sessions.Session.TakePayload | internal/capture/session.go:685-709 | a worker takes the next queued payload |
| Sessions.Session.Conclude | internal/capture/session.go:750-784 | the answer for a body in hand: it is stored if that was planned, and nothing is observed yet |
| Sessions.Session.Attach | internal/capture/session.go:786 | what was read goes to the hop its ID names by then, and its digest is observed there |
| Sessions.Session.LookUp | internal/capture/session.go:791-793 | the identity of a fingerprinted body that could be read, by the URL of the hop its ID names by then |
| Sessions.Session.SetName | internal/capture/session.go:794 | that identity goes to the hop its ID names by then, and the worker is done with the body |
| Sessions.Session.ConcludeFetch | internal/capture/session.go:825-843 | the answer for a payload in hand: it is stored and charged, and nothing is attached or observed yet |
| Sessions.Session.Deliver | internal/capture/session.go:833-843 | it goes to the hop its ID names by then, and the worker is done with it; nothing observed changes |
| Sessions.Session.Drive | internal/capture/session.go:212-241 | over any inputs in any order, a session observes exactly what the trace of its history leads to, and is left with exactly the queues, the kept bodies and the charges of its history |
| Sessions.Session.DriveAndCount | internal/capture/session.go:1000-1003 | a whole session and its statistics: counters and exchanges without a body add up to what is owed, once each, plus what was given to hops that owe none, and that is nothing if no ID is reused too early and no request carries its body |
| Sessions.ScanTwice | internal/capture/session.go:774-797 | two sessions with any two storage configurations that see the same events and agree on each body end with the same records, endings, phases, digests and identities if and only if no mark that one of them lacks tells anything; in particular when the events leave no doubt, or when both are orderly, and have read what they asked for |
| Settle.Wait | internal/capture/session.go:573-644 | ends by the deadline; ends within one poll of a cap; ends within idleQuiet after the network calms down; calls it quiet only with nothing active and a full window in which no signal and no poll said otherwise |
| Settle.CalmAfterStall | internal/capture/recorder.go:646-684 | when no event follows, nothing is active from stallAfter after the last one on |
| Settle.Settle | internal/capture/session.go:573-644 | if no event follows T, the wait over a recorder returns by max(start, T + stallAfter) + idleQuiet |
| Maintenance.SweepDue | internal/app/maintenance.go:418-435 | one interval after the last run and not before soonest, and no later than that |
| Maintenance.ArmedIsEarliest | internal/app/maintenance.go:263-285 | the timer is armed for the earliest due time, and for none exactly when nothing is due |
| Maintenance.FireRunsSomething | internal/app/maintenance.go:287-317 | every fire runs at least one due job unless the context ended |
| Maintenance.FireRests | internal/app/maintenance.go:287-290 | a job that ran is not due before a full interval of rest, one that did not keeps its due time |
| Maintenance.Loop.constructor | internal/app/maintenance.go:222-236 | pruning is due one interval after the start, nothing else is scheduled yet |
| Maintenance.Loop.Arm | internal/app/maintenance.go:267-285 | arms as specified |
| Maintenance.Loop.RunDue | internal/app/maintenance.go:291-317 | what runs in one fire, and every due time afterwards |
| Maintenance.Loop.Reschedule | internal/app/maintenance.go:319-349 | an unchanged schedule changes nothing, a changed one is due as SweepDue says, or never |
| Maintenance.Loop.RescheduleVacuum | internal/app/maintenance.go:351-387 | the same for the vacuum, and never without a store that supports it |
| Maintenance.RunsWait | internal/app/maintenance.go:42-58 | over any starts, reloads, fires and runs elsewhere no scheduled run starts within the startup delay of a start or change of schedule, even without receipts |
| Maintenance.SpacedExactly | internal/app/maintenance.go:319-435 | no scheduled run starts before the previous one finished plus the interval in force, whenever fires come, if and only if every start and every change of schedule saw a receipt of the last run or came late enough by itself |
| Maintenance.ReceiptsKeepSpacing | internal/app/maintenance.go:389-435 | which they do while receipts are written and readable |
| Maintenance.OneScheduleNeedsNone | internal/app/maintenance.go:287-328 | and within one process and one schedule without any receipt |
| Maintenance.LostReceipt | internal/app/maintenance.go:389-396 | a concrete history in which a lost receipt breaks it |
| Maintenance.FireIsStep | internal/app/maintenance.go:303-316 | what a fire does to the sweep and to the vacuum is the step of those histories |
| Maintenance.UnchangedReloads | internal/app/maintenance.go:319-328 | any number of reloads with the schedule in force leaves the due time alone |
| Offer.Channel.Offer | cmd/wsaw/run.go:246-264 | ends within two rounds whatever the consumer does, and replaces nothing but a schedule not taken yet |
| Offer.HandOver | cmd/wsaw/run.go:246-264 | in every interleaving the consumer receives a subsequence of the offers in order, and the newest one is in the channel or was received last |
| Offer.NeverWaits | cmd/wsaw/run.go:246-250 | the producer's next step is always enabled, and its second send succeeds |
| Images.DecideState | internal/app/browserimages.go:225-253 | the state of one image, and the count |
| Images.PlanImages | internal/app/browserimages.go:195-221 | the states of the whole list |
| Images.PrunableExactly | internal/app/browserimages.go:223-253 | prunable exactly when a refresh made it, it is neither in service nor pinned nor the first refresh image listed, and unreferenced or, by the count rule, after at least the count of counted survivors |
| Images.PrunesLess | internal/app/browserimages.go:223-253 | a higher count or more references never make another image prunable |
| Images.RemovingChangesNothing | internal/app/browserimages.go:255-285 | removing any of the prunable images changes no state of the rest |
| Images.PruningTwice | internal/app/browserimages.go:255-285 | planning again after removing what was prunable removes nothing |
| Images.Plan | internal/app/browserimages.go:100-133 | the plan; under the referenced rule with unknown references nothing in it is prunable |
| Images.Prune | internal/app/browserimages.go:255-285 | removed and kept split the plan in order, refusals are kept and counted, and the bytes are those of the removed |
| Rules.StableSortIsUnique | internal/consent/rules.go:384-392 | there is only one stable sort of a list of rules |
| Rules.StableSortByPriority | internal/consent/rules.go:384-392 | the in-place sort gives it |
| Rules.Compile | internal/consent/rules.go:276-293 | fails exactly on a pattern that does not compile, else compiles every rule and sorts stably |
| Rules.Merge | internal/consent/rules.go:256-274 | compiles the concatenation of the sets, or falls back to the rules in load order |
| Rules.StagedIsOneSort | internal/consent/rules.go:256-293 | compiling packs separately and merging gives the stable descending order of all raw packs in load order |
| Rules.MergeNeverFallsBack | internal/consent/rules.go:266-271 | the fallback is unreachable for sets that were compiled |
| Rules.CompilingTwiceMatchesTheSame | internal/consent/rules.go:276-285 | patterns compiled twice match the same hosts |
| Rules.RuleMatchesHost | internal/consent/rules.go:358-370 | a rule matches a host when it has no patterns or one matches host or domain |
| Rules.Candidates | internal/consent/rules.go:336-356 | the matching rules, in order |
| Rules.CandidatesKeepOrder | internal/consent/rules.go:336-356 | the candidates of the sorted rules are the stable sort of exactly the rules that match |
| Rules.LaterFirstExactly | internal/consent/rules.go:256 | later sets take precedence at equal priority if and only if no priority is shared |
| Rules.EarlierRuleIsTriedFirst | internal/consent/rules.go:385-392 | a concrete pair of packs in which the earlier one wins |
| Challenge.RestShrinks | internal/container/registry.go:421-445 | what remains to be parsed strictly shrinks on every input |
| Challenge.ReadPiece | internal/container/registry.go:422-445 | one parameter, and what follows it |
| Challenge.ParseBearerChallenge | internal/container/registry.go:411-448 | the parser as a whole, and acceptance exactly with a realm that is not empty |
| Challenge.FirstPiece | internal/container/registry.go:422-445 | what the parser makes of the first printed parameter, quoted or bare |
| Challenge.RoundTrip | internal/container/registry.go:411-448 | parsing a printed challenge gives exactly the printed parameters, and accepts it exactly when it names a realm |
| ConsentHandler.Handler.Poll | internal/consent/handler.go:894-954 | at most ten attempts up to the first yes or the end of the time; an error counts unless a later attempt said yes; both the check of the choice and the look at the banner ask like this |
| ConsentHandler.Handler.RunSteps | internal/consent/handler.go:726-741 | the steps up to the first required one that failed |
| ConsentHandler.Handler.EscalateClicks | internal/consent/handler.go:969-1063 | which clicks, in which order: the rule's own, and if none landed the labels of the other heuristic rules in turn, up to the first that took effect |
| ConsentHandler.Handler.RunRule | internal/consent/handler.go:691-802 | the outcome of a rule as a function of exactly what was asked and answered |
| ConsentHandler.Handler.RunNecessaryOnly | internal/consent/handler.go:804-892 | the same for the necessary-only fallback, whose success is never applied |
| ConsentHandler.Handler.TryRule | internal/consent/handler.go:495-570 | which candidates are skipped, which do not match, when the fallback runs, and when the time is looked at |
| ConsentHandler.Handler.ApplyRules | internal/consent/handler.go:485-625 | candidates in order, up to the first that concludes or after which the time is over, and the outcome when none does |
| ConsentHandler.Handler.AwaitBanner | internal/consent/handler.go:258-286 | how often it looks, and that a banner is found exactly when some look said so |
| ConsentHandler.Handler.ApplyTcf | internal/consent/handler.go:402-467 | applied only with a consent string, conclusive only when the API completed |
| ConsentHandler.Handler.Interact | internal/consent/handler.go:197-234 | the whole interaction as a function of its log |
| ConsentHandler.Handler.Apply | internal/consent/handler.go:142-174 | applied, necessary-only, banner-visible and not-needed only with the evidence for it in the page's answers; unset if and only if the log ends with a rule that missed and the time being over; an expired budget never claims applied |
| ConsentEvidence.RunIsBacked | internal/consent/handler.go:752-802 | an applied rule has the page's yes to its check - or a storage write when it has none - and a later yes that the banner is gone |
| ConsentEvidence.RunStaysVisible | internal/consent/handler.go:956-1000 | banner-visible means the choice was recorded and no answer after that said the banner is gone |
| ConsentEvidence.StoryIsEvidence | internal/consent/handler.go:197-625 | over every page, each outcome is backed by what the page said |
| ConsentUnset.UnsetExactly | internal/consent/handler.go:555-570 | an interaction has no outcome if and only if its log ends with the errors of a rule's steps, all optional, without a fallback, and then with the time being over |
| ConsentUnset.UnsetNeedsSuchRules | internal/consent/handler.go:495-570 | whatever the page answers and whenever the time is over, that takes a candidate that can miss, behind none that always concludes |
| ConsentUnset.MissingStory | internal/consent/handler.go:495-570 | on a page without any control, with such rules, every interaction has no outcome |
| ConsentHandler.EndUnset | internal/consent/handler.go:555-570 | for every set of such rules, an interaction that ends without an outcome |
| ConsentHandler.UnsetHappens | internal/consent/handler.go:740-742 | a concrete one |

## Left out

- Chrome, CDP calls, containers, the store, HTTP and files: their results are arbitrary inputs or answers.
- BrowserPool: errors from closing a browser, restart callbacks and logging; the generation counter does not wrap; a probe's fallback marks its browser dead in the same step, which no other call can tell apart.
- BrowserPool: whether a browser that answers stays alive is arbitrary; only the bound on scans per browser is stated for isolation, not what contexts do.
- EventTap: how a message is decoded is a given of the message; the transport wrapper and the goroutine's start.
- Sessions.ScanTwice: what is found in the body of one hop is the same in both sessions, whichever read found it.
- Doubts.StorageShowsExactly: where IDs are used again after their bodies were asked for and the queue may be full, the absence of doubt suffices (`Doubts.NoDoubtHides`), but a queue that could be full need not cost a digest.
- Doubts: the cap on a body is not negative, as the options make sure (`internal/capture/options.go:195-197`).
- Traces.SameObservation: asks for reads in time, as planned, agreeing, and complete; `Traces.SameExactly` does not.
- Observation: host classification, normalized keys, initiators, timings, headers beyond the status, cache flags and warnings; the decoded size, which does depend on what is stored and is not compared.
- Recorder: the fields of a hop are grouped into what is observed, the digest and what is kept, and the records with the map of live ones into one object; the record of the failed main document, and the receiving end of the idle signal.
- Recorder.Recorder.RequestWillBeSent: byte bounds are stated for reserved bytes; the recorded payload size is the length before credentials are replaced, as in the code.
- BodyStorage: reasons are values with their text beside them; the scrubbing of credentials is an input.
- Sessions: how many workers there are, and that a stopping session reads what is queued itself; any number of bodies and payloads can be in hand.
- Settle: steps of the loop take no time, timers fire on time, and durations are whole milliseconds.
- Maintenance: a due time of zero as "off" is an option value; what a sweep, prune or vacuum does; the clock does not go back.
- Offer: more than one producer at a time.
- Images: how the list is ordered and inspected, Chromium versions, and the recorded inventory.
- Rules: regular expressions, trimming of patterns, rule files and their validation; a missing set counts as an empty one.
- Challenge: lower-casing is any function that leaves the printed keys alone; text is a sequence of characters, not bytes.
- ConsentHandler.Handler.EscalateClicks: the mechanism label it leads to.
- Consent: reason texts, diagnostics, stale-rule lists, the GPP string, the re-injection of helpers, and the policy that turns a failed interaction into an error.
- Scheduler, differ, retention algorithm, web interface, command line, configuration and metrics: single-branch facts beside the above.
