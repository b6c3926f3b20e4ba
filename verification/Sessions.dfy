/** One page session: the listener that feeds the recorder, the workers that read bodies for it,
    and whole scans. */
module Sessions {
  import opened Wrappers
  import opened Observation
  import opened BodyStorage
  import opened Hops
  import opened Traces
  import opened BodyQueues
  import opened Ledgers
  import opened Obligations
  import opened EventLists
  import opened Independence
  import opened Timelines
  import opened Doubts
  import Recorder

  function HistoryOf(inputs: seq<Input>, n: nat): History
    requires n <= |inputs|
  {
    if n == 0 then Begun else Onto(HistoryOf(inputs, n - 1), inputs[n - 1])
  }

  // Only a request that begins has a payload or a body of its own.
  lemma OnlyRequestsCarry(c: Config, st: Storage, s: State, q: Queues, l: Ledger, e: Event, post: PostField,
                          dataSink: SinkResult, sink: SinkResult)
    requires !e.WillBeSent?
    ensures QueuesOn(c, st, s, q, e, post) == QueuesOn(c, st, s, q, e, NoPost)
    ensures LedgerOn(c, st, s, q, l, e, post, dataSink, sink) == LedgerOn(c, st, s, q, l, e, NoPost, NO_SINK, NO_SINK)
    ensures e.Finished? ==>
              LedgerOn(c, st, s, q, l, e, post, dataSink, sink) == l.(hops := HopsOnFinished(s, q, l.hops, e))
  {
  }

  // What happened once has happened.
  lemma StaysInteracted(c: Config, x: Scan, e: Event)
    ensures x.net.phase == Post ==> OnEvent(c, x, e).net.phase == Post
  {
    EndsOnce(c, x.net, e);
  }

  lemma RequestCarries(c: Config, st: Storage, s: State, q: Queues, l: Ledger, e: Event, post: PostField,
                       dataSink: SinkResult, sink: SinkResult)
    requires e.WillBeSent?
    ensures LedgerOn(c, st, s, q, l, e, post, dataSink, sink)
            == LedgerOnRequest(c, st, s, q, l, e, post, dataSink, sink)
  {
  }

  lemma UrlIsShown(hops: seq<Hop>, at: map<RequestId, nat>, x: Scan, j: Job, identify: string -> string)
    requires Shows(hops, at, x) && j.stage.Attached?
    ensures var url := if IsLive(at, hops, j.id) then hops[at[j.id]].seen.url else "";
            LookedUp(x.net, j, identify)
            == j.(stage := Named(if j.hashed && j.stage.readable && url != "" then identify(url) else ""))
  {
    LiveShows(hops, at, x, j.id);
  }

  class Session {
    const recorder: Recorder.Recorder
    // The bodies and payloads the workers have in hand, and what each came to.
    var jobs: seq<Job>
    var results: seq<BodyResult>
    var fetching: seq<Fetching>
    var payloads: seq<Payload>
    var interactedOnce: bool
    var interactedAt: int

    ghost predicate Valid()
      reads this, recorder, recorder.log, recorder.log.records
    {
      recorder.Valid() && (interactedOnce ==> recorder.scan.net.phase == Post)
    }

    ghost predicate Holds(q: Queues, l: Ledger)
      reads this, recorder, recorder.log
    {
      && recorder.bodyWanted == q.bodies && recorder.payloadWanted == q.payloads
      && jobs == q.jobs && fetching == q.fetching && results == l.results && payloads == l.payloads
      && recorder.log.hops == l.hops && recorder.asked == l.asked
    }

    constructor (recorder: Recorder.Recorder)
      requires recorder.Valid() && recorder.scan == Scan(NEW, []) && recorder.asked == []
      requires recorder.bodyWanted == recorder.payloadWanted == []
      ensures Valid() && Holds(IDLE, BLANK) && this.recorder == recorder && !interactedOnce
    {
      this.recorder, interactedOnce, interactedAt := recorder, false, 0;
      jobs, results, fetching, payloads := [], [], [], [];
    }

    // Only the first call says when the interaction happened.
    method MarkInteracted(now: int)
      requires Valid()
      modifies `interactedOnce, `interactedAt, recorder`tally, recorder`scan
      ensures Valid() && interactedOnce && interactedAt == (if old(interactedOnce) then old(interactedAt) else now)
      ensures recorder.scan == OnEvent(recorder.config, old(recorder.scan), Interacted)
    {
      if interactedOnce {
        return;
      }
      interactedOnce, interactedAt := true, now;
      recorder.SetPhase(Post);
    }

    method HearRequest(e: Event, post: PostField, dataSink: SinkResult, sink: SinkResult, ghost q: Queues,
                       ghost l: Ledger)
      requires Valid() && e.WillBeSent? && Holds(q, l)
      modifies recorder, recorder.log, recorder.log.Target(e.id)
      ensures recorder.Valid() && recorder.scan == OnEvent(recorder.config, old(recorder.scan), e)
      ensures Holds(QueuesOn(recorder.config, recorder.storage, old(recorder.scan).net, q, e, post),
                    LedgerOnRequest(recorder.config, recorder.storage, old(recorder.scan).net, q, l, e, post, dataSink,
                                    sink))
      ensures fresh(recorder.log.Cells() - old(recorder.log.Cells()))
    {
      recorder.RequestWillBeSent(e, post, dataSink, sink);
    }

    method HearFinished(e: Event, ghost q: Queues, ghost l: Ledger)
      requires Valid() && e.Finished? && Holds(q, l) && WantShown(l.hops, q.want)
      modifies recorder, recorder.log, recorder.log.Target(e.id)
      ensures recorder.Valid() && recorder.scan == OnEvent(recorder.config, old(recorder.scan), e)
      ensures Holds(QueuesOn(recorder.config, recorder.storage, old(recorder.scan).net, q, e, NoPost),
                    l.(hops := HopsOnFinished(old(recorder.scan).net, q, l.hops, e)))
      ensures recorder.log.Cells() == old(recorder.log.Cells())
    {
      AsksShown(l.hops, recorder.scan, q.want, e);
      recorder.LoadingFinished(e);
    }

    method HearResponse(e: Event, ghost q: Queues, ghost l: Ledger)
      requires Valid() && e.Response? && Holds(q, l)
      modifies recorder, recorder.log, recorder.log.Target(e.id)
      ensures recorder.Valid() && recorder.scan == OnEvent(recorder.config, old(recorder.scan), e)
      ensures Holds(QueuesOn(recorder.config, recorder.storage, old(recorder.scan).net, q, e, NoPost),
                    LedgerOn(recorder.config, recorder.storage, old(recorder.scan).net, q, l, e, NoPost, NO_SINK,
                             NO_SINK))
      ensures recorder.log.Cells() == old(recorder.log.Cells())
    {
      recorder.ResponseReceived(e);
    }

    method HearFailed(e: Event, ghost q: Queues, ghost l: Ledger)
      requires Valid() && e.Failed? && Holds(q, l)
      modifies recorder, recorder.log, recorder.log.Target(e.id)
      ensures recorder.Valid() && recorder.scan == OnEvent(recorder.config, old(recorder.scan), e)
      ensures Holds(QueuesOn(recorder.config, recorder.storage, old(recorder.scan).net, q, e, NoPost),
                    LedgerOn(recorder.config, recorder.storage, old(recorder.scan).net, q, l, e, NoPost, NO_SINK,
                             NO_SINK))
      ensures recorder.log.Cells() == old(recorder.log.Cells())
    {
      recorder.LoadingFailed(e);
    }

    method HearSocket(e: Event, ghost q: Queues, ghost l: Ledger)
      requires Valid() && e.WebSocket? && Holds(q, l)
      modifies recorder, recorder.log, recorder.log.Target(e.id)
      ensures recorder.Valid() && recorder.scan == OnEvent(recorder.config, old(recorder.scan), e)
      ensures Holds(QueuesOn(recorder.config, recorder.storage, old(recorder.scan).net, q, e, NoPost),
                    LedgerOn(recorder.config, recorder.storage, old(recorder.scan).net, q, l, e, NoPost, NO_SINK,
                             NO_SINK))
      ensures fresh(recorder.log.Cells() - old(recorder.log.Cells()))
    {
      recorder.WebSocketCreated(e);
    }

    /** The listener: whatever is stored, each event moves the observed scan as Observation says,
        and the queues and what is kept of each hop as this scan's storage asks. */
    method Listen(e: Event, post: PostField, dataSink: SinkResult, sink: SinkResult, ghost q: Queues, ghost l: Ledger)
      requires Valid() && !e.Interacted? && Holds(q, l) && WantShown(l.hops, q.want)
      modifies recorder, recorder.log, recorder.log.Target(e.id)
      ensures Valid() && recorder.scan == OnEvent(recorder.config, old(recorder.scan), e)
      ensures Holds(QueuesOn(recorder.config, recorder.storage, old(recorder.scan).net, q, e, post),
                    LedgerOn(recorder.config, recorder.storage, old(recorder.scan).net, q, l, e, post, dataSink, sink))
      ensures fresh(recorder.log.Cells() - old(recorder.log.Cells()))
    {
      hide QueuesOn, LedgerOn, LedgerOnRequest, OnEvent;
      StaysInteracted(recorder.config, recorder.scan, e);
      if e.WillBeSent? {
        RequestCarries(recorder.config, recorder.storage, recorder.scan.net, q, l, e, post, dataSink, sink);
      } else {
        OnlyRequestsCarry(recorder.config, recorder.storage, recorder.scan.net, q, l, e, post, dataSink, sink);
      }
      match e
      case WillBeSent(_, _, _, _, _, _, _, _) => HearRequest(e, post, dataSink, sink, q, l);
      case Response(_, _, _) => HearResponse(e, q, l);
      case Finished(_, _) => HearFinished(e, q, l);
      case Failed(_, _) => HearFailed(e, q, l);
      case WebSocket(_, _, _) => HearSocket(e, q, l);
    }

    // A worker takes the next body, and plans what to do with it.
    method TakeBody(ghost q: Queues, ghost l: Ledger)
      requires Valid() && Holds(q, l)
      modifies `jobs, `results, recorder`bodyWanted
      ensures Valid()
      ensures Holds(QueuesNext(recorder.config, recorder.storage, recorder.scan.net, q, TakesBody),
                    LedgerNext(recorder.config, recorder.storage, recorder.scan.net, q, l, TakesBody))
    {
      if recorder.bodyWanted == [] {
        return;
      }
      var id := recorder.bodyWanted[0];
      recorder.bodyWanted := recorder.bodyWanted[1..];
      LiveShows(recorder.log.hops, recorder.log.at, recorder.scan, id);
      var hashed, store := recorder.BodyPlan(id);
      jobs, results := jobs + [Job(id, hashed, store, Reading)], results + [NO_RESULT];
    }

    method TakePayload(ghost q: Queues, ghost l: Ledger)
      requires Valid() && Holds(q, l)
      modifies `fetching, `payloads, recorder`payloadWanted
      ensures Valid()
      ensures Holds(QueuesNext(recorder.config, recorder.storage, recorder.scan.net, q, TakesPayload),
                    LedgerNext(recorder.config, recorder.storage, recorder.scan.net, q, l, TakesPayload))
    {
      if recorder.payloadWanted == [] {
        return;
      }
      fetching, payloads := fetching + [Fetching(recorder.payloadWanted[0], false)], payloads + [NO_PAYLOAD];
      recorder.payloadWanted := recorder.payloadWanted[1..];
    }

    // Chrome has answered for a body: it is stored if that was planned.
    method Conclude(k: nat, read: BodyRead, sink: SinkResult, ghost q: Queues, ghost l: Ledger)
      requires Valid() && Holds(q, l) && InStep(q, l)
      modifies `jobs, `results, recorder`budget, recorder`asked
      ensures Valid()
      ensures var input := Concludes(k, read, sink);
              Holds(QueuesNext(recorder.config, recorder.storage, recorder.scan.net, q, input),
                    LedgerNext(recorder.config, recorder.storage, recorder.scan.net, q, l, input))
    {
      hide QueuesNext, LedgerNext, BodyOutcome, Concluded, Carries;
      ConcludeIs(recorder.config, recorder.storage, recorder.scan.net, q, l, k, read, sink);
      if k >= |jobs| || !jobs[k].stage.Reading? {
        return;
      }
      var b := recorder.ReadBodyOf(jobs[k].hashed, jobs[k].store, read, sink);
      jobs, results := jobs[k := Concluded(recorder.config, jobs[k], read)], results[k := b];
    }

    // What was read is attached to the hop its ID names by now.
    method Attach(k: nat, ghost q: Queues, ghost l: Ledger)
      requires Valid() && Holds(q, l) && InStep(q, l)
      modifies `jobs, recorder`tally, recorder`scan, recorder.log`hops, recorder.log.Cells()
      ensures Valid() && recorder.log.Cells() == old(recorder.log.Cells())
      ensures Holds(QueuesNext(recorder.config, recorder.storage, old(recorder.scan).net, q, Attaches(k)),
                    LedgerNext(recorder.config, recorder.storage, old(recorder.scan).net, q, l, Attaches(k)))
      ensures recorder.scan == TakenBy(recorder.config, old(recorder.scan),
                                       StimulusOf(recorder.config, old(recorder.scan).net, q, Attaches(k)))
    {
      hide QueuesNext, LedgerNext, StimulusOf, TakenBy, OnRead;
      AttachIs(recorder.config, recorder.storage, recorder.scan, q, l, k);
      if k >= |jobs| || !jobs[k].stage.Holding? {
        return;
      }
      var j := jobs[k];
      jobs := jobs[k := j.(stage := Attached(j.stage.readable))];
      recorder.SetBody(j.id, results[k]);
    }

    // The URL of the hop its ID names by now decides what its identity is.
    method LookUp(k: nat, identify: string -> string, ghost q: Queues, ghost l: Ledger)
      requires Valid() && Holds(q, l)
      modifies `jobs
      ensures Valid()
      ensures Holds(QueuesNext(recorder.config, recorder.storage, recorder.scan.net, q, LooksUp(k, identify)), l)
    {
      if k >= |jobs| || !jobs[k].stage.Attached? {
        return;
      }
      var j := jobs[k];
      var value := "";
      UrlIsShown(recorder.log.hops, recorder.log.at, recorder.scan, j, identify);
      if j.hashed && j.stage.readable {
        var url := recorder.RequestUrl(j.id);
        if url != "" {
          value := identify(url);
        }
      }
      jobs := jobs[k := j.(stage := Named(value))];
    }

    // The identity goes to the hop its ID names by now, and the worker is done.
    method SetName(k: nat, ghost q: Queues, ghost l: Ledger)
      requires Valid() && Holds(q, l) && InStep(q, l)
      modifies `jobs, `results, recorder`tally, recorder`scan, recorder.log`hops, recorder.log.Cells()
      ensures Valid() && recorder.log.Cells() == old(recorder.log.Cells())
      ensures Holds(QueuesNext(recorder.config, recorder.storage, old(recorder.scan).net, q, Names(k)),
                    LedgerNext(recorder.config, recorder.storage, old(recorder.scan).net, q, l, Names(k)))
      ensures recorder.scan == TakenBy(recorder.config, old(recorder.scan),
                                       StimulusOf(recorder.config, old(recorder.scan).net, q, Names(k)))
    {
      hide QueuesNext, LedgerNext, StimulusOf, TakenBy, OnRead;
      NameIs(recorder.config, recorder.storage, recorder.scan, q, l, k);
      if k >= |jobs| || !jobs[k].stage.Named? {
        return;
      }
      var j := jobs[k];
      jobs, results := jobs[..k] + jobs[k + 1..], results[..k] + results[k + 1..];
      if j.hashed {
        recorder.SetBodyIdentity(j.id, j.stage.value);
      }
    }

    // Chrome has answered for a payload: it is stored.
    method ConcludeFetch(k: nat, read: PayloadRead, sink: SinkResult, ghost q: Queues, ghost l: Ledger)
      requires Valid() && Holds(q, l) && InStep(q, l)
      modifies `fetching, `payloads, recorder`budget, recorder`asked
      ensures Valid()
      ensures var input := Fetched(k, read, sink);
              Holds(QueuesNext(recorder.config, recorder.storage, recorder.scan.net, q, input),
                    LedgerNext(recorder.config, recorder.storage, recorder.scan.net, q, l, input))
    {
      if k >= |fetching| || fetching[k].answered {
        return;
      }
      var p := recorder.ReadPayloadOf(read, sink);
      fetching, payloads := fetching[k := Fetching(fetching[k].id, true)], payloads[k := p];
    }

    // It is attached to the hop its ID names by now, and the worker is done.
    method Deliver(k: nat, ghost q: Queues, ghost l: Ledger)
      requires Valid() && Holds(q, l) && InStep(q, l)
      modifies `fetching, `payloads, recorder`tally, recorder`scan, recorder.log`hops, recorder.log.Cells()
      ensures Valid() && recorder.log.Cells() == old(recorder.log.Cells()) && recorder.scan == old(recorder.scan)
      ensures Holds(QueuesNext(recorder.config, recorder.storage, recorder.scan.net, q, Delivers(k)),
                    LedgerNext(recorder.config, recorder.storage, recorder.scan.net, q, l, Delivers(k)))
    {
      hide QueuesNext, LedgerNext, Carries;
      DeliverIs(recorder.config, recorder.storage, recorder.scan.net, q, l, k);
      if k >= |fetching| || !fetching[k].answered {
        return;
      }
      var id, p := fetching[k].id, payloads[k];
      fetching, payloads := fetching[..k] + fetching[k + 1..], payloads[..k] + payloads[k + 1..];
      recorder.SetPayload(id, p);
    }

    // One thing that reaches the session.
    method Step(input: Input, ghost q: Queues, ghost l: Ledger)
      requires Valid() && Possible(input) && Holds(q, l) && InStep(q, l)
      modifies this, recorder, recorder.log, recorder.log.Cells()
      ensures Valid() && fresh(recorder.log.Cells() - old(recorder.log.Cells()))
      ensures Holds(QueuesNext(recorder.config, recorder.storage, old(recorder.scan).net, q, input),
                    LedgerNext(recorder.config, recorder.storage, old(recorder.scan).net, q, l, input))
      ensures recorder.scan == TakenBy(recorder.config, old(recorder.scan),
                                       StimulusOf(recorder.config, old(recorder.scan).net, q, input))
    {
      hide QueuesNext, LedgerNext, StimulusOf, TakenBy, QueuesOn, LedgerOn, OnEvent;
      StepIs(recorder.config, recorder.storage, recorder.scan, q, l, input);
      match input
      case Happens(e, post, dataSink, sink) => Listen(e, post, dataSink, sink, q, l);
      case Interacts(now) => MarkInteracted(now);
      case TakesBody => TakeBody(q, l);
      case TakesPayload => TakePayload(q, l);
      case Concludes(k, read, sink) => Conclude(k, read, sink, q, l);
      case Attaches(k) => Attach(k, q, l);
      case LooksUp(k, identify) => LookUp(k, identify, q, l);
      case Names(k) => SetName(k, q, l);
      case Fetched(k, read, sink) => ConcludeFetch(k, read, sink, q, l);
      case Delivers(k) => Deliver(k, q, l);
    }

    // The session is where this trace, these queues and this ledger say it is.
    ghost predicate At(b: Book, l: Ledger)
      reads this, recorder, recorder.log, recorder.log.records
    {
      Valid() && recorder.scan == Run(recorder.config, b.trace) && Holds(b.queues, l) && InStep(b.queues, l)
    }

    ghost predicate After(h: History)
      reads this, recorder, recorder.log, recorder.log.records
    {
      At(BookOf(recorder.config, recorder.storage, h), LedgerOf(recorder.config, recorder.storage, h))
    }

    method StepOn(input: Input, ghost h: History, ghost h': History)
      requires After(h) && Possible(input) && h' == Onto(h, input)
      modifies this, recorder, recorder.log, recorder.log.Cells()
      ensures After(h') && fresh(recorder.log.Cells() - old(recorder.log.Cells()))
    {
      ghost var b := BookOf(recorder.config, recorder.storage, h);
      ghost var l := LedgerOf(recorder.config, recorder.storage, h);
      TraceGrows(recorder.config, b.trace, StimulusOf(recorder.config, recorder.scan.net, b.queues, input));
      FitsNext(recorder.config, recorder.storage, recorder.scan, b.queues, l, input);
      Step(input, b.queues, l);
    }

    /** A whole session: whatever arrives in whatever order, it observes what the trace of its
        history leads to, and is left with the queues and the ledger of its history. */
    method Drive(inputs: seq<Input>)
      requires After(Begun) && forall i :: 0 <= i < |inputs| ==> Possible(inputs[i])
      modifies this, recorder, recorder.log, recorder.log.Cells()
      ensures After(HistoryOf(inputs, |inputs|)) && fresh(recorder.log.Cells() - old(recorder.log.Cells()))
    {
      hide After;
      ghost var h := Begun;
      for i := 0 to |inputs|
        invariant fresh(recorder.log.Cells() - old(recorder.log.Cells()))
        invariant After(h) && h == HistoryOf(inputs, i)
      {
        ghost var h' := Onto(h, inputs[i]);
        StepOn(inputs[i], h, h');
        h := h';
      }
    }

    /** A whole session, finished, and its statistics: it has observed what its history says; every body and
        payload that is owed is counted once, as stored, unavailable or no body at all; and what else
        is counted are those that were given to hops which owe none - none at all, if no ID
        begins another request while something is still to come under it, and no request
        carries its body itself. */
    method DriveAndCount(inputs: seq<Input>) returns (stats: Option<Stats>)
      requires After(Begun) && forall i :: 0 <= i < |inputs| ==> Possible(inputs[i])
      modifies this, recorder, recorder.log, recorder.log.Cells()
      ensures recorder.Valid()
      ensures var c, st, h := recorder.config, recorder.storage, HistoryOf(inputs, |inputs|);
              var owing, hops := LedgerOf(c, st, h).hops, recorder.log.hops;
              && recorder.scan == Run(c, BookOf(c, st, h).trace) && AllFinished(st.mode, owing, hops)
              && (stats.Some? <==> Stores(st.mode))
              && (stats.Some? ==> Total(stats.value) + NoBodies(hops, |hops|)
                                  == Owed(st.mode, owing, |owing|)
                                     + |StrayBodies(c, st, h)| + |StrayPayloads(c, st, h)|)
              && (stats.Some? && Tidy(c, st, h) ==> StrayBodies(c, st, h) == {} && StrayPayloads(c, st, h) == {})
    {
      hide AllFinished, Tidy, Recorder.Recorder.Valid;
      Drive(inputs);
      ghost var h := HistoryOf(inputs, |inputs|);
      ghost var owing := LedgerOf(recorder.config, recorder.storage, h).hops;
      recorder.FinishBodies();
      stats := recorder.BodyStats();
      if Stores(recorder.storage.mode) {
        StatsPartition(recorder.storage.mode, owing, recorder.log.hops, |owing|);
        ExtraIsStray(recorder.config, recorder.storage, h);
        if Tidy(recorder.config, recorder.storage, h) {
          NothingStrays(recorder.config, recorder.storage, h);
        }
      }
    }
  }

  // The records look the same to a comparison.
  predicate LookSame(hops: seq<Hop>, hops': seq<Hop>) {
    |hops| == |hops'| && forall i :: 0 <= i < |hops| ==> hops[i].seen == hops'[i].seen && hops[i].mark == hops'[i].mark
  }

  // They do exactly when they show the same records and marks.
  lemma LookSameExactly(hops: seq<Hop>, at: map<RequestId, nat>, x: Scan, hops': seq<Hop>, at': map<RequestId, nat>,
                        x': Scan)
    requires Shows(hops, at, x) && Shows(hops', at', x')
    ensures LookSame(hops, hops') <==> x.net.records == x'.net.records && x.marks == x'.marks
  {
    assert forall i :: 0 <= i < |hops| ==> HopShows(hops[i], x.net.records[i], x.marks[i]);
    assert forall i :: 0 <= i < |hops'| ==> HopShows(hops'[i], x'.net.records[i], x'.marks[i]);
  }

  method ScanOnce(c: Config, st: Storage, stallAfter: int, inputs: seq<Input>) returns (s: Session)
    requires forall i :: 0 <= i < |inputs| ==> Possible(inputs[i])
    ensures s.recorder.config == c && s.recorder.storage == st && s.After(HistoryOf(inputs, |inputs|))
  {
    var r := new Recorder.Recorder(c, st, stallAfter);
    s := new Session(r);
    s.Drive(inputs);
  }

  // The history is orderly, and has read all it asked for.
  ghost predicate IsOrderly(c: Config, st: Storage, h: History, oracle: nat -> Mark) {
    AllOrderly(c, st, h, oracle) && Drained(BookOf(c, st, h).queues)
  }

  // What makes two scans of the same events the same.
  lemma SameScans(c: Config, roomy: bool, st: Storage, st': Storage, h: History, h': History, oracle: nat -> Mark)
    requires EventsOf(h) == EventsOf(h') && AllGive(c, st, h, oracle) && AllGive(c, st', h', oracle)
    ensures var t, t' := BookOf(c, st, h).trace, BookOf(c, st', h').trace;
            Run(c, t).net == Run(c, t').net && (Run(c, t) == Run(c, t') <==> DifferSilently(c, t, t', oracle))
    ensures NoDoubt(c, roomy, EventsOf(h)) ==>
              ScanOf(c, roomy, st, EventsOf(h), h, oracle) && ScanOf(c, roomy, st', EventsOf(h), h', oracle) ==>
                Run(c, BookOf(c, st, h).trace) == Run(c, BookOf(c, st', h').trace)
    ensures IsOrderly(c, st, h, oracle) && IsOrderly(c, st', h', oracle) ==>
              Run(c, BookOf(c, st, h).trace) == Run(c, BookOf(c, st', h').trace)
  {
    hide NoDoubt, AllOrderly, ScanOf, DifferSilently, AllGive, Run, BookOf;
    SameHistoriesExactly(c, st, st', h, h', oracle);
    BookMatches(c, st, h);
    BookMatches(c, st', h');
    if NoDoubt(c, roomy, EventsOf(h)) && ScanOf(c, roomy, st, EventsOf(h), h, oracle) {
      if ScanOf(c, roomy, st', EventsOf(h), h', oracle) {
        NoDoubtHides(c, roomy, st, st', h, h', oracle);
      }
    }
    if IsOrderly(c, st, h, oracle) && IsOrderly(c, st', h', oracle) {
      StorageIsNotObserved(c, st, st', h, h', oracle);
    }
  }

  /** Storage and what a comparison sees. Two sessions with any two storage configurations see the same events,
      and find in each body what the oracle says. Then their records - traffic, phases, endings, digests
      and identities - are the same exactly when every mark that only one of them found says
      nothing that the other does not show. That is so if the events leave no doubt and both have
      read what they asked for; and, whatever the events, if both are orderly. */
  method ScanTwice(c: Config, st: Storage, st': Storage, stallAfter: int, inputs: seq<Input>, inputs': seq<Input>,
                   ghost h: History, ghost h': History, ghost roomy: bool, ghost oracle: nat -> Mark)
    returns (a: Session, b: Session)
    requires h == HistoryOf(inputs, |inputs|) && forall i :: 0 <= i < |inputs| ==> Possible(inputs[i])
    requires h' == HistoryOf(inputs', |inputs'|) && forall i :: 0 <= i < |inputs'| ==> Possible(inputs'[i])
    requires EventsOf(h) == EventsOf(h') && AllGive(c, st, h, oracle) && AllGive(c, st', h', oracle)
    ensures a.Valid() && b.Valid() && a.recorder.storage == st && b.recorder.storage == st'
    ensures a.recorder.scan.net == b.recorder.scan.net && a.recorder.tally == b.recorder.tally
    ensures LookSame(a.recorder.log.hops, b.recorder.log.hops)
            <==> DifferSilently(c, BookOf(c, st, h).trace, BookOf(c, st', h').trace, oracle)
    ensures NoDoubt(c, roomy, EventsOf(h)) ==>
              ScanOf(c, roomy, st, EventsOf(h), h, oracle) && ScanOf(c, roomy, st', EventsOf(h), h', oracle) ==>
                LookSame(a.recorder.log.hops, b.recorder.log.hops)
    ensures IsOrderly(c, st, h, oracle) && IsOrderly(c, st', h', oracle) ==>
              LookSame(a.recorder.log.hops, b.recorder.log.hops)
  {
    hide NoDoubt, ScanOf, DifferSilently, IsOrderly, BookOf, Run;
    a := ScanOnce(c, st, stallAfter, inputs);
    b := ScanOnce(c, st', stallAfter, inputs');
    SameScans(c, roomy, st, st', h, h', oracle);
    LookSameExactly(a.recorder.log.hops, a.recorder.log.at, a.recorder.scan,
                    b.recorder.log.hops, b.recorder.log.at, b.recorder.scan);
  }
}
