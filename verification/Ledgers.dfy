/** What a scan keeps of its bodies, and what it charges to its budget, over a whole history: the
    part of a session that depends on what is stored. */
module Ledgers {
  import opened Wrappers
  import opened Observation
  import opened BodyStorage
  import opened Hops
  import opened Traces
  import opened BodyQueues

  // The hops with all that is kept of them, every size the budget was asked for, and what each
  // body and payload in hand came to.
  datatype Ledger = Ledger(hops: seq<Hop>, asked: seq<nat>, results: seq<BodyResult>, payloads: seq<Payload>)

  const BLANK := Ledger([], [], [], [])
  const NO_SINK := Stored("")
  const NO_RESULT := BodyResult("", 0, "", 0, Given)

  // What is written to whichever hop an ID names.
  function HopsAttached(hops: seq<Hop>, at: map<RequestId, nat>, id: RequestId, b: BodyResult): seq<Hop> {
    if IsLive(at, hops, id) then hops[at[id] := ReadHop(hops[at[id]], b)] else hops
  }

  function HopsNamed(hops: seq<Hop>, at: map<RequestId, nat>, id: RequestId, value: string): seq<Hop> {
    if IsLive(at, hops, id) then hops[at[id] := MarkedHop(hops[at[id]], Name, value)] else hops
  }

  function HopsDelivered(hops: seq<Hop>, at: map<RequestId, nat>, id: RequestId, p: Payload): seq<Hop> {
    if IsLive(at, hops, id) then hops[at[id] := PaidHop(hops[at[id]], p)] else hops
  }

  function PaidHop(h: Hop, p: Payload): Hop { h.(kept := PutPayload(h.kept, p)) }

  // What becomes of its payload when a request begins.
  function PayloadAt(st: Storage, s: State, l: Ledger, e: Event, post: PostField, sink: SinkResult): PayloadResult
    requires e.WillBeSent?
  {
    var asked := l.asked + PayloadAsked(st, s.exceeded, e.url, post);
    PayloadOf(st, s.exceeded, e.url, post, GrantedNow(st.maxScanBytes, l.asked, asked), sink)
  }

  // A request begins.
  function LedgerOnRequest(c: Config, st: Storage, s: State, q: Queues, l: Ledger, e: Event, post: PostField,
                           dataSink: SinkResult, sink: SinkResult): Ledger
    requires e.WillBeSent?
  {
    var asked := l.asked + PayloadAsked(st, s.exceeded, e.url, post);
    var p := PayloadAt(st, s, l, e, post, sink);
    var hops := RedirectedHops(l.hops, s.current, e);
    var first := AskedHop(FirstHop(c, st, s.phase, e, dataSink, p), p, |q.payloads| < QUEUE_SIZE);
    l.(asked := asked, hops := if Admitted(c, s) then hops + [first] else hops)
  }

  // A request has loaded; its body is queued, or says that the queue was full.
  function HopsOnFinished(s: State, q: Queues, hops: seq<Hop>, e: Event): seq<Hop>
    requires e.Finished?
  {
    var loaded := LoadedHops(hops, s.current, e);
    if LoadWanted(hops, s.current, e)
    then loaded[s.current[e.id] := QueuedHop(loaded[s.current[e.id]], |q.bodies| < QUEUE_SIZE)] else loaded
  }

  function HopsOnFailed(s: State, hops: seq<Hop>, e: Event): seq<Hop>
    requires e.Failed?
  {
    if IsOpen(s.current, hops, e.id) then hops[s.current[e.id] := FailedHop(hops[s.current[e.id]], e.kind)] else hops
  }

  function HopsOnResponse(c: Config, mode: Mode, s: State, hops: seq<Hop>, e: Event): seq<Hop>
    requires e.Response?
  {
    if IsLive(s.current, hops, e.id)
    then hops[s.current[e.id] := RespondedHop(c, mode, hops[s.current[e.id]], e)] else hops
  }

  function SocketHop(phase: Phase, e: Event): Hop
    requires e.WebSocket?
  {
    Hop(Observed(e.id, e.url, "GET", "websocket", false, false, phase, 0, "", false, 0, true, false, e.at),
        Mark("", ""), NOTHING)
  }

  function LedgerOn(c: Config, st: Storage, s: State, q: Queues, l: Ledger, e: Event, post: PostField,
                    dataSink: SinkResult, sink: SinkResult): Ledger {
    match e
    case WillBeSent(_, _, _, _, _, _, _, _) => LedgerOnRequest(c, st, s, q, l, e, post, dataSink, sink)
    case Response(_, _, _) => l.(hops := HopsOnResponse(c, st.mode, s, l.hops, e))
    case Finished(_, _) => l.(hops := HopsOnFinished(s, q, l.hops, e))
    case Failed(_, _) => l.(hops := HopsOnFailed(s, l.hops, e))
    case WebSocket(_, _, _) => l.(hops := if Admitted(c, s) then l.hops + [SocketHop(s.phase, e)] else l.hops)
    case Interacted => l
  }

  // The job is at this stage, and what it came to is known.
  predicate AtHand(q: Queues, l: Ledger, k: nat) { k < |q.jobs| && k < |l.results| }

  function BodyConcluded(c: Config, st: Storage, q: Queues, l: Ledger, k: nat, read: BodyRead, sink: SinkResult): Ledger
    requires AtHand(q, l, k)
  {
    var j := q.jobs[k];
    var asked := l.asked + ReadAsks(c, st, j.store, read);
    var granted := GrantedNow(st.maxScanBytes, l.asked, asked);
    l.(asked := asked, results := l.results[k := BodyOutcome(c, st, j.hashed, j.store, read, granted, sink)])
  }

  function PayloadConcluded(st: Storage, l: Ledger, k: nat, read: PayloadRead, sink: SinkResult): Ledger
    requires k < |l.payloads|
  {
    var asked := l.asked + FetchAsks(st, read);
    l.(asked := asked,
       payloads := l.payloads[k := FetchedPayload(st, read, GrantedNow(st.maxScanBytes, l.asked, asked), sink)])
  }

  function LedgerNext(c: Config, st: Storage, s: State, q: Queues, l: Ledger, input: Input): Ledger {
    match input
    case Happens(e, post, dataSink, sink) => LedgerOn(c, st, s, q, l, e, post, dataSink, sink)
    case Interacts(_) => l
    case TakesBody => if q.bodies == [] then l else l.(results := l.results + [NO_RESULT])
    case Concludes(k, read, sink) =>
      if AtHand(q, l, k) && q.jobs[k].stage.Reading? then BodyConcluded(c, st, q, l, k, read, sink) else l
    case Attaches(k) =>
      if AtHand(q, l, k) && q.jobs[k].stage.Holding?
      then l.(hops := HopsAttached(l.hops, s.current, q.jobs[k].id, l.results[k]))
      else l
    case LooksUp(_, _) => l
    case Names(k) =>
      if AtHand(q, l, k) && q.jobs[k].stage.Named?
      then
        var j := q.jobs[k];
        l.(results := Without(l.results, k),
           hops := if j.hashed then HopsNamed(l.hops, s.current, j.id, j.stage.value) else l.hops)
      else l
    case TakesPayload => if q.payloads == [] then l else l.(payloads := l.payloads + [NO_PAYLOAD])
    case Fetched(k, read, sink) =>
      if IsAsked(q, k) && k < |l.payloads| then PayloadConcluded(st, l, k, read, sink) else l
    case Delivers(k) =>
      if IsAnswered(q, k) && k < |l.payloads|
      then l.(payloads := Without(l.payloads, k),
              hops := HopsDelivered(l.hops, s.current, q.fetching[k].id, l.payloads[k]))
      else l
  }

  // What a scan with this storage is left with.
  function LedgerOf(c: Config, st: Storage, h: History): Ledger {
    match h
    case Begun => BLANK
    case Onto(before, input) =>
      var b := BookOf(c, st, before);
      LedgerNext(c, st, Run(c, b.trace).net, b.queues, LedgerOf(c, st, before), input)
  }

  // ---------- the ledger and the queues fit together ----------

  // What is at hand is the digest that its job says, and none for a body that has no use for one.
  predicate Carries(j: Job, b: BodyResult) {
    j.stage.Holding? ==> b.digest == j.stage.digest && (j.hashed || j.stage.digest == "")
  }

  ghost predicate InStep(q: Queues, l: Ledger) {
    && |l.results| == |q.jobs| && |l.payloads| == |q.fetching| && WantShown(l.hops, q.want)
    && forall k :: 0 <= k < |q.jobs| ==> Carries(q.jobs[k], l.results[k])
  }

  lemma WantOnRequest(c: Config, st: Storage, hops: seq<Hop>, x: Scan, want: seq<bool>, e: Event, dataSink: SinkResult,
                      p: PayloadResult, room: bool)
    requires e.WillBeSent? && Shows(hops, x.net.current, x) && WantShown(hops, want)
    ensures var before := RedirectedHops(hops, x.net.current, e);
            WantShown(if Admitted(c, x.net)
                      then before + [AskedHop(FirstHop(c, st, x.net.phase, e, dataSink, p), p, room)] else before,
                      WantOn(c, st.mode, x.net, want, e))
  {
    var before := RedirectedHops(hops, x.net.current, e);
    WantMore(before, want, AskedHop(FirstHop(c, st, x.net.phase, e, dataSink, p), p, room));
  }

  lemma WantOnResponse(c: Config, mode: Mode, hops: seq<Hop>, x: Scan, want: seq<bool>, e: Event)
    requires e.Response? && Shows(hops, x.net.current, x) && WantShown(hops, want)
    ensures WantShown(HopsOnResponse(c, mode, x.net, hops, e), WantOn(c, mode, x.net, want, e))
  {
    LiveShows(hops, x.net.current, x, e.id);
  }

  lemma AsksShown(hops: seq<Hop>, x: Scan, want: seq<bool>, e: Event)
    requires e.Finished? && Shows(hops, x.net.current, x) && WantShown(hops, want)
    ensures Asks(x.net, want, e) == LoadWanted(hops, x.net.current, e)
  {
    LiveShows(hops, x.net.current, x, e.id);
  }

  lemma WantOnEvent(c: Config, st: Storage, x: Scan, q: Queues, l: Ledger, e: Event, post: PostField,
                    dataSink: SinkResult, sink: SinkResult)
    requires Shows(l.hops, x.net.current, x) && WantShown(l.hops, q.want)
    ensures WantShown(LedgerOn(c, st, x.net, q, l, e, post, dataSink, sink).hops,
                      WantOn(c, st.mode, x.net, q.want, e))
  {
    match e
    case WillBeSent(_, _, _, _, _, _, _, _) =>
      WantOnRequest(c, st, l.hops, x, q.want, e, dataSink, PayloadAt(st, x.net, l, e, post, sink),
                    |q.payloads| < QUEUE_SIZE);
    case Response(_, _, _) => WantOnResponse(c, st.mode, l.hops, x, q.want, e);
    case Finished(_, _) =>
    case Failed(_, _) =>
    case WebSocket(_, _, _) =>
    case Interacted =>
  }

  lemma BodyStepFits(c: Config, st: Storage, x: Scan, q: Queues, l: Ledger, input: Input)
    requires Shows(l.hops, x.net.current, x) && InStep(q, l)
    requires input.TakesBody? || input.Concludes? || input.Attaches? || input.LooksUp?
    ensures InStep(QueuesNext(c, st, x.net, q, input), LedgerNext(c, st, x.net, q, l, input))
  {
  }

  lemma PayloadStepFits(c: Config, st: Storage, x: Scan, q: Queues, l: Ledger, input: Input)
    requires InStep(q, l) && (input.TakesPayload? || input.Fetched? || input.Delivers?)
    ensures InStep(QueuesNext(c, st, x.net, q, input), LedgerNext(c, st, x.net, q, l, input))
  {
  }

  lemma FitsNext(c: Config, st: Storage, x: Scan, q: Queues, l: Ledger, input: Input)
    requires Shows(l.hops, x.net.current, x) && InStep(q, l)
    ensures InStep(QueuesNext(c, st, x.net, q, input), LedgerNext(c, st, x.net, q, l, input))
  {
    match input
    case Happens(e, post, dataSink, sink) => WantOnEvent(c, st, x, q, l, e, post, dataSink, sink);
    case Interacts(_) =>
    case TakesBody => BodyStepFits(c, st, x, q, l, input);
    case Concludes(_, _, _) => BodyStepFits(c, st, x, q, l, input);
    case Attaches(_) => BodyStepFits(c, st, x, q, l, input);
    case LooksUp(_, _) => BodyStepFits(c, st, x, q, l, input);
    case Names(k) => NamesFit(c, st, x, q, l, k);
    case TakesPayload => PayloadStepFits(c, st, x, q, l, input);
    case Fetched(_, _, _) => PayloadStepFits(c, st, x, q, l, input);
    case Delivers(_) => PayloadStepFits(c, st, x, q, l, input);
  }

  lemma NamesFit(c: Config, st: Storage, x: Scan, q: Queues, l: Ledger, k: nat)
    requires InStep(q, l)
    ensures InStep(QueuesNext(c, st, x.net, q, Names(k)), LedgerNext(c, st, x.net, q, l, Names(k)))
  {
    var q', l' := QueuesNext(c, st, x.net, q, Names(k)), LedgerNext(c, st, x.net, q, l, Names(k));
    forall m | 0 <= m < |q'.jobs| ensures Carries(q'.jobs[m], l'.results[m]) {
      var n := if |q'.jobs| < |q.jobs| && m >= k then m + 1 else m;
      assert q'.jobs[m] == q.jobs[n] && l'.results[m] == l.results[n] && Carries(q.jobs[n], l.results[n]);
    }
  }

  // ---------- what a step comes to ----------

  function TakenBy(c: Config, x: Scan, y: Option<Stimulus>): Scan { if y.Some? then Take(c, x, y.value) else x }

  lemma TraceGrows(c: Config, trace: Trace, y: Option<Stimulus>)
    ensures Run(c, Grown(trace, y)) == TakenBy(c, Run(c, trace), y)
  {
  }

  // What the steps that write to a hop come to.
  lemma AttachIs(c: Config, st: Storage, x: Scan, q: Queues, l: Ledger, k: nat)
    requires InStep(q, l)
    ensures TakenBy(c, x, StimulusOf(c, x.net, q, Attaches(k))).net == x.net
    ensures var input, s := Attaches(k), x.net;
            if k < |q.jobs| && q.jobs[k].stage.Holding?
            then
              var j := q.jobs[k];
              && QueuesNext(c, st, s, q, input) == q.(jobs := q.jobs[k := j.(stage := Attached(j.stage.readable))])
              && LedgerNext(c, st, s, q, l, input) == l.(hops := HopsAttached(l.hops, s.current, j.id, l.results[k]))
              && TakenBy(c, x, StimulusOf(c, s, q, input)) == OnRead(x, j.id, true, Body, l.results[k].digest)
            else
              && QueuesNext(c, st, s, q, input) == q && LedgerNext(c, st, s, q, l, input) == l
              && TakenBy(c, x, StimulusOf(c, s, q, input)) == x
  {
    if k < |q.jobs| && q.jobs[k].stage.Holding? {
      assert Carries(q.jobs[k], l.results[k]);
      MarkIsTaken(c, x, q.jobs[k]);
    }
  }

  lemma NameIs(c: Config, st: Storage, x: Scan, q: Queues, l: Ledger, k: nat)
    requires InStep(q, l)
    ensures TakenBy(c, x, StimulusOf(c, x.net, q, Names(k))).net == x.net
    ensures var input, s := Names(k), x.net;
            if k < |q.jobs| && q.jobs[k].stage.Named?
            then
              var j := q.jobs[k];
              && QueuesNext(c, st, s, q, input) == q.(jobs := Without(q.jobs, k))
              && LedgerNext(c, st, s, q, l, input)
                 == l.(results := Without(l.results, k),
                       hops := if j.hashed then HopsNamed(l.hops, s.current, j.id, j.stage.value) else l.hops)
              && TakenBy(c, x, StimulusOf(c, s, q, input))
                 == if j.hashed then OnRead(x, j.id, true, Name, j.stage.value) else x
            else
              && QueuesNext(c, st, s, q, input) == q && LedgerNext(c, st, s, q, l, input) == l
              && TakenBy(c, x, StimulusOf(c, s, q, input)) == x
  {
    if k < |q.jobs| {
      MarkIsTaken(c, x, q.jobs[k]);
    }
  }

  lemma ConcludeIs(c: Config, st: Storage, s: State, q: Queues, l: Ledger, k: nat, read: BodyRead, sink: SinkResult)
    requires |q.jobs| == |l.results|
    ensures var input := Concludes(k, read, sink);
            if k < |q.jobs| && q.jobs[k].stage.Reading?
            then
              var asked := l.asked + ReadAsks(c, st, q.jobs[k].store, read);
              var granted := GrantedNow(st.maxScanBytes, l.asked, asked);
              && QueuesNext(c, st, s, q, input) == q.(jobs := q.jobs[k := Concluded(c, q.jobs[k], read)])
              && LedgerNext(c, st, s, q, l, input)
                 == l.(asked := asked, results := l.results[k :=
                        BodyOutcome(c, st, q.jobs[k].hashed, q.jobs[k].store, read, granted, sink)])
            else QueuesNext(c, st, s, q, input) == q && LedgerNext(c, st, s, q, l, input) == l
  {
  }

  lemma DeliverIs(c: Config, st: Storage, s: State, q: Queues, l: Ledger, k: nat)
    requires |q.fetching| == |l.payloads|
    ensures var input := Delivers(k);
            if IsAnswered(q, k)
            then
              && QueuesNext(c, st, s, q, input) == q.(fetching := Without(q.fetching, k))
              && LedgerNext(c, st, s, q, l, input)
                 == l.(payloads := Without(l.payloads, k),
                       hops := HopsDelivered(l.hops, s.current, q.fetching[k].id, l.payloads[k]))
            else QueuesNext(c, st, s, q, input) == q && LedgerNext(c, st, s, q, l, input) == l
  {
  }

  // What the other inputs come to.
  lemma StepIs(c: Config, st: Storage, x: Scan, q: Queues, l: Ledger, input: Input)
    ensures input.Happens? ==>
              && QueuesNext(c, st, x.net, q, input) == QueuesOn(c, st, x.net, q, input.e, input.post)
              && LedgerNext(c, st, x.net, q, l, input)
                 == LedgerOn(c, st, x.net, q, l, input.e, input.post, input.dataSink, input.sink)
              && TakenBy(c, x, StimulusOf(c, x.net, q, input)) == OnEvent(c, x, input.e)
    ensures input.Interacts? ==>
              && QueuesNext(c, st, x.net, q, input) == q && LedgerNext(c, st, x.net, q, l, input) == l
              && TakenBy(c, x, StimulusOf(c, x.net, q, input)) == OnEvent(c, x, Interacted)
    ensures input.LooksUp? ==> LedgerNext(c, st, x.net, q, l, input) == l
    ensures !input.Happens? && !input.Interacts? && !input.Attaches? && !input.Names? ==>
              TakenBy(c, x, StimulusOf(c, x.net, q, input)) == x
  {
  }

  // The mark a job brings, written to the hop its ID names by now.
  lemma MarkIsTaken(c: Config, x: Scan, j: Job)
    ensures j.stage.Holding? && (j.hashed || j.stage.digest == "") ==>
              TakenBy(c, x, MarkOf(x.net, j)) == OnRead(x, j.id, true, Body, j.stage.digest)
    ensures j.stage.Named? ==>
              TakenBy(c, x, MarkOf(x.net, j)) == if j.hashed then OnRead(x, j.id, true, Name, j.stage.value) else x
  {
    if Live(x.net, j.id) && x.net.current[j.id] < |x.marks| && !j.hashed {
      var k := x.net.current[j.id];
      assert x.marks[k := x.marks[k]] == x.marks;
    }
  }

  // ---------- the ledger shows the scan ----------

  lemma KeptShows(hops: seq<Hop>, at: map<RequestId, nat>, x: Scan, k: nat, kept: Kept)
    requires Shows(hops, at, x) && k < |hops| && (hops[k].seen.hashed ==> kept.wantBody)
    ensures Shows(hops[k := hops[k].(kept := kept)], at, x)
  {
    assert HopShows(hops[k], x.net.records[k], x.marks[k]);
    ChangeShows(hops, at, x, k, hops[k].(kept := kept), x);
  }

  lemma RedirectsShow(hops: seq<Hop>, x: Scan, e: Event)
    requires e.WillBeSent? && Shows(hops, x.net.current, x)
    ensures Shows(RedirectedHops(hops, x.net.current, e), x.net.current, Scan(AfterRedirect(x.net, e), x.marks))
    ensures |AfterRedirect(x.net, e).records| == |x.net.records| && AfterRedirect(x.net, e).phase == x.net.phase
    ensures AfterRedirect(x.net, e).exceeded == x.net.exceeded && AfterRedirect(x.net, e).current == x.net.current
  {
    if e.redirected.Some? {
      RedirectedShows(hops, x.net.current, x, e.id, e.redirected.value, e.url);
    }
  }

  lemma RequestShows(c: Config, st: Storage, x: Scan, q: Queues, l: Ledger, e: Event, post: PostField,
                     dataSink: SinkResult, sink: SinkResult)
    requires e.WillBeSent? && Shows(l.hops, x.net.current, x)
    ensures var x' := OnEvent(c, x, e);
            Shows(LedgerOnRequest(c, st, x.net, q, l, e, post, dataSink, sink).hops, x'.net.current, x')
  {
    RequestHopsShow(c, st, x, l.hops, e, dataSink, PayloadAt(st, x.net, l, e, post, sink), |q.payloads| < QUEUE_SIZE);
  }

  lemma RequestHopsShow(c: Config, st: Storage, x: Scan, hops: seq<Hop>, e: Event, dataSink: SinkResult,
                        p: PayloadResult, room: bool)
    requires e.WillBeSent? && Shows(hops, x.net.current, x)
    ensures var x', before := OnEvent(c, x, e), RedirectedHops(hops, x.net.current, e);
            var first := AskedHop(FirstHop(c, st, x.net.phase, e, dataSink, p), p, room);
            Shows(if Admitted(c, x.net) then before + [first] else before, x'.net.current, x')
  {
    var before, x' := RedirectedHops(hops, x.net.current, e), OnEvent(c, x, e);
    var x1 := Scan(AfterRedirect(x.net, e), x.marks);
    var first := FirstHop(c, st, x.net.phase, e, dataSink, p);
    RedirectsShow(hops, x, e);
    AdmittedShows(before, x.net.current, c, st, x1, e, dataSink, p);
    assert Marked(c, x1, Admit(c, x1.net, e), e) == x';
    if Admitted(c, x.net) {
      ReplaceLast(before, first, AskedHop(first, p, room));
      assert HopShows((before + [first])[|before|], x'.net.records[|before|], x'.marks[|before|]);
      KeptShows(before + [first], x'.net.current, x', |before|, AskedHop(first, p, room).kept);
    }
  }

  lemma FinishedShows(c: Config, x: Scan, q: Queues, hops: seq<Hop>, e: Event)
    requires e.Finished? && Shows(hops, x.net.current, x)
    ensures var x' := OnEvent(c, x, e); Shows(HopsOnFinished(x.net, q, hops, e), x'.net.current, x')
  {
    var x' := OnEvent(c, x, e);
    LoadedShows(c, hops, x.net.current, x, e);
    if LoadWanted(hops, x.net.current, e) {
      var loaded, k := LoadedHops(hops, x.net.current, e), x.net.current[e.id];
      assert HopShows(loaded[k], x'.net.records[k], x'.marks[k]);
      KeptShows(loaded, x'.net.current, x', k, QueuedHop(loaded[k], |q.bodies| < QUEUE_SIZE).kept);
    }
  }

  lemma EventShows(c: Config, st: Storage, x: Scan, q: Queues, l: Ledger, e: Event, post: PostField,
                   dataSink: SinkResult, sink: SinkResult)
    requires Shows(l.hops, x.net.current, x)
    ensures var x' := OnEvent(c, x, e);
            Shows(LedgerOn(c, st, x.net, q, l, e, post, dataSink, sink).hops, x'.net.current, x')
  {
    match e
    case WillBeSent(_, _, _, _, _, _, _, _) => RequestShows(c, st, x, q, l, e, post, dataSink, sink);
    case Response(_, _, _) => RespondedShows(l.hops, x.net.current, c, st.mode, x, e);
    case Finished(_, _) => FinishedShows(c, x, q, l.hops, e);
    case Failed(_, _) => FailedShows(l.hops, x.net.current, c, x, e);
    case WebSocket(_, _, _) =>
      if Admitted(c, x.net) {
        AddShows(l.hops, x.net.current, x, SocketHop(x.net.phase, e), x.net.current, OnEvent(c, x, e));
      }
    case Interacted =>
  }

  lemma AttachedShows(hops: seq<Hop>, x: Scan, id: RequestId, b: BodyResult)
    requires Shows(hops, x.net.current, x)
    ensures var x' := OnRead(x, id, true, Body, b.digest);
            Shows(HopsAttached(hops, x.net.current, id, b), x'.net.current, x')
  {
    MarkIsObserved(hops, x.net.current, x, id, Body, b.digest);
    if IsLive(x.net.current, hops, id) {
      var k := x.net.current[id];
      assert HopShows(hops[k], x.net.records[k], x.marks[k]);
      ChangeShows(hops, x.net.current, x, k, ReadHop(hops[k], b), OnRead(x, id, true, Body, b.digest));
    }
  }

  lemma NamedShows(hops: seq<Hop>, x: Scan, id: RequestId, value: string)
    requires Shows(hops, x.net.current, x)
    ensures var x' := OnRead(x, id, true, Name, value);
            Shows(HopsNamed(hops, x.net.current, id, value), x'.net.current, x')
  {
    MarkIsObserved(hops, x.net.current, x, id, Name, value);
    if IsLive(x.net.current, hops, id) {
      var k := x.net.current[id];
      assert HopShows(hops[k], x.net.records[k], x.marks[k]);
      ChangeShows(hops, x.net.current, x, k, MarkedHop(hops[k], Name, value), OnRead(x, id, true, Name, value));
    }
  }

  lemma DeliveredShows(hops: seq<Hop>, x: Scan, id: RequestId, p: Payload)
    requires Shows(hops, x.net.current, x)
    ensures Shows(HopsDelivered(hops, x.net.current, id, p), x.net.current, x)
  {
    if IsLive(x.net.current, hops, id) {
      PayloadShows(hops, x.net.current, x, x.net.current[id], p);
    }
  }

  lemma StepShows(c: Config, st: Storage, x: Scan, q: Queues, l: Ledger, input: Input)
    requires Shows(l.hops, x.net.current, x) && InStep(q, l)
    ensures var x' := TakenBy(c, x, StimulusOf(c, x.net, q, input));
            Shows(LedgerNext(c, st, x.net, q, l, input).hops, x'.net.current, x')
  {
    hide LedgerOnRequest, OnEvent, HopsAttached, HopsNamed, HopsDelivered, OnRead;
    StepIs(c, st, x, q, l, input);
    match input
    case Happens(e, post, dataSink, sink) => EventShows(c, st, x, q, l, e, post, dataSink, sink);
    case Interacts(_) => EventShows(c, st, x, q, l, Interacted, NoPost, NO_SINK, NO_SINK);
    case Attaches(k) =>
      AttachIs(c, st, x, q, l, k);
      if k < |q.jobs| { AttachedShows(l.hops, x, q.jobs[k].id, l.results[k]); }
    case Names(k) =>
      NameIs(c, st, x, q, l, k);
      if k < |q.jobs| && q.jobs[k].stage.Named? { NamedShows(l.hops, x, q.jobs[k].id, q.jobs[k].stage.value); }
    case Delivers(k) =>
      if IsAnswered(q, k) { DeliveredShows(l.hops, x, q.fetching[k].id, l.payloads[k]); }
    case _ =>
  }

  /** The hops of the ledger are those the scan observes, after every history. */
  lemma {:induction false} LedgerShows(c: Config, st: Storage, h: History)
    ensures var b, l := BookOf(c, st, h), LedgerOf(c, st, h);
            Shows(l.hops, Run(c, b.trace).net.current, Run(c, b.trace)) && InStep(b.queues, l)
  {
    if h.Onto? {
      hide LedgerNext, QueuesNext, StimulusOf, TakenBy, Shows, InStep;
      var b, l := BookOf(c, st, h.before), LedgerOf(c, st, h.before);
      LedgerShows(c, st, h.before);
      FitsNext(c, st, Run(c, b.trace), b.queues, l, h.input);
      StepShows(c, st, Run(c, b.trace), b.queues, l, h.input);
      TraceGrows(c, b.trace, StimulusOf(c, Run(c, b.trace).net, b.queues, h.input));
    }
  }
}
