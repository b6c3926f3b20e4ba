/** What a storing scan counts in the end: every body and payload it owes, once each, and those it came
    by for hops that owe none. */
module Obligations {
  import opened Wrappers
  import opened Observation
  import opened BodyStorage
  import opened Hops
  import opened Traces
  import opened BodyQueues
  import opened Ledgers

  // ---------- what a history gives its hops ----------

  // There is a reference or a reason.
  predicate BodyCame(b: BodyResult) { b.ref != "" || b.unavailable != Given }

  predicate PayloadCame(p: Payload) { p.ref != "" || p.unavailable != Given }

  // There is one from the start.
  predicate PayloadIsThere(p: PayloadResult, room: bool) {
    match p case Unwanted => false case Fetch => !room case Got(payload) => PayloadCame(payload)
  }

  // The hops that have been given a body, or a reason: the request that carries it itself, one whose body
  // finds the queue full, or whichever an ID names when a body that was read is attached.
  function BodiesNext(c: Config, st: Storage, s: State, q: Queues, l: Ledger, given: set<nat>, input: Input): set<nat> {
    match input
    case Happens(e, _, dataSink, _) =>
      if e.WillBeSent? && Admitted(c, s) && CarriesItsBody(c, st, e.data, dataSink) then given + {|s.records|}
      else if Asks(s, q.want, e) && |q.bodies| >= QUEUE_SIZE then given + {s.current[e.id]}
      else given
    case Attaches(k) =>
      if AtHand(q, l, k) && q.jobs[k].stage.Holding? && Live(s, q.jobs[k].id) && BodyCame(l.results[k])
      then given + {s.current[q.jobs[k].id]} else given
    case _ => given
  }

  // The hops that have a payload, or a reason: the request it came with, or whichever an ID names when one
  // that was fetched is delivered.
  function PayloadsNext(c: Config, st: Storage, s: State, q: Queues, l: Ledger, given: set<nat>,
                        input: Input): set<nat> {
    match input
    case Happens(e, post, _, sink) =>
      if e.WillBeSent? && Admitted(c, s)
         && PayloadIsThere(PayloadAt(st, s, l, e, post, sink), |q.payloads| < QUEUE_SIZE)
      then given + {|s.records|} else given
    case Delivers(k) =>
      if IsAnswered(q, k) && k < |l.payloads| && Live(s, q.fetching[k].id)
      then
        var hop := s.current[q.fetching[k].id];
        if PayloadCame(l.payloads[k]) then given + {hop} else given - {hop}
      else given
    case _ => given
  }

  function BodiesGiven(c: Config, st: Storage, h: History): set<nat> {
    match h
    case Begun => {}
    case Onto(before, input) =>
      var b := BookOf(c, st, before);
      BodiesNext(c, st, Run(c, b.trace).net, b.queues, LedgerOf(c, st, before), BodiesGiven(c, st, before), input)
  }

  function PayloadsGiven(c: Config, st: Storage, h: History): set<nat> {
    match h
    case Begun => {}
    case Onto(before, input) =>
      var b := BookOf(c, st, before);
      PayloadsNext(c, st, Run(c, b.trace).net, b.queues, LedgerOf(c, st, before), PayloadsGiven(c, st, before), input)
  }

  // Those of them that owe none in the end.
  function StrayBodies(c: Config, st: Storage, h: History): set<nat> {
    var records := Run(c, BookOf(c, st, h).trace).net.records;
    set k | k in BodiesGiven(c, st, h) && k < |records| && !OwesBody(st.mode, records[k])
  }

  function StrayPayloads(c: Config, st: Storage, h: History): set<nat> {
    var records := Run(c, BookOf(c, st, h).trace).net.records;
    set k | k in PayloadsGiven(c, st, h) && k < |records| && records[k].nonNetwork
  }

  // ---------- the hops have exactly that ----------

  predicate Has(k: Kept, body: bool, payload: bool) {
    HasBody(k) == body && HasPayload(k) == payload && (payload ==> k.wantPayload)
  }

  ghost predicate AllHave(hops: seq<Hop>, bodies: set<nat>, payloads: set<nat>) {
    && (forall k :: k in bodies || k in payloads ==> k < |hops|)
    && forall k :: 0 <= k < |hops| ==> Has(hops[k].kept, k in bodies, k in payloads)
  }

  lemma ChangeHas(hops: seq<Hop>, bodies: set<nat>, payloads: set<nat>, k: nat, h: Hop, bodies': set<nat>,
                  payloads': set<nat>)
    requires AllHave(hops, bodies, payloads) && k < |hops| && Has(h.kept, k in bodies', k in payloads')
    requires forall i :: i != k ==> (i in bodies' <==> i in bodies) && (i in payloads' <==> i in payloads)
    ensures AllHave(hops[k := h], bodies', payloads')
  {
  }

  lemma AddHas(hops: seq<Hop>, bodies: set<nat>, payloads: set<nat>, h: Hop, bodies': set<nat>, payloads': set<nat>)
    requires AllHave(hops, bodies, payloads) && Has(h.kept, |hops| in bodies', |hops| in payloads')
    requires forall i :: i != |hops| ==> (i in bodies' <==> i in bodies) && (i in payloads' <==> i in payloads)
    ensures AllHave(hops + [h], bodies', payloads')
  {
  }

  // A redirect leaves what is kept of the hop it ends.
  lemma RedirectHas(hops: seq<Hop>, at: map<RequestId, nat>, bodies: set<nat>, payloads: set<nat>, e: Event)
    requires e.WillBeSent? && AllHave(hops, bodies, payloads)
    ensures AllHave(RedirectedHops(hops, at, e), bodies, payloads)
  {
  }

  lemma FirstHas(c: Config, st: Storage, phase: Phase, e: Event, dataSink: SinkResult, p: PayloadResult, room: bool)
    requires e.WillBeSent? && Stores(st.mode)
    ensures Has(AskedHop(FirstHop(c, st, phase, e, dataSink, p), p, room).kept,
                CarriesItsBody(c, st, e.data, dataSink), PayloadIsThere(p, room))
  {
  }

  lemma RequestHas(c: Config, st: Storage, x: Scan, q: Queues, l: Ledger, bodies: set<nat>, payloads: set<nat>,
                   e: Event, post: PostField, dataSink: SinkResult, sink: SinkResult)
    requires e.WillBeSent? && Stores(st.mode) && |l.hops| == |x.net.records| && AllHave(l.hops, bodies, payloads)
    ensures var input := Happens(e, post, dataSink, sink);
            AllHave(LedgerOnRequest(c, st, x.net, q, l, e, post, dataSink, sink).hops,
                    BodiesNext(c, st, x.net, q, l, bodies, input), PayloadsNext(c, st, x.net, q, l, payloads, input))
  {
    hide AllHave, FirstHop, PayloadAt, CarriesItsBody;
    var p, room := PayloadAt(st, x.net, l, e, post, sink), |q.payloads| < QUEUE_SIZE;
    RedirectHas(l.hops, x.net.current, bodies, payloads, e);
    FirstHas(c, st, x.net.phase, e, dataSink, p, room);
    if Admitted(c, x.net) {
      assert |RedirectedHops(l.hops, x.net.current, e)| == |l.hops|;
      NoneBeyond(l.hops, bodies, payloads);
      AddHas(RedirectedHops(l.hops, x.net.current, e), bodies, payloads,
             AskedHop(FirstHop(c, st, x.net.phase, e, dataSink, p), p, room),
             BodiesNext(c, st, x.net, q, l, bodies, Happens(e, post, dataSink, sink)),
             PayloadsNext(c, st, x.net, q, l, payloads, Happens(e, post, dataSink, sink)));
    }
  }

  lemma NoneBeyond(hops: seq<Hop>, bodies: set<nat>, payloads: set<nat>)
    requires AllHave(hops, bodies, payloads)
    ensures |hops| !in bodies && |hops| !in payloads
  {
  }

  lemma EventHas(c: Config, st: Storage, x: Scan, q: Queues, l: Ledger, bodies: set<nat>, payloads: set<nat>,
                 e: Event, post: PostField, dataSink: SinkResult, sink: SinkResult)
    requires Stores(st.mode) && Shows(l.hops, x.net.current, x) && InStep(q, l) && AllHave(l.hops, bodies, payloads)
    ensures var input := Happens(e, post, dataSink, sink);
            AllHave(LedgerOn(c, st, x.net, q, l, e, post, dataSink, sink).hops,
                    BodiesNext(c, st, x.net, q, l, bodies, input), PayloadsNext(c, st, x.net, q, l, payloads, input))
  {
    match e
    case WillBeSent(_, _, _, _, _, _, _, _) => RequestHas(c, st, x, q, l, bodies, payloads, e, post, dataSink, sink);
    case Response(id, _, _) =>
      if IsLive(x.net.current, l.hops, id) {
        var k := x.net.current[id];
        ChangeHas(l.hops, bodies, payloads, k, RespondedHop(c, st.mode, l.hops[k], e), bodies, payloads);
      }
    case Finished(_, _) => FinishedHas(x, q, l, bodies, payloads, e);
    case Failed(id, kind) =>
      if IsOpen(x.net.current, l.hops, id) {
        var k := x.net.current[id];
        ChangeHas(l.hops, bodies, payloads, k, FailedHop(l.hops[k], kind), bodies, payloads);
      }
    case WebSocket(_, _, _) =>
      NoneBeyond(l.hops, bodies, payloads);
      AddHas(l.hops, bodies, payloads, SocketHop(x.net.phase, e), bodies, payloads);
    case Interacted =>
  }

  lemma FinishedHas(x: Scan, q: Queues, l: Ledger, bodies: set<nat>, payloads: set<nat>, e: Event)
    requires e.Finished? && Shows(l.hops, x.net.current, x) && InStep(q, l) && AllHave(l.hops, bodies, payloads)
    ensures AllHave(HopsOnFinished(x.net, q, l.hops, e),
                    if Asks(x.net, q.want, e) && |q.bodies| >= QUEUE_SIZE
                    then bodies + {x.net.current[e.id]} else bodies,
                    payloads)
  {
    AsksShown(l.hops, x, q.want, e);
    if IsOpen(x.net.current, l.hops, e.id) {
      var k := x.net.current[e.id];
      var loaded := LoadedHop(l.hops[k], e.length);
      ChangeHas(l.hops, bodies, payloads, k, loaded, bodies, payloads);
      if LoadWanted(l.hops, x.net.current, e) && |q.bodies| >= QUEUE_SIZE {
        ChangeHas(l.hops[k := loaded], bodies, payloads, k, QueuedHop(loaded, false), bodies + {k}, payloads);
      }
    }
  }

  lemma AttachHas(c: Config, st: Storage, x: Scan, q: Queues, l: Ledger, bodies: set<nat>, payloads: set<nat>, k: nat)
    requires Shows(l.hops, x.net.current, x) && AllHave(l.hops, bodies, payloads)
    ensures AllHave(LedgerNext(c, st, x.net, q, l, Attaches(k)).hops,
                    BodiesNext(c, st, x.net, q, l, bodies, Attaches(k)), payloads)
  {
    hide HopShows;
    if AtHand(q, l, k) && q.jobs[k].stage.Holding? && Live(x.net, q.jobs[k].id) {
      var hop := x.net.current[q.jobs[k].id];
      ChangeHas(l.hops, bodies, payloads, hop, ReadHop(l.hops[hop], l.results[k]),
                BodiesNext(c, st, x.net, q, l, bodies, Attaches(k)), payloads);
    }
  }

  lemma NameHas(c: Config, st: Storage, x: Scan, q: Queues, l: Ledger, bodies: set<nat>, payloads: set<nat>, k: nat)
    requires Shows(l.hops, x.net.current, x) && AllHave(l.hops, bodies, payloads)
    ensures AllHave(LedgerNext(c, st, x.net, q, l, Names(k)).hops, bodies, payloads)
  {
    if AtHand(q, l, k) && q.jobs[k].stage.Named? && Live(x.net, q.jobs[k].id) {
      var hop := x.net.current[q.jobs[k].id];
      ChangeHas(l.hops, bodies, payloads, hop, MarkedHop(l.hops[hop], Name, q.jobs[k].stage.value), bodies, payloads);
    }
  }

  lemma DeliverHas(c: Config, st: Storage, x: Scan, q: Queues, l: Ledger, bodies: set<nat>, payloads: set<nat>, k: nat)
    requires Shows(l.hops, x.net.current, x) && AllHave(l.hops, bodies, payloads)
    ensures AllHave(LedgerNext(c, st, x.net, q, l, Delivers(k)).hops, bodies,
                    PayloadsNext(c, st, x.net, q, l, payloads, Delivers(k)))
  {
    if IsAnswered(q, k) && k < |l.payloads| && Live(x.net, q.fetching[k].id) {
      var hop := x.net.current[q.fetching[k].id];
      ChangeHas(l.hops, bodies, payloads, hop, PaidHop(l.hops[hop], l.payloads[k]), bodies,
                PayloadsNext(c, st, x.net, q, l, payloads, Delivers(k)));
    }
  }

  lemma StepHas(c: Config, st: Storage, x: Scan, q: Queues, l: Ledger, bodies: set<nat>, payloads: set<nat>,
                input: Input)
    requires Stores(st.mode) && Shows(l.hops, x.net.current, x) && InStep(q, l) && AllHave(l.hops, bodies, payloads)
    ensures AllHave(LedgerNext(c, st, x.net, q, l, input).hops, BodiesNext(c, st, x.net, q, l, bodies, input),
                    PayloadsNext(c, st, x.net, q, l, payloads, input))
  {
    hide AllHave, Shows, LedgerOn;
    match input
    case Happens(e, post, dataSink, sink) => EventHas(c, st, x, q, l, bodies, payloads, e, post, dataSink, sink);
    case Attaches(k) => AttachHas(c, st, x, q, l, bodies, payloads, k);
    case Names(k) => NameHas(c, st, x, q, l, bodies, payloads, k);
    case Delivers(k) => DeliverHas(c, st, x, q, l, bodies, payloads, k);
    case _ =>
  }

  /** After every history of a storing scan, exactly the hops that were given a body or a payload have one,
      or a reason. */
  lemma {:induction false} HistoryHas(c: Config, st: Storage, h: History)
    requires Stores(st.mode)
    ensures AllHave(LedgerOf(c, st, h).hops, BodiesGiven(c, st, h), PayloadsGiven(c, st, h))
  {
    if h.Onto? {
      hide AllHave, LedgerNext, BodiesNext, PayloadsNext;
      var b := BookOf(c, st, h.before);
      HistoryHas(c, st, h.before);
      LedgerShows(c, st, h.before);
      StepHas(c, st, Run(c, b.trace), b.queues, LedgerOf(c, st, h.before), BodiesGiven(c, st, h.before),
              PayloadsGiven(c, st, h.before), h.input);
    }
  }

  // ---------- counted, hop by hop ----------

  function FirstStrayBodies(mode: Mode, hops: seq<Hop>, bodies: set<nat>, n: nat): set<nat>
    requires n <= |hops|
  {
    set k | k in bodies && k < n && !OwesBody(mode, hops[k].seen)
  }

  function FirstStrayPayloads(hops: seq<Hop>, payloads: set<nat>, n: nat): set<nat>
    requires n <= |hops|
  {
    set k | k in payloads && k < n && hops[k].seen.nonNetwork
  }

  lemma OneMoreBody(mode: Mode, hops: seq<Hop>, bodies: set<nat>, i: nat)
    requires i < |hops|
    ensures |FirstStrayBodies(mode, hops, bodies, i + 1)|
            == |FirstStrayBodies(mode, hops, bodies, i)| + One(i in bodies && !OwesBody(mode, hops[i].seen))
  {
    hide OwesBody;
    var b := FirstStrayBodies(mode, hops, bodies, i);
    assert FirstStrayBodies(mode, hops, bodies, i + 1)
           == if i in bodies && !OwesBody(mode, hops[i].seen) then b + {i} else b;
  }

  lemma OneMorePayload(hops: seq<Hop>, payloads: set<nat>, i: nat)
    requires i < |hops|
    ensures |FirstStrayPayloads(hops, payloads, i + 1)|
            == |FirstStrayPayloads(hops, payloads, i)| + One(i in payloads && hops[i].seen.nonNetwork)
  {
    var p := FirstStrayPayloads(hops, payloads, i);
    assert FirstStrayPayloads(hops, payloads, i + 1) == if i in payloads && hops[i].seen.nonNetwork then p + {i} else p;
  }

  lemma ExtraOfHas(mode: Mode, h: Hop, body: bool, payload: bool)
    requires Stores(mode) && Has(h.kept, body, payload)
    ensures ExtraOf(mode, h) == One(body && !OwesBody(mode, h.seen)) + One(payload && h.seen.nonNetwork)
  {
  }

  lemma {:induction false} ExtraCounts(mode: Mode, hops: seq<Hop>, bodies: set<nat>, payloads: set<nat>, n: nat)
    requires Stores(mode) && AllHave(hops, bodies, payloads) && n <= |hops|
    ensures Extra(mode, hops, n) == |FirstStrayBodies(mode, hops, bodies, n)| + |FirstStrayPayloads(hops, payloads, n)|
  {
    if n == 0 {
      assert FirstStrayBodies(mode, hops, bodies, 0) == {} && FirstStrayPayloads(hops, payloads, 0) == {};
    } else {
      hide FirstStrayBodies, FirstStrayPayloads, ExtraOf, Has, OwesBody;
      ExtraCounts(mode, hops, bodies, payloads, n - 1);
      OneMoreBody(mode, hops, bodies, n - 1);
      OneMorePayload(hops, payloads, n - 1);
      ExtraOfHas(mode, hops[n - 1], n - 1 in bodies, n - 1 in payloads);
    }
  }

  /** What a storing scan holds without owing it are exactly the bodies and payloads that were given to hops
      which owe none in the end. */
  lemma ExtraIsStray(c: Config, st: Storage, h: History)
    requires Stores(st.mode)
    ensures var hops := LedgerOf(c, st, h).hops;
            Extra(st.mode, hops, |hops|) == |StrayBodies(c, st, h)| + |StrayPayloads(c, st, h)|
  {
    var hops, x := LedgerOf(c, st, h).hops, Run(c, BookOf(c, st, h).trace);
    HistoryHas(c, st, h);
    LedgerShows(c, st, h);
    assert forall k :: 0 <= k < |hops| ==> HopShows(hops[k], x.net.records[k], x.marks[k]);
    ExtraCounts(st.mode, hops, BodiesGiven(c, st, h), PayloadsGiven(c, st, h), |hops|);
    assert FirstStrayBodies(st.mode, hops, BodiesGiven(c, st, h), |hops|) == StrayBodies(c, st, h);
    assert FirstStrayPayloads(hops, PayloadsGiven(c, st, h), |hops|) == StrayPayloads(c, st, h);
  }

  // ---------- when nothing strays ----------

  // A payload is still to be fetched, or delivered, under this ID.
  predicate PayloadPending(q: Queues, id: RequestId) {
    id in q.payloads || exists k :: 0 <= k < |q.fetching| && q.fetching[k].id == id
  }

  // No ID begins another request while a body or a payload is still to come under it.
  predicate KeepsIds(q: Queues, input: Input) {
    input.Happens? && input.e.WillBeSent? ==> !Pending(q, input.e.id, Name) && !PayloadPending(q, input.e.id)
  }

  // No request that is recorded carries its body itself.
  predicate CarriesNoBody(c: Config, st: Storage, s: State, input: Input) {
    input.Happens? && input.e.WillBeSent? && Admitted(c, s) ==> !CarriesItsBody(c, st, input.e.data, input.dataSink)
  }

  ghost predicate Tidy(c: Config, st: Storage, h: History) {
    h.Onto? ==>
      && Tidy(c, st, h.before)
      && var b := BookOf(c, st, h.before);
         KeepsIds(b.queues, h.input) && CarriesNoBody(c, st, Run(c, b.trace).net, h.input)
  }

  // A hop whose body is read owes it.
  ghost predicate WantOwes(mode: Mode, s: State, want: seq<bool>) {
    |want| == |s.records| && forall k :: 0 <= k < |want| && want[k] ==> OwesBody(mode, s.records[k])
  }

  // What is still to come is for a hop that owes it.
  ghost predicate PendingOwed(s: State, q: Queues) {
    && (forall id :: Pending(q, id, Name) ==> Live(s, id) && s.current[id] < |q.want| && q.want[s.current[id]])
    && (forall id :: PayloadPending(q, id) ==> Live(s, id) && !s.records[s.current[id]].nonNetwork)
  }

  // And so was what came.
  ghost predicate GivenOwed(mode: Mode, s: State, bodies: set<nat>, payloads: set<nat>) {
    && (forall k :: k in bodies ==> k < |s.records| && OwesBody(mode, s.records[k]))
    && (forall k :: k in payloads ==> k < |s.records| && !s.records[k].nonNetwork)
  }

  lemma KeepsOwing(mode: Mode, s: State, s': State, want: seq<bool>)
    requires WantOwes(mode, s, want) && Extends(s, s')
    ensures forall k :: 0 <= k < |want| && want[k] ==> OwesBody(mode, s'.records[k])
  {
    forall k | 0 <= k < |want| && want[k] ensures OwesBody(mode, s'.records[k]) {
      assert Keeps(s.records[k], s'.records[k]);
    }
  }

  lemma RequestOwes(c: Config, mode: Mode, s: State, want: seq<bool>, e: Event)
    requires Stores(mode) && WantOwes(mode, s, want) && e.WillBeSent?
    ensures WantOwes(mode, OnWillBeSent(c, s, e), WantOn(c, mode, s, want, e))
  {
    var s1 := AfterRedirect(s, e);
    assert |s1.records| == |s.records| && s1.exceeded == s.exceeded && s1.phase == s.phase;
    EndsOnce(c, s, e);
    KeepsOwing(mode, s, OnWillBeSent(c, s, e), want);
    if Admitted(c, s) {
      assert OnWillBeSent(c, s, e).records == s1.records + [NewRequest(c, s.phase, e)];
    }
  }

  lemma ResponseOwes(c: Config, mode: Mode, s: State, want: seq<bool>, e: Event)
    requires Stores(mode) && WantOwes(mode, s, want) && e.Response?
    ensures WantOwes(mode, OnResponse(c, s, e), WantOn(c, mode, s, want, e))
  {
  }

  lemma EventOwes(c: Config, mode: Mode, s: State, want: seq<bool>, e: Event)
    requires Stores(mode) && WantOwes(mode, s, want)
    ensures WantOwes(mode, Observe(c, s, e), WantOn(c, mode, s, want, e))
  {
    hide OnWillBeSent, OnResponse, OwesBody;
    EndsOnce(c, s, e);
    KeepsOwing(mode, s, Observe(c, s, e), want);
    match e
    case WillBeSent(_, _, _, _, _, _, _, _) => RequestOwes(c, mode, s, want, e);
    case Response(_, _, _) => ResponseOwes(c, mode, s, want, e);
    case Finished(_, _) =>
    case Failed(_, _) =>
    case WebSocket(_, _, _) =>
    case Interacted =>
  }

  lemma WantGrows(c: Config, mode: Mode, s: State, want: seq<bool>, e: Event)
    ensures var want' := WantOn(c, mode, s, want, e);
            |want| <= |want'| && forall k :: 0 <= k < |want| && want[k] ==> want'[k]
  {
  }

  lemma BodyStaysOwed(c: Config, st: Storage, s: State, q: Queues, e: Event, post: PostField, id: RequestId)
    requires WantOwes(st.mode, s, q.want) && PendingOwed(s, q) && Pending(QueuesOn(c, st, s, q, e, post), id, Name)
    requires e.WillBeSent? ==> !Pending(q, e.id, Name)
    ensures var s', want' := Observe(c, s, e), WantOn(c, st.mode, s, q.want, e);
            Live(s', id) && s'.current[id] < |want'| && want'[s'.current[id]]
  {
    WantGrows(c, st.mode, s, q.want, e);
    if Pending(q, id, Name) {
      EventKeepsNames(c, s, e, id);
    } else {
      assert Asks(s, q.want, e) && id == e.id;
      EventKeepsNames(c, s, e, id);
    }
  }

  lemma PayloadStaysOwed(c: Config, st: Storage, s: State, q: Queues, e: Event, post: PostField, id: RequestId)
    requires PendingOwed(s, q) && PayloadPending(QueuesOn(c, st, s, q, e, post), id)
    requires e.WillBeSent? ==> !PayloadPending(q, e.id)
    ensures var s' := Observe(c, s, e); Live(s', id) && !s'.records[s'.current[id]].nonNetwork
  {
    if PayloadPending(q, id) {
      EventKeepsNames(c, s, e, id);
      EndsOnce(c, s, e);
      assert Keeps(s.records[s.current[id]], Observe(c, s, e).records[s.current[id]]);
    } else {
      assert AsksForPayload(c, st, s, e, post) && id == e.id;
      NewIsOfNetwork(c, s, e);
    }
  }

  lemma NewIsOfNetwork(c: Config, s: State, e: Event)
    requires e.WillBeSent? && Admitted(c, s) && !IsNonNetwork(e.url)
    ensures var s' := Observe(c, s, e);
            Live(s', e.id) && s'.current[e.id] == |s.records| && !s'.records[|s.records|].nonNetwork
  {
    var s1 := AfterRedirect(s, e);
    assert |s1.records| == |s.records| && s1.exceeded == s.exceeded;
  }

  // What an event asks for is for a hop that owes it, and what was pending still is.
  lemma EventKeepsPending(c: Config, st: Storage, s: State, q: Queues, e: Event, post: PostField)
    requires WantOwes(st.mode, s, q.want) && PendingOwed(s, q)
    requires e.WillBeSent? ==> !Pending(q, e.id, Name) && !PayloadPending(q, e.id)
    ensures PendingOwed(Observe(c, s, e), QueuesOn(c, st, s, q, e, post))
  {
    var s', q' := Observe(c, s, e), QueuesOn(c, st, s, q, e, post);
    forall id | Pending(q', id, Name)
      ensures Live(s', id) && s'.current[id] < |q'.want| && q'.want[s'.current[id]]
    {
      BodyStaysOwed(c, st, s, q, e, post, id);
    }
    forall id | PayloadPending(q', id) ensures Live(s', id) && !s'.records[s'.current[id]].nonNetwork {
      PayloadStaysOwed(c, st, s, q, e, post, id);
    }
  }

  lemma StepKeepsPending(c: Config, st: Storage, s: State, q: Queues, input: Input)
    requires PendingOwed(s, q) && !input.Happens?
    ensures PendingOwed(s, QueuesNext(c, st, s, q, input))
  {
    hide MarkOf, Planned, LookedUp, Concluded;
    var q' := QueuesNext(c, st, s, q, input);
    forall id | Pending(q', id, Name) ensures Pending(q, id, Name) {
      BodyWasPending(c, st, s, q, input, id);
    }
    forall id | PayloadPending(q', id) ensures PayloadPending(q, id) {
      PayloadWasPending(c, st, s, q, input, id);
    }
  }

  // Each job that is left is one that was there, under its ID, or the one just taken.
  lemma JobsKeepIds(c: Config, st: Storage, s: State, q: Queues, input: Input)
    requires !input.Happens?
    ensures var jobs := QueuesNext(c, st, s, q, input).jobs;
            forall k :: 0 <= k < |jobs| ==>
              (exists m :: 0 <= m < |q.jobs| && q.jobs[m].id == jobs[k].id) || jobs[k].id in q.bodies
  {
    var jobs := QueuesNext(c, st, s, q, input).jobs;
    forall k | 0 <= k < |jobs|
      ensures (exists m :: 0 <= m < |q.jobs| && q.jobs[m].id == jobs[k].id) || jobs[k].id in q.bodies
    {
      if k < |q.jobs| {
        var m := if input.Names? && |jobs| < |q.jobs| && k >= input.k then k + 1 else k;
        assert q.jobs[m].id == jobs[k].id;
      }
    }
  }

  lemma BodyWasPending(c: Config, st: Storage, s: State, q: Queues, input: Input, id: RequestId)
    requires !input.Happens? && Pending(QueuesNext(c, st, s, q, input), id, Name)
    ensures Pending(q, id, Name)
  {
    var q' := QueuesNext(c, st, s, q, input);
    JobsKeepIds(c, st, s, q, input);
    if id !in q'.bodies && id !in q.bodies {
      var k :| 0 <= k < |q'.jobs| && q'.jobs[k].id == id && Owes(q'.jobs[k], Name);
      var m :| 0 <= m < |q.jobs| && q.jobs[m].id == q'.jobs[k].id;
      assert Owes(q.jobs[m], Name);
    }
  }

  lemma PayloadWasPending(c: Config, st: Storage, s: State, q: Queues, input: Input, id: RequestId)
    requires !input.Happens? && PayloadPending(QueuesNext(c, st, s, q, input), id)
    ensures PayloadPending(q, id)
  {
    var q' := QueuesNext(c, st, s, q, input);
    if id !in q'.payloads {
      var k :| 0 <= k < |q'.fetching| && q'.fetching[k].id == id;
      if k < |q.fetching| {
        var m := if input.Delivers? && |q'.fetching| < |q.fetching| && k >= input.k then k + 1 else k;
        assert q.fetching[m].id == id;
      } else {
        assert input.TakesPayload? && id == q.payloads[0];
      }
    }
  }

  // A payload that is there from the start is that of a network request.
  lemma PayloadIsOfNetwork(st: Storage, s: State, l: Ledger, e: Event, post: PostField, sink: SinkResult, room: bool)
    requires e.WillBeSent? && PayloadIsThere(PayloadAt(st, s, l, e, post, sink), room)
    ensures !IsNonNetwork(e.url)
  {
  }

  // What comes, comes to a hop that owes it.
  lemma EventGivesOwed(c: Config, st: Storage, s: State, q: Queues, l: Ledger, bodies: set<nat>, payloads: set<nat>,
                       input: Input)
    requires input.Happens? && GivenOwed(st.mode, s, bodies, payloads) && WantOwes(st.mode, s, q.want)
    requires CarriesNoBody(c, st, s, input)
    ensures GivenOwed(st.mode, Observe(c, s, input.e), BodiesNext(c, st, s, q, l, bodies, input),
                      PayloadsNext(c, st, s, q, l, payloads, input))
  {
    hide Observe, OwesBody, PayloadAt, PayloadIsThere, CarriesItsBody, Keeps;
    var e, s' := input.e, Observe(c, s, input.e);
    EndsOnce(c, s, e);
    forall k | k in BodiesNext(c, st, s, q, l, bodies, input)
      ensures k < |s'.records| && OwesBody(st.mode, s'.records[k])
    {
      assert OwesBody(st.mode, s.records[k]) && Keeps(s.records[k], s'.records[k]);
      StillOwes(st.mode, s.records[k], s'.records[k]);
    }
    forall k | k in PayloadsNext(c, st, s, q, l, payloads, input)
      ensures k < |s'.records| && !s'.records[k].nonNetwork
    {
      if k in payloads {
        StaysOfNetwork(s.records[k], s'.records[k]);
      } else {
        PayloadIsOfNetwork(st, s, l, e, input.post, input.sink, |q.payloads| < QUEUE_SIZE);
        NewIsOfNetwork(c, s, e);
      }
    }
  }

  lemma StillOwes(mode: Mode, r: Observed, r': Observed)
    requires Keeps(r, r') && OwesBody(mode, r)
    ensures OwesBody(mode, r')
  {
  }

  lemma StaysOfNetwork(r: Observed, r': Observed)
    requires Keeps(r, r') && !r.nonNetwork
    ensures !r'.nonNetwork
  {
  }

  lemma StepGivesOwed(c: Config, st: Storage, s: State, q: Queues, l: Ledger, bodies: set<nat>, payloads: set<nat>,
                      input: Input)
    requires !input.Happens? && GivenOwed(st.mode, s, bodies, payloads)
    requires WantOwes(st.mode, s, q.want) && PendingOwed(s, q)
    ensures GivenOwed(st.mode, s, BodiesNext(c, st, s, q, l, bodies, input),
                      PayloadsNext(c, st, s, q, l, payloads, input))
  {
    if input.Attaches? && input.k < |q.jobs| {
      assert Pending(q, q.jobs[input.k].id, Name);
    }
    if input.Delivers? && input.k < |q.fetching| {
      assert PayloadPending(q, q.fetching[input.k].id);
    }
  }

  lemma {:induction false} TidyOwes(c: Config, st: Storage, h: History)
    requires Stores(st.mode) && Tidy(c, st, h)
    ensures var b := BookOf(c, st, h);
            var s := Run(c, b.trace).net;
            && WantOwes(st.mode, s, b.queues.want) && PendingOwed(s, b.queues)
            && GivenOwed(st.mode, s, BodiesGiven(c, st, h), PayloadsGiven(c, st, h))
  {
    if h.Onto? {
      hide WantOwes, PendingOwed, GivenOwed, BodiesNext, PayloadsNext, CarriesNoBody;
      var b, l := BookOf(c, st, h.before), LedgerOf(c, st, h.before);
      var s, q := Run(c, b.trace).net, b.queues;
      var bodies, payloads := BodiesGiven(c, st, h.before), PayloadsGiven(c, st, h.before);
      TidyOwes(c, st, h.before);
      match h.input
      case Happens(e, post, _, _) =>
        EventOwes(c, st.mode, s, q.want, e);
        EventKeepsPending(c, st, s, q, e, post);
        EventGivesOwed(c, st, s, q, l, bodies, payloads, h.input);
      case _ => QuietOwes(c, st, b, l, bodies, payloads, h.input);
    }
  }

  lemma QuietOwes(c: Config, st: Storage, b: Book, l: Ledger, bodies: set<nat>, payloads: set<nat>, input: Input)
    requires var s := Run(c, b.trace).net;
             && WantOwes(st.mode, s, b.queues.want) && PendingOwed(s, b.queues)
             && GivenOwed(st.mode, s, bodies, payloads) && !input.Happens?
    ensures var b', s := BookNext(c, st, b, input), Run(c, b.trace).net;
            var s' := Run(c, b'.trace).net;
            && WantOwes(st.mode, s', b'.queues.want) && PendingOwed(s', b'.queues)
            && GivenOwed(st.mode, s', BodiesNext(c, st, s, b.queues, l, bodies, input),
                         PayloadsNext(c, st, s, b.queues, l, payloads, input))
  {
    var s := Run(c, b.trace).net;
    StepKeepsPending(c, st, s, b.queues, input);
    StepGivesOwed(c, st, s, b.queues, l, bodies, payloads, input);
    var s' := Run(c, BookNext(c, st, b, input).trace).net;
    assert s' == if input.Interacts? then s.(phase := Post) else s;
  }

  /** When no ID begins another request while something is still to come under it, and no request carries
      its body itself, nothing strays: each obligation is counted once, and nothing else is. */
  lemma NothingStrays(c: Config, st: Storage, h: History)
    requires Stores(st.mode) && Tidy(c, st, h)
    ensures StrayBodies(c, st, h) == {} && StrayPayloads(c, st, h) == {}
    ensures var hops := LedgerOf(c, st, h).hops; Extra(st.mode, hops, |hops|) == 0
  {
    TidyOwes(c, st, h);
    ExtraIsStray(c, st, h);
    assert StrayBodies(c, st, h) == {} && StrayPayloads(c, st, h) == {};
  }

  /** One that does: a data: URI whose payload is stored, and which counts although it is owed by nobody. */
  lemma DataUriStrays()
    ensures var c, st := Config(10, 0, {}, 100), Storage(StoreAll, false, 0, 100, true);
            var data := Data(1, "", Some(Decoded("d", 1, "data:")));
            var e := WillBeSent("1", "data:,x", "GET", "image", false, None, data, 0);
            StrayBodies(c, st, Onto(Begun, Happens(e, NoPost, Stored("ref"), NO_SINK))) == {0}
  {
    var url := "data:,x";
    assert url[..5] == "data:" && Lower("data:") == "data:";
    assert StartsWith(url, "data:");
    var c, st := Config(10, 0, {}, 100), Storage(StoreAll, false, 0, 100, true);
    var data := Data(1, "", Some(Decoded("d", 1, "data:")));
    var e := WillBeSent("1", url, "GET", "image", false, None, data, 0);
    var h := Onto(Begun, Happens(e, NoPost, Stored("ref"), NO_SINK));
    assert BookOf(c, st, Begun) == Book(Start, IDLE) && BodiesGiven(c, st, Begun) == {};
    assert BodiesGiven(c, st, h) == {0};
    assert Run(c, BookOf(c, st, h).trace).net.records == [NewRequest(c, Pre, e)];
  }
}
