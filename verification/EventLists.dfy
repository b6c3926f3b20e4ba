/** What a list of events alone says about the bodies scans read: which bodies each storage mode
    asks for, which are read in every mode, and on which hops a body that waits can be planned. */
module EventLists {
  import opened Wrappers
  import opened Observation
  import opened BodyStorage
  import opened Traces
  import opened BodyQueues

  predicate OnlyEvents(es: Trace) { es.Then? ==> es.last.Saw? && OnlyEvents(es.before) }

  // Which hops have a body that is read in this mode.
  function WantOf(c: Config, mode: Mode, es: Trace): seq<bool> {
    match es
    case Start => []
    case Then(before, y) =>
      var want := WantOf(c, mode, before);
      if y.Saw? then WantOn(c, mode, Run(c, before).net, want, y.e) else want
  }

  // The last event asks for a body in this mode.
  predicate AsksLast(c: Config, mode: Mode, es: Trace) {
    es.Then? && es.last.Saw? && Asks(Run(c, es.before).net, WantOf(c, mode, es.before), es.last.e)
  }

  // How many bodies are asked for in this mode.
  function Asked(c: Config, mode: Mode, es: Trace): nat {
    if es.Start? then 0 else Asked(c, mode, es.before) + One(AsksLast(c, mode, es))
  }

  function SurelyBy(s: State, y: Stimulus): set<nat> {
    if y.Saw? && y.e.Finished? && Open(s, y.e.id) && s.records[s.current[y.e.id]].hashed
    then {s.current[y.e.id]} else {}
  }

  // The hops that were fingerprinted ones when they loaded: every mode asks for their bodies.
  function Surely(c: Config, es: Trace): set<nat> {
    match es case Start => {} case Then(before, y) => Surely(c, before) + SurelyBy(Run(c, before).net, y)
  }

  // The body that the last event of p asked for can still wait after t. In a queue that is never too
  // full it waits behind all that were asked for before it, and since then.
  predicate MayWait(c: Config, roomy: bool, p: Trace, t: Trace) {
    && Prefix(p, t) && AsksLast(c, StoreAll, p)
    && (roomy ==> Asked(c, StoreAll, t) < Asked(c, StoreAll, p) + QUEUE_SIZE)
  }

  // Taken after t, the body that p asked for is planned as the body of hop i, a fingerprinted one.
  predicate PlannedOn(c: Config, roomy: bool, p: Trace, t: Trace, i: nat) {
    && MayWait(c, roomy, p, t)
    && var s, id := Run(c, t).net, p.last.e.id;
       Live(s, id) && s.current[id] == i && s.records[i].hashed
  }

  ghost predicate CanBePlannedOn(c: Config, roomy: bool, es: Trace, i: nat) {
    exists p, t :: Prefix(t, es) && PlannedOn(c, roomy, p, t, i)
  }

  // The ID of such a hop is not used again.
  predicate KeepsName(s: State, k: nat) {
    k < |s.records| && s.records[k].id in s.current && s.current[s.records[k].id] == k
  }

  // Every such hop loads before as many bodies as a queue has room for have been asked for.
  ghost predicate NoneIsLost(c: Config, es: Trace) {
    forall p :: Prefix(p, es) && p.Then? && SurelyBy(Run(c, p.before).net, p.last) != {} ==>
                  Asked(c, StoreAll, p.before) < QUEUE_SIZE
  }

  /** The events leave no doubt about which bodies are found: hops that every mode reads keep their
      IDs, no body that waits can be taken for that of another fingerprinted hop, and none of
      theirs can find the queue full. */
  ghost predicate NoDoubt(c: Config, roomy: bool, es: Trace) {
    && (forall k :: k in Surely(c, es) ==> KeepsName(Run(c, es).net, k))
    && (forall i :: CanBePlannedOn(c, roomy, es, i) ==> i in Surely(c, es))
    && (roomy || NoneIsLost(c, es))
  }

  // ---------- what is wanted ----------

  predicate WantIsHashed(s: State, want: seq<bool>) {
    |want| == |s.records| && forall i :: 0 <= i < |want| ==> want[i] == s.records[i].hashed
  }

  lemma RequestWantIsHashed(c: Config, mode: Mode, s: State, want: seq<bool>, e: Event)
    requires WantIsHashed(s, want) && mode != StoreAll && e.WillBeSent?
    ensures WantIsHashed(OnWillBeSent(c, s, e), WantOn(c, mode, s, want, e))
  {
    RedirectSameHashed(c, s, e);
    var s1 := AfterRedirect(s, e);
    assert |s1.records| == |s.records| && s1.exceeded == s.exceeded && s1.phase == s.phase;
  }

  lemma EventWantIsHashed(c: Config, mode: Mode, s: State, want: seq<bool>, e: Event)
    requires WantIsHashed(s, want) && mode != StoreAll
    ensures WantIsHashed(Observe(c, s, e), WantOn(c, mode, s, want, e))
  {
    match e
    case WillBeSent(_, _, _, _, _, _, _, _) => RequestWantIsHashed(c, mode, s, want, e);
    case Response(_, _, _) =>
    case Finished(_, _) => EndSameHashed(c, s, e);
    case Failed(_, _) => EndSameHashed(c, s, e);
    case WebSocket(_, _, _) => assert SameHashed(s, OnWebSocket(c, s, e));
    case Interacted =>
  }

  // A mode that does not store every body reads exactly the fingerprinted ones; every mode reads those.
  lemma {:induction false} WantedAre(c: Config, mode: Mode, es: Trace)
    ensures HashedWanted(Run(c, es).net, WantOf(c, mode, es))
    ensures mode != StoreAll ==> WantIsHashed(Run(c, es).net, WantOf(c, mode, es))
  {
    if es.Then? {
      WantedAre(c, mode, es.before);
      if es.last.Saw? {
        EventKeepsWanted(c, mode, Run(c, es.before).net, WantOf(c, mode, es.before), es.last.e);
        if mode != StoreAll {
          EventWantIsHashed(c, mode, Run(c, es.before).net, WantOf(c, mode, es.before), es.last.e);
        }
      }
    }
  }

  // A hop that was fingerprinted when it loaded is asked for in every mode, and in a mode that does
  // not store every body nothing else is.
  lemma SurelyAsks(c: Config, mode: Mode, es: Trace)
    requires es.Then? && es.last.Saw?
    ensures SurelyBy(Run(c, es.before).net, es.last) != {} ==> AsksLast(c, mode, es)
    ensures mode != StoreAll && AsksLast(c, mode, es) ==>
              SurelyBy(Run(c, es.before).net, es.last) == {Run(c, es.before).net.current[es.last.e.id]}
  {
    WantedAre(c, mode, es.before);
  }

  // What any mode asks for, the mode that stores every body asks for.
  lemma {:induction false} AllAsksMost(c: Config, mode: Mode, es: Trace)
    requires OnlyEvents(es)
    ensures AsksLast(c, mode, es) ==> AsksLast(c, StoreAll, es)
    ensures Asked(c, mode, es) <= Asked(c, StoreAll, es)
  {
    if es.Then? {
      AllAsksMost(c, mode, es.before);
      if mode != StoreAll {
        SurelyAsks(c, mode, es);
        SurelyAsks(c, StoreAll, es);
      }
    }
  }

  // ---------- hops and their IDs ----------

  predicate NamesAreTheirs(s: State) {
    forall id :: id in s.current ==> s.current[id] < |s.records| && s.records[s.current[id]].id == id
  }

  lemma EventKeepsTheirNames(c: Config, s: State, e: Event)
    requires NamesAreTheirs(s)
    ensures NamesAreTheirs(Observe(c, s, e))
  {
    var s' := Observe(c, s, e);
    EndsOnce(c, s, e);
    EventTakesName(c, s, e);
    if e.WillBeSent? {
      NewIsNamed(c, s, e);
    }
    forall id | id in s'.current ensures s'.current[id] < |s'.records| && s'.records[s'.current[id]].id == id {
      if id in s.current && s'.current[id] == s.current[id] {
        assert Keeps(s.records[s.current[id]], s'.records[s.current[id]]);
      }
    }
  }

  lemma NewIsNamed(c: Config, s: State, e: Event)
    requires e.WillBeSent?
    ensures var s' := OnWillBeSent(c, s, e); |s'.records| > |s.records| ==> s'.records[|s.records|].id == e.id
  {
    var s1 := AfterRedirect(s, e);
    assert |s1.records| == |s.records|;
  }

  lemma {:induction false} TheirNames(c: Config, es: Trace)
    ensures NamesAreTheirs(Run(c, es).net)
  {
    if es.Then? {
      TheirNames(c, es.before);
      if es.last.Saw? {
        EventKeepsTheirNames(c, Run(c, es.before).net, es.last.e);
      }
    }
  }

  // A hop that loaded has ended, and is a fingerprinted one for good.
  predicate IsSure(s: State, k: nat) { k < |s.records| && s.records[k].finished && s.records[k].hashed }

  lemma {:induction false} SurelyAre(c: Config, es: Trace)
    ensures forall k :: k in Surely(c, es) ==> IsSure(Run(c, es).net, k)
  {
    if es.Then? {
      SurelyAre(c, es.before);
      var s := Run(c, es.before).net;
      if es.last.Saw? {
        EndsOnce(c, s, es.last.e);
        forall k | k in Surely(c, es) ensures IsSure(Run(c, es).net, k) {
          if k in Surely(c, es.before) {
            assert Keeps(s.records[k], Run(c, es).net.records[k]);
          } else {
            EndSameHashed(c, s, es.last.e);
          }
        }
      }
    }
  }

  lemma {:induction false} SurelyGrows(c: Config, p: Trace, t: Trace)
    requires Prefix(p, t)
    ensures Surely(c, p) <= Surely(c, t)
    decreases t
  {
    if p != t {
      SurelyGrows(c, p, t.before);
    }
  }

  lemma {:induction false} AskedGrows(c: Config, mode: Mode, p: Trace, t: Trace)
    requires Prefix(p, t)
    ensures Asked(c, mode, p) <= Asked(c, mode, t)
    decreases t
  {
    if p != t {
      AskedGrows(c, mode, p, t.before);
    }
  }

  // An ID that names such a hop names it from then on.
  lemma NameStays(c: Config, roomy: bool, p: Trace, t: Trace, es: Trace, id: RequestId)
    requires Prefix(p, t) && Prefix(t, es) && NoDoubt(c, roomy, es)
    requires id in Run(c, p).net.current && Run(c, p).net.current[id] in Surely(c, es)
    ensures id in Run(c, t).net.current && Run(c, t).net.current[id] == Run(c, p).net.current[id]
    ensures NamesAreTheirs(Run(c, t).net)
  {
    var k := Run(c, p).net.current[id];
    TheirNames(c, p);
    TheirNames(c, t);
    PrefixTransitive(p, t, es);
    TraceNamesAdvance(c, p, t);
    TraceNamesAdvance(c, t, es);
    TraceExtends(c, p, es);
    assert Keeps(Run(c, p).net.records[k], Run(c, es).net.records[k]);
    assert KeepsName(Run(c, es).net, k);
  }
}
