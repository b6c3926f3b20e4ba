/** When storing bodies can show in what a scan observes: exactly when the events leave doubt about
    which bodies are found, and which events do. */
module Doubts {
  import opened Observation
  import opened BodyStorage
  import opened Hops
  import opened Traces
  import opened BodyQueues
  import opened EventLists
  import opened Independence
  import opened Timelines

  // A scan of these events that finds what the oracle says and has read all it asked for.
  ghost predicate ScanOf(c: Config, roomy: bool, st: Storage, es: Trace, h: History, oracle: nat -> Mark) {
    EventsOf(h) == es && Fair(c, roomy, st, h, oracle) && Drained(BookOf(c, st, h).queues)
  }

  // However two such scans with these storages go, they observe the same.
  ghost predicate StorageHides(c: Config, roomy: bool, st: Storage, st': Storage, es: Trace) {
    forall h, h', oracle :: ScanOf(c, roomy, st, es, h, oracle) && ScanOf(c, roomy, st', es, h', oracle) ==>
                              Run(c, BookOf(c, st, h).trace) == Run(c, BookOf(c, st', h').trace)
  }

  lemma NoDoubtHides(c: Config, roomy: bool, st: Storage, st': Storage, h: History, h': History, oracle: nat -> Mark)
    requires NoDoubt(c, roomy, EventsOf(h)) && EventsOf(h) == EventsOf(h')
    requires ScanOf(c, roomy, st, EventsOf(h), h, oracle) && ScanOf(c, roomy, st', EventsOf(h), h', oracle)
    ensures Run(c, BookOf(c, st, h).trace) == Run(c, BookOf(c, st', h').trace)
  {
    FindsExactly(c, roomy, st, h);
    FindsExactly(c, roomy, st', h');
    SameHistoriesExactly(c, st, st', h, h', oracle);
  }

  // ---------- each doubt shows ----------

  // A digest that the events alone do not give to hop k.
  function Unlike(c: Config, es: Trace, k: nat): string {
    if k < |Run(c, es).marks| then Run(c, es).marks[k].sha256 + "x" else "x"
  }

  // Two scans of which only one has found the digest of hop k.
  lemma OnlyOneFound(c: Config, st: Storage, st': Storage, h: History, h': History, k: nat)
    requires EventsOf(h) == EventsOf(h') && k < |Run(c, EventsOf(h)).net.records|
    requires AllGive(c, st, h, Always(Unlike(c, EventsOf(h), k)))
    requires AllGive(c, st', h', Always(Unlike(c, EventsOf(h), k)))
    requires (Spot(k, Body) in Digested(c, BookOf(c, st, h).trace))
             != (Spot(k, Body) in Digested(c, BookOf(c, st', h').trace))
    ensures Run(c, BookOf(c, st, h).trace) != Run(c, BookOf(c, st', h').trace)
  {
    hide BookOf, AllGive, Run, Digested;
    var oracle := Always(Unlike(c, EventsOf(h), k));
    SameHistoriesExactly(c, st, st', h, h', oracle);
    TraceHasTheEvents(c, st, h);
    RunAgrees(c, EventsOf(h));
    assert !Silent(c, EventsOf(h), Spot(k, Body), oracle);
  }

  lemma {:induction false} StartsWithStart(t: Trace)
    ensures Prefix(Start, t)
  {
    if t.Then? {
      StartsWithStart(t.before);
    }
  }

  lemma {:induction false} PrefixOnlyEvents(p: Trace, es: Trace)
    requires Prefix(p, es) && OnlyEvents(es)
    ensures OnlyEvents(p)
    decreases es
  {
    if p != es {
      PrefixOnlyEvents(p, es.before);
    }
  }

  lemma BegunIsFair(c: Config, st: Storage, oracle: nat -> Mark)
    ensures forall roomy :: Fair(c, roomy, st, Begun, oracle)
  {
  }

  // A scan that reads each body as it is asked for finds exactly what every mode reads.
  lemma PromptFinds(c: Config, roomy: bool, st: Storage, es: Trace, digest: string) returns (h: History)
    requires OnlyEvents(es) && c.maxBodyBytes >= 0
    ensures Fair(c, roomy, st, h, Always(digest)) && EventsOf(h) == es
    ensures BookOf(c, st, h).queues.bodies == [] && BookOf(c, st, h).queues.jobs == []
    ensures forall x :: x in Digested(c, BookOf(c, st, h).trace) <==> x.hop in Surely(c, es)
  {
    StartsWithStart(es);
    h := Prompt(c, st, es, Start, Begun, 0, digest);
    PromptWorks(c, roomy, st, es, Start, Begun, digest);
  }

  // The event that hop k loaded with.
  lemma {:induction false} LoadOf(c: Config, es: Trace, k: nat) returns (p: Trace)
    requires k in Surely(c, es)
    ensures Prefix(p, es) && p.Then? && k in SurelyBy(Run(c, p.before).net, p.last)
  {
    if k in SurelyBy(Run(c, es.before).net, es.last) {
      p := es;
    } else {
      p := LoadOf(c, es.before, k);
    }
  }

  // A body that was just asked for, alone in its queue, has been taken.
  lemma TakeAlone(c: Config, roomy: bool, st: Storage, p: Trace, digest: string) returns (h: History)
    requires OnlyEvents(p) && c.maxBodyBytes >= 0 && AsksLast(c, st.mode, p)
    ensures Fair(c, roomy, st, h, Always(digest)) && EventsOf(h) == p
    ensures BookOf(c, st, h).queues.bodies == [p.last.e.id] && BookOf(c, st, h).queues.jobs == []
    ensures forall x :: x in Digested(c, BookOf(c, st, h).trace) <==> x.hop in Surely(c, p.before)
  {
    var h1 := PromptFinds(c, roomy, st, p.before, digest);
    h := Onto(h1, Shown(p.last));
    ShowStep(c, st, p, h1);
    ShowIsFair(c, roomy, st, p, h1, Always(digest));
  }

  // It has been taken, and is in hand.
  lemma TakeInHand(c: Config, roomy: bool, st: Storage, p: Trace, digest: string) returns (h: History)
    requires OnlyEvents(p) && c.maxBodyBytes >= 0 && AsksLast(c, st.mode, p)
    ensures Fair(c, roomy, st, h, Always(digest)) && EventsOf(h) == p
    ensures var q := BookOf(c, st, h).queues;
            q.bodies == [] && |q.jobs| == 1 && q.jobs[0].id == p.last.e.id && q.jobs[0].stage.Reading?
    ensures forall x :: x in Digested(c, BookOf(c, st, h).trace) <==> x.hop in Surely(c, p.before)
  {
    var h1 := TakeAlone(c, roomy, st, p, digest);
    h := Onto(h1, TakesBody);
  }

  /** A body that is in hand until its ID names another hop is not found. */
  lemma HeldTooLong(c: Config, roomy: bool, st: Storage, es: Trace, k: nat, digest: string) returns (h: History)
    requires OnlyEvents(es) && c.maxBodyBytes >= 0 && k in Surely(c, es) && !KeepsName(Run(c, es).net, k)
    ensures ScanOf(c, roomy, st, es, h, Always(digest)) && Spot(k, Body) !in Digested(c, BookOf(c, st, h).trace)
  {
    hide BookNext, Fair, Prompt, ReadOut, KeepsName, SurelyBy;
    var p := LoadOf(c, es, k);
    PrefixOnlyEvents(p, es);
    SurelyAsks(c, st.mode, p);
    var h1 := TakeInHand(c, roomy, st, p, digest);
    var h2 := Prompt(c, st, es, p, h1, 1, digest);
    PromptWorks(c, roomy, st, es, p, h1, digest);
    h := ReadOut(h2, 0, digest);
    ReadOutBook(c, st, h2, 0, digest);
    ReadOutIsFair(c, roomy, st, h2, 0, digest);
    LoadsOnce(c, p.before, p);
    NameIsLost(c, es, p, k);
    BookMatches(c, st, h2);
  }

  lemma NameIsLost(c: Config, es: Trace, p: Trace, k: nat)
    requires Prefix(p, es) && p.Then? && k in SurelyBy(Run(c, p.before).net, p.last)
    requires !KeepsName(Run(c, es).net, k)
    ensures var s := Run(c, es).net; p.last.e.id in s.current ==> s.current[p.last.e.id] != k
  {
    assert Prefix(p.before, p);
    PrefixTransitive(p.before, p, es);
    TheirNames(c, p.before);
    TraceExtends(c, p.before, es);
    assert Keeps(Run(c, p.before).net.records[k], Run(c, es).net.records[k]);
  }

  /** A body that waits until its ID names another hop, or until its hop is a fingerprinted one, is
      found as that hop's. */
  lemma TakenForAnother(c: Config, roomy: bool, st: Storage, es: Trace, i: nat, digest: string) returns (h: History)
    requires OnlyEvents(es) && c.maxBodyBytes >= 0 && st.mode == StoreAll && CanBePlannedOn(c, roomy, es, i)
    ensures ScanOf(c, roomy, st, es, h, Always(digest)) && Spot(i, Body) in Digested(c, BookOf(c, st, h).trace)
  {
    hide BookNext, Fair, Prompt, Plain, ReadSome, Asks;
    var p, t :| Prefix(t, es) && PlannedOn(c, roomy, p, t, i);
    PrefixOnlyEvents(t, es);
    PrefixOnlyEvents(p, t);
    var h1 := TakeAlone(c, roomy, st, p, digest);
    var h2 := Plain(t, p, h1);
    PlainWorks(c, roomy, st, t, p, h1, Always(digest));
    var m := |BookOf(c, st, h2).queues.bodies|;
    var h3 := ReadSome(h2, m, 0, digest);
    ReadSomeWorks(c, roomy, st, h2, m, digest);
    h := Prompt(c, st, es, t, h3, 0, digest);
    PromptWorks(c, roomy, st, es, t, h3, digest);
    BookMatches(c, st, h2);
  }

  // ---------- a queue that is full ----------

  // Once its body was asked for, a hop keeps its ID.
  ghost predicate LoadsKeepNames(c: Config, es: Trace) {
    forall q :: Prefix(q, es) && AsksLast(c, StoreAll, q) ==> KeepsName(Run(c, es).net, HopOf(c, q))
  }

  // The hop that the last event is about.
  function HopOf(c: Config, q: Trace): nat
    requires AsksLast(c, StoreAll, q)
  {
    Run(c, q.before).net.current[q.last.e.id]
  }

  lemma {:induction false} QueuedWereAsked(c: Config, st: Storage, h: History)
    ensures AllAskedBefore(c, false, st.mode, EventsOf(h), BookOf(c, st, h).queues.bodies)
  {
    if h.Onto? {
      hide AllAskedBefore, AsksLast;
      QueuedWereAsked(c, st, h.before);
      StepKeepsAsked(c, st, h.before, h.input);
    } else {
      assert BookOf(c, st, h).queues.bodies == [];
    }
  }

  lemma StepKeepsAsked(c: Config, st: Storage, h: History, input: Input)
    requires AllAskedBefore(c, false, st.mode, EventsOf(h), BookOf(c, st, h).queues.bodies)
    ensures AllAskedBefore(c, false, st.mode, EventsOf(Onto(h, input)), BookOf(c, st, Onto(h, input)).queues.bodies)
  {
    hide AllAskedBefore;
    BookMatches(c, st, h);
    var bodies := BookOf(c, st, h).queues.bodies;
    match input
    case Happens(e, _, _, _) => EventAsksBefore(c, false, st.mode, EventsOf(h), e, bodies);
    case Interacts(_) => EventAsksBefore(c, false, st.mode, EventsOf(h), Interacted, bodies);
    case TakesBody => if bodies != [] { TakeKeepsAsked(c, false, st.mode, EventsOf(h), bodies); }
    case _ =>
  }

  // No body that waits is that of a hop that has not loaded yet.
  lemma OthersWait(c: Config, es: Trace, p: Trace, k: nat, bodies: seq<RequestId>)
    requires Prefix(p, es) && p.Then? && k in SurelyBy(Run(c, p.before).net, p.last) && LoadsKeepNames(c, es)
    requires AllAskedBefore(c, false, StoreAll, p.before, bodies)
    ensures !NamedByOne(Run(c, p).net, bodies, k)
  {
    var s := Run(c, p).net;
    forall m | 0 <= m < |bodies| && bodies[m] in s.current ensures s.current[bodies[m]] != k {
      assert AskedBefore(c, false, StoreAll, p.before, bodies[m], |bodies| - 1 - m);
      var q :| Prefix(q, p.before) && AsksLast(c, StoreAll, q) && q.last.e.id == bodies[m];
      OtherWaits(c, es, p, q, k);
    }
  }

  lemma OtherWaits(c: Config, es: Trace, p: Trace, q: Trace, k: nat)
    requires Prefix(p, es) && p.Then? && k in SurelyBy(Run(c, p.before).net, p.last) && LoadsKeepNames(c, es)
    requires Prefix(q, p.before) && AsksLast(c, StoreAll, q)
    ensures var s, id := Run(c, p).net, q.last.e.id; id in s.current && s.current[id] != k
  {
    hide LoadsKeepNames, NamesAreTheirs;
    var id, j := q.last.e.id, HopOf(c, q);
    assert Prefix(q, p) && Prefix(q.before, q);
    PrefixTransitive(q, p, es);
    PrefixTransitive(q.before, q, p);
    AskedKeepsName(c, es, q);
    TraceNamesAdvance(c, q.before, p);
    TraceNamesAdvance(c, p, es);
    TraceExtends(c, q, p.before);
    assert Keeps(Run(c, q).net.records[j], Run(c, p.before).net.records[j]);
  }

  lemma AskedKeepsName(c: Config, es: Trace, q: Trace)
    requires Prefix(q, es) && AsksLast(c, StoreAll, q) && LoadsKeepNames(c, es)
    ensures var s, j := Run(c, es).net, HopOf(c, q);
            && q.last.e.id in s.current && s.current[q.last.e.id] == j
            && j < |Run(c, q).net.records| && Run(c, q).net.records[j].finished
            && q.last.e.id in Run(c, q.before).net.current
  {
    var j := HopOf(c, q);
    assert Prefix(q.before, q);
    PrefixTransitive(q.before, q, es);
    TheirNames(c, q.before);
    TraceExtends(c, q.before, es);
    assert Keeps(Run(c, q.before).net.records[j], Run(c, es).net.records[j]);
    assert KeepsName(Run(c, es).net, j);
  }

  /** A body that is asked for when as many are waiting as the queue has room for is never read. */
  lemma LostInQueue(c: Config, st: Storage, es: Trace, p: Trace, k: nat, digest: string) returns (h: History)
    requires OnlyEvents(es) && c.maxBodyBytes >= 0 && st.mode == StoreAll && LoadsKeepNames(c, es)
    requires Prefix(p, es) && p.Then? && k in SurelyBy(Run(c, p.before).net, p.last)
    requires Asked(c, StoreAll, p.before) >= QUEUE_SIZE
    ensures ScanOf(c, false, st, es, h, Always(digest)) && Spot(k, Body) !in Digested(c, BookOf(c, st, h).trace)
  {
    hide BookNext, Fair, Prompt, Plain, ReadSome, NamedByOne, LoadsKeepNames;
    PrefixOnlyEvents(p, es);
    StartsWithStart(p.before);
    var h1 := Plain(p.before, Start, Begun);
    BegunIsFair(c, st, Always(digest));
    PlainWorks(c, false, st, p.before, Start, Begun, Always(digest));
    var h2 := Onto(h1, Shown(p.last));
    ShowStep(c, st, p, h1);
    ShowIsFair(c, false, st, p, h1, Always(digest));
    var bodies := BookOf(c, st, h1).queues.bodies;
    QueuedWereAsked(c, st, h1);
    OthersWait(c, es, p, k, bodies);
    var h3 := ReadSome(h2, QUEUE_SIZE, 0, digest);
    ReadSomeWorks(c, false, st, h2, QUEUE_SIZE, digest);
    h := Prompt(c, st, es, p, h3, 0, digest);
    PromptWorks(c, false, st, es, p, h3, digest);
    BookMatches(c, st, h2);
    NotFound(c, st, BookOf(c, st, h2), BookOf(c, st, h3), k);
  }

  lemma NotFound(c: Config, st: Storage, b: Book, b': Book, k: nat)
    requires SomeRead(c, st, b, b', QUEUE_SIZE) && Digested(c, b.trace) == {}
    requires !NamedByOne(Run(c, b.trace).net, b.queues.bodies, k)
    ensures Spot(k, Body) !in Digested(c, b'.trace)
  {
  }

  // ---------- exactly ----------

  // The doubt that each of the three leaves about one hop.
  lemma DoubtShows(c: Config, roomy: bool, st: Storage, st': Storage, es: Trace)
    returns (h: History, h': History, oracle: nat -> Mark)
    requires OnlyEvents(es) && c.maxBodyBytes >= 0 && st'.mode == StoreAll && (roomy || LoadsKeepNames(c, es))
    requires !NoDoubt(c, roomy, es)
    ensures ScanOf(c, roomy, st, es, h, oracle) && ScanOf(c, roomy, st', es, h', oracle)
    ensures Run(c, BookOf(c, st, h).trace) != Run(c, BookOf(c, st', h').trace)
  {
    var k: nat;
    k, h' := DoubtIsSeen(c, roomy, st', es);
    oracle := Always(Unlike(c, es, k));
    h := PromptFinds(c, roomy, st, es, Unlike(c, es, k));
    OnlyOneFound(c, st, st', h, h', k);
  }

  lemma DoubtIsSeen(c: Config, roomy: bool, st: Storage, es: Trace) returns (k: nat, h: History)
    requires OnlyEvents(es) && c.maxBodyBytes >= 0 && st.mode == StoreAll && (roomy || LoadsKeepNames(c, es))
    requires !NoDoubt(c, roomy, es)
    ensures ScanOf(c, roomy, st, es, h, Always(Unlike(c, es, k))) && k < |Run(c, es).net.records|
    ensures (Spot(k, Body) in Digested(c, BookOf(c, st, h).trace)) != (k in Surely(c, es))
  {
    SurelyAre(c, es);
    if i :| CanBePlannedOn(c, roomy, es, i) && i !in Surely(c, es) {
      k := i;
      h := TakenForAnother(c, roomy, st, es, k, Unlike(c, es, k));
      DigestedInRange(c, BookOf(c, st, h).trace);
      BookMatches(c, st, h);
    } else if i :| i in Surely(c, es) && !KeepsName(Run(c, es).net, i) {
      k := i;
      h := HeldTooLong(c, roomy, st, es, k, Unlike(c, es, k));
    } else {
      var p :| Prefix(p, es) && p.Then? && SurelyBy(Run(c, p.before).net, p.last) != {}
               && Asked(c, StoreAll, p.before) >= QUEUE_SIZE;
      k := Run(c, p.before).net.current[p.last.e.id];
      SurelyGrows(c, p, es);
      h := LostInQueue(c, st, es, p, k, Unlike(c, es, k));
    }
  }

  /** Storing every body can show in what is observed - some scan that stores them differs from some
      scan, with whatever storage, of the same events and the same bodies - exactly when the
      events leave doubt. With roomy, of the scans whose queue is never too full, whatever IDs are
      used; without it, of all scans, when no ID is used again once its body was asked for. */
  lemma StorageShowsExactly(c: Config, roomy: bool, st: Storage, st': Storage, es: Trace)
    requires OnlyEvents(es) && c.maxBodyBytes >= 0 && st'.mode == StoreAll && (roomy || LoadsKeepNames(c, es))
    ensures StorageHides(c, roomy, st, st', es) <==> NoDoubt(c, roomy, es)
  {
    if NoDoubt(c, roomy, es) {
      forall h, h', oracle | ScanOf(c, roomy, st, es, h, oracle) && ScanOf(c, roomy, st', es, h', oracle)
        ensures Run(c, BookOf(c, st, h).trace) == Run(c, BookOf(c, st', h').trace)
      {
        NoDoubtHides(c, roomy, st, st', h, h', oracle);
      }
    } else {
      var h, h', oracle := DoubtShows(c, roomy, st, st', es);
    }
  }

  // ---------- which events leave doubt ----------

  // The last event of t is a response that makes the hop p asked for the body of a fingerprinted one,
  // while that body can still be waiting.
  predicate TurnsLate(c: Config, roomy: bool, p: Trace, t: Trace) {
    && t.Then? && t.last.Saw? && MayWait(c, roomy, p, t.before)
    && TurnsLoaded(c, Run(c, t.before).net, {HopOf(c, p)}, t.last.e)
  }

  ghost predicate NoneTurnsLate(c: Config, roomy: bool, es: Trace) {
    forall p, t :: Prefix(t, es) ==> !TurnsLate(c, roomy, p, t)
  }

  lemma SureKeepNames(c: Config, es: Trace)
    requires LoadsKeepNames(c, es)
    ensures forall k :: k in Surely(c, es) ==> KeepsName(Run(c, es).net, k)
  {
    forall k | k in Surely(c, es) ensures KeepsName(Run(c, es).net, k) {
      var p := LoadOf(c, es, k);
      SurelyAsks(c, StoreAll, p);
      assert HopOf(c, p) == k;
    }
  }

  // A hop that has ended is not among them later if it is not by then.
  lemma {:induction false} NeverAgain(c: Config, q: Trace, es: Trace, k: nat)
    requires Prefix(q, es) && k < |Run(c, q).net.records| && Run(c, q).net.records[k].finished && k !in Surely(c, q)
    ensures k !in Surely(c, es)
    decreases es
  {
    if q != es {
      NeverAgain(c, q, es.before, k);
      TraceExtends(c, q, es.before);
      assert Keeps(Run(c, q).net.records[k], Run(c, es.before).net.records[k]);
    }
  }

  // Its ID names the hop from the moment it loads.
  lemma NamedSinceLoad(c: Config, es: Trace, p: Trace, t: Trace)
    requires Prefix(p, t) && Prefix(t, es) && AsksLast(c, StoreAll, p) && LoadsKeepNames(c, es)
    ensures var s, j := Run(c, t).net, HopOf(c, p);
            && Live(s, p.last.e.id) && s.current[p.last.e.id] == j && s.records[j].finished
  {
    hide LoadsKeepNames, WantOf, Asks, Run;
    var j := HopOf(c, p);
    assert Prefix(p.before, p);
    PrefixTransitive(p, t, es);
    PrefixTransitive(p.before, p, t);
    AskedKeepsName(c, es, p);
    TraceNamesAdvance(c, p.before, t);
    TraceNamesAdvance(c, t, es);
    TraceExtends(c, p, t);
    assert Keeps(Run(c, p).net.records[j], Run(c, t).net.records[j]);
  }

  lemma LateTurnIsDoubt(c: Config, roomy: bool, es: Trace, p: Trace, t: Trace)
    requires LoadsKeepNames(c, es) && Prefix(t, es) && TurnsLate(c, roomy, p, t)
    ensures CanBePlannedOn(c, roomy, es, HopOf(c, p)) && HopOf(c, p) !in Surely(c, es)
  {
    var j := HopOf(c, p);
    assert Prefix(t.before, t) && Prefix(p, t);
    PrefixTransitive(t.before, t, es);
    NamedSinceLoad(c, es, p, t);
    NamedSinceLoad(c, es, p, t.before);
    assert PlannedOn(c, roomy, p, t, j);
    SurelyAre(c, t.before);
    NeverAgain(c, t.before, es, j);
  }

  // Where a hop has become a fingerprinted one.
  lemma {:induction false} TurnedBetween(c: Config, roomy: bool, es: Trace, p: Trace, t: Trace) returns (t': Trace)
    requires LoadsKeepNames(c, es) && OnlyEvents(t) && Prefix(t, es) && MayWait(c, roomy, p, t)
    requires !Run(c, p.before).net.records[HopOf(c, p)].hashed
    requires HopOf(c, p) < |Run(c, t).net.records| && Run(c, t).net.records[HopOf(c, p)].hashed
    ensures Prefix(t', es) && TurnsLate(c, roomy, p, t')
    decreases t
  {
    var j := HopOf(c, p);
    if t == p {
      EndSameHashed(c, Run(c, p.before).net, p.last.e);
      assert false;
    }
    assert Prefix(t.before, t);
    PrefixTransitive(t.before, t, es);
    NamedSinceLoad(c, es, p, t.before);
    if Run(c, t.before).net.records[j].hashed {
      t' := TurnedBetween(c, roomy, es, p, t.before);
    } else {
      TurnsByResponse(c, Run(c, t.before).net, t.last.e, j);
      t' := t;
    }
  }

  lemma TurnsByResponse(c: Config, s: State, e: Event, j: nat)
    requires j < |s.records| && !s.records[j].hashed
    requires j < |Observe(c, s, e).records| && Observe(c, s, e).records[j].hashed
    ensures TurnsLoaded(c, s, {j}, e)
  {
    if !(e.Response? && e.id in s.current) {
      HashedStays(c, s, e);
    }
  }

  /** When no ID is used again once its body was asked for, two things leave doubt: a response that
      makes a hop a fingerprinted one after it has loaded, while its body can still be waiting;
      and, in scans whose queue may be full, a fingerprinted hop that loads when as many bodies
      as a queue has room for have been asked for. */
  lemma OnlyLateOrLost(c: Config, roomy: bool, es: Trace)
    requires OnlyEvents(es) && LoadsKeepNames(c, es)
    ensures NoDoubt(c, roomy, es) <==> NoneTurnsLate(c, roomy, es) && (roomy || NoneIsLost(c, es))
  {
    SureKeepNames(c, es);
    if NoDoubt(c, roomy, es) {
      forall p, t | Prefix(t, es) ensures !TurnsLate(c, roomy, p, t) {
        if TurnsLate(c, roomy, p, t) {
          LateTurnIsDoubt(c, roomy, es, p, t);
        }
      }
    } else if i :| CanBePlannedOn(c, roomy, es, i) && i !in Surely(c, es) {
      var p, t :| Prefix(t, es) && PlannedOn(c, roomy, p, t, i);
      PlannedLate(c, roomy, es, p, t, i);
    }
  }

  lemma PlannedLate(c: Config, roomy: bool, es: Trace, p: Trace, t: Trace, i: nat)
    requires OnlyEvents(es) && LoadsKeepNames(c, es)
    requires Prefix(t, es) && PlannedOn(c, roomy, p, t, i) && i !in Surely(c, es)
    ensures !NoneTurnsLate(c, roomy, es)
  {
    NamedSinceLoad(c, es, p, t);
    PrefixOnlyEvents(t, es);
    PrefixTransitive(p, t, es);
    SurelyGrows(c, p, es);
    assert !Run(c, p.before).net.records[i].hashed;
    var t' := TurnedBetween(c, roomy, es, p, t);
  }

  /** So, of all scans of events in which no ID is used again once its body was asked for: storing
      every body can show exactly when a response makes a hop whose body was asked for a
      fingerprinted one after it has loaded, or - unless only scans whose queue is never too full
      are looked at, in which that body has to be still waiting - a fingerprinted hop loads after
      as many bodies as a queue has room for have been asked for. */
  lemma StorageShowsWhen(c: Config, roomy: bool, st: Storage, st': Storage, es: Trace)
    requires OnlyEvents(es) && c.maxBodyBytes >= 0 && st'.mode == StoreAll && LoadsKeepNames(c, es)
    ensures StorageHides(c, roomy, st, st', es) <==> NoneTurnsLate(c, roomy, es) && (roomy || NoneIsLost(c, es))
  {
    StorageShowsExactly(c, roomy, st, st', es);
    OnlyLateOrLost(c, roomy, es);
  }
}
