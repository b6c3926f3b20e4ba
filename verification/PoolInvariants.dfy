/** What every step of the browser pool keeps, for any interleaving. */
module BrowserPoolInvariants {
  import opened Wrappers
  import opened BrowserPool

  // Calls that took a slot token and have not given it back.
  predicate HoldsSlot(at: Stage) {
    match at
    case AcqWait => false
    case ProbeUnanswered => false
    case SwitchLoop => false
    case CloseDrain => false
    case CloseLoop => false
    case CloseReturned => false
    case Finished => false
    case _ => true
  }

  // Slot holders with a browser in hand.
  predicate Owns(at: Stage) {
    HoldsSlot(at) && at != AcqTake && at != AcqFail && at != PutReturn && at != LaunchRead && at != Launching
  }

  // Slot holders that own a browser or are launching one.
  predicate Busy(at: Stage) { Owns(at) || at == LaunchRead || at == Launching }

  // Where the browser in hand has served no scan yet if it may serve only one.
  predicate Unscanned(th: Thread) {
    th.at == AcqAlive || th.at == LaunchLock || (th.at == Leased && !th.scanned)
  }

  predicate Closes(at: Stage) { at == CloseDrain || at == CloseLoop || at == CloseReturned }

  predicate Distinct<T(==)>(q: seq<T>) { forall i, j :: 0 <= i < j < |q| ==> q[i] != q[j] }

  // ---------- the invariant ----------

  ghost predicate SlotsConserved(s: State) {
    0 <= s.tokens && s.tokens + Count(s.threads, HoldsSlot) + s.drained == s.size
  }

  ghost predicate Shape(th: Thread) {
    && Distinct(th.hand)
    && (Owns(th.at) ==> |th.hand| == 1)
    && (!Owns(th.at) && th.at != SwitchLoop && th.at != CloseLoop ==> th.hand == [])
    && (th.down ==> Disposes(th.at) && th.hand != [])
  }

  predicate PlacedAt(s: State, b: BrowserId, p: Place) { b in s.place && s.place[b] == p }

  ghost predicate ThreadPlaced(s: State, t: ThreadId) {
    t in s.threads ==>
      Shape(s.threads[t]) && forall b :: b in s.threads[t].hand ==> PlacedAt(s, b, With(t))
  }

  ghost predicate BrowserPlaced(s: State, b: BrowserId) {
    b in s.browsers ==>
      b in s.place &&
      match s.place[b]
      case Idle => b in s.pool.idle && !s.browsers[b].closed
      case With(t) =>
        t in s.threads && b in s.threads[t].hand
        && (s.browsers[b].closed <==> s.threads[t].down && b == s.threads[t].hand[0])
      case Gone => s.browsers[b].closed
  }

  /** Every launched browser is in exactly one place, and its process runs exactly until it
      is closed there. */
  ghost predicate Placed(s: State) {
    && s.place.Keys == s.browsers.Keys
    && Distinct(s.pool.idle)
    && (forall b :: b in s.pool.idle ==> PlacedAt(s, b, Idle))
    && (forall t {:trigger ThreadPlaced(s, t)} :: ThreadPlaced(s, t))
    && (forall b {:trigger BrowserPlaced(s, b)} :: BrowserPlaced(s, b))
  }

  // Registered with the pool and not yet subtracted again.
  ghost predicate InUse(s: State, b: BrowserId) {
    && b in s.place
    && !s.place[b].Gone?
    && (s.place[b].With? ==> s.place[b].t in s.threads && !Unregistered(s.threads[s.place[b].t].at))
  }

  ghost predicate BrowserCounted(s: State, b: BrowserId) { b in s.counted <==> InUse(s, b) }

  ghost predicate CountedRight(s: State) {
    s.pool.live == |s.counted| && forall b {:trigger BrowserCounted(s, b)} :: BrowserCounted(s, b)
  }

  ghost predicate Capacity(s: State) {
    && |s.pool.idle| + Count(s.threads, Busy) <= s.size
    && forall t :: t in s.threads && s.threads[t].at == CloseLoop ==> |s.threads[t].hand| <= s.size
  }

  ghost predicate ThreadClosing(s: State, t: ThreadId) {
    && (t in s.closer <==> t in s.threads && Closes(s.threads[t].at))
    && (t in s.closer && s.threads[t].at != CloseDrain ==> s.drained == s.size && s.pool.idle == [])
  }

  ghost predicate Closing(s: State) {
    && (s.pool.closed <==> s.closer != {})
    && |s.closer| <= 1
    && (s.closer == {} ==> s.drained == 0)
    && s.drained <= s.size
    && (forall t {:trigger ThreadClosing(s, t)} :: ThreadClosing(s, t))
  }

  predicate FromSource(sources: seq<Source>, options: Options, generation: nat) {
    generation < |sources| && options.source == sources[generation]
  }

  ghost predicate ThreadGeneration(s: State, t: ThreadId) {
    t in s.threads ==>
      var th := s.threads[t];
      && th.call.since <= s.pool.generation
      && (th.at == Launching ==> FromSource(s.sources, th.options, th.generation) && th.call.since <= th.generation)
      && (Owns(th.at) && th.hand != [] ==>
            th.hand[0] in s.browsers && th.call.since <= s.browsers[th.hand[0]].generation)
  }

  ghost predicate BrowserGeneration(s: State, b: BrowserId) {
    && (b in s.browsers ==> FromSource(s.sources, s.browsers[b].options, s.browsers[b].generation))
    && (b in s.pool.idle ==> b in s.browsers && s.browsers[b].generation == s.pool.generation)
  }

  /** Every browser was launched from what its generation stands for, only browsers of the
      current generation are idle, and a call never holds one from before it began. */
  ghost predicate Generations(s: State) {
    && |s.sources| == s.pool.generation + 1
    && FromSource(s.sources, s.pool.options, s.pool.generation)
    && (forall t {:trigger ThreadGeneration(s, t)} :: ThreadGeneration(s, t))
    && (forall b {:trigger BrowserGeneration(s, b)} :: BrowserGeneration(s, b))
  }

  ghost predicate ThreadIsolated(s: State, t: ThreadId) {
    t in s.threads ==>
      var th := s.threads[t];
      && (th.at == Launching && th.options.noContexts ==> s.pool.options.noContexts)
      && (Unscanned(th) && th.hand != [] ==>
            th.hand[0] in s.browsers
            && (s.browsers[th.hand[0]].options.noContexts ==> s.browsers[th.hand[0]].scans == 0))
  }

  ghost predicate BrowserIsolated(s: State, b: BrowserId) {
    b in s.browsers && s.browsers[b].options.noContexts ==>
      s.pool.options.noContexts && s.browsers[b].scans <= 1
  }

  /** A browser without browser contexts serves at most one scan. */
  ghost predicate Isolated(s: State) {
    && (s.pool.options.noContexts ==> s.pool.maxScans == 1)
    && (forall t {:trigger ThreadIsolated(s, t)} :: ThreadIsolated(s, t))
    && (forall b {:trigger BrowserIsolated(s, b)} :: BrowserIsolated(s, b))
  }

  ghost predicate Inv(s: State) {
    && s.size >= 1
    && SlotsConserved(s)
    && Placed(s)
    && CountedRight(s)
    && Capacity(s)
    && Closing(s)
    && Generations(s)
    && Isolated(s)
  }

  // ---------- counting threads ----------

  ghost function Those(threads: map<ThreadId, Thread>, p: Stage -> bool): set<ThreadId> {
    set t | t in threads && p(threads[t].at)
  }

  ghost function Count(threads: map<ThreadId, Thread>, p: Stage -> bool): nat { |Those(threads, p)| }

  lemma CountUpdate(threads: map<ThreadId, Thread>, p: Stage -> bool, t: ThreadId, th: Thread)
    ensures Count(threads[t := th], p)
         == Count(threads, p) - (if t in threads && p(threads[t].at) then 1 else 0) + (if p(th.at) then 1 else 0)
  {
    var before, after := Those(threads, p), Those(threads[t := th], p);
    if p(th.at) {
      assert after == before + {t};
    } else {
      assert after == before - {t};
    }
  }

  lemma SubsetSize<T>(a: set<T>, b: set<T>)
    requires a <= b
    ensures |a| <= |b|
  {
    assert b == a + (b - a);
  }

  // ---------- what an effect has to satisfy, invariant by invariant ----------

  // A thread that has not begun looks like one that has ended.
  function Before(s: State, t: ThreadId): Thread {
    if t in s.threads then s.threads[t] else Fresh(s, Finished, false, [])
  }

  predicate SlotOk(s: State, t: ThreadId, e: Effect) {
    && 0 <= e.tokens
    && e.tokens + One(HoldsSlot(e.thread.at)) + e.drained == s.tokens + One(HoldsSlot(Before(s, t).at)) + s.drained
  }

  lemma CommitSlots(s: State, t: ThreadId, e: Effect)
    requires SlotsConserved(s) && SlotOk(s, t, e)
    ensures SlotsConserved(Commit(s, t, e))
  {
    CountUpdate(s.threads, HoldsSlot, t, e.thread);
  }

  // How browsers may move: seven kinds of effect.
  predicate PlaceOk(s: State, t: ThreadId, e: Effect) {
    var was, now := Before(s, t), e.thread;
    var idle, idle' := s.pool.idle, e.pool.idle;
    match e.change
    case Untouched => now.hand == was.hand && now.down == was.down && idle' == idle
    case Pop(b) => was.hand == [] && now.hand == [b] && !now.down && idle == idle' + [b]
    case TakeIdle(bs) => was.hand == [] && now.hand == bs == idle && !now.down && idle' == []
    case Write(b, x, Idle) =>
      was.hand == [b] && now.hand == [] && !was.down && !now.down && !x.closed && idle' == idle + [b]
    case Write(b, x, Gone) =>
      was.hand != [] && b == was.hand[0] && now.hand == was.hand[1..] && !now.down && x.closed && idle' == idle
    case Write(b, x, With(u)) =>
      && u == t && idle' == idle
      && now.hand != [] && b == now.hand[0] && (x.closed <==> now.down) && (was.down ==> now.down)
      && (now.hand == was.hand || (was.hand == [] && now.hand == [b] && b !in s.browsers))
  }

  // A browser that moved was idle before, in the acting thread's care, or new.
  lemma MovedFrom(s: State, t: ThreadId, e: Effect)
    requires Placed(s) && PlaceOk(s, t, e)
    ensures e.change.Write? ==>
              e.change.b !in s.pool.idle
              && if e.change.b in s.browsers then PlacedAt(s, e.change.b, With(t)) else e.change.b !in s.place
    ensures e.change.Pop? ==> PlacedAt(s, e.change.b, Idle) && e.change.b !in e.pool.idle
    ensures Distinct(e.pool.idle)
    ensures forall b :: b in e.pool.idle ==> b in s.pool.idle || (e.change.Write? && b == e.change.b)
    ensures forall b :: b in Before(s, t).hand ==> PlacedAt(s, b, With(t))
    ensures Distinct(Before(s, t).hand)
  {
    assert ThreadPlaced(s, t);
    match e.change {
      case Pop(b) =>
        assert s.pool.idle[|s.pool.idle| - 1] == b;
        assert forall i :: 0 <= i < |e.pool.idle| ==> e.pool.idle[i] == s.pool.idle[i];
      case Write(b, _, _) =>
        assert b in s.browsers <==> b in s.browsers.Keys;
        if b in s.browsers {
          assert Before(s, t).hand[0] in Before(s, t).hand;
        }
      case _ =>
    }
  }

  lemma IdleStaysPlaced(s: State, t: ThreadId, e: Effect, b: BrowserId)
    requires Placed(s) && PlaceOk(s, t, e) && b in e.pool.idle
    ensures PlacedAt(Commit(s, t, e), b, Idle)
  {
    MovedFrom(s, t, e);
    if b in s.pool.idle {
      assert PlacedAt(s, b, Idle);
    }
  }

  lemma OtherHandStaysPlaced(s: State, t: ThreadId, e: Effect, u: ThreadId, b: BrowserId)
    requires Placed(s) && PlaceOk(s, t, e) && u != t && u in s.threads && b in s.threads[u].hand
    ensures PlacedAt(Commit(s, t, e), b, With(u))
  {
    MovedFrom(s, t, e);
    assert ThreadPlaced(s, u) && PlacedAt(s, b, With(u));
  }

  lemma OwnHandStaysPlaced(s: State, t: ThreadId, e: Effect, b: BrowserId)
    requires Placed(s) && PlaceOk(s, t, e) && Shape(e.thread) && b in e.thread.hand
    ensures PlacedAt(Commit(s, t, e), b, With(t))
  {
    MovedFrom(s, t, e);
    if e.change.TakeIdle? {
      assert PlacedAt(s, b, Idle);
    } else if b in Before(s, t).hand {
      assert PlacedAt(s, b, With(t));
    }
  }

  lemma ThreadStaysPlaced(s: State, t: ThreadId, e: Effect, u: ThreadId)
    requires Placed(s) && PlaceOk(s, t, e) && Shape(e.thread)
    ensures ThreadPlaced(Commit(s, t, e), u)
  {
    var s' := Commit(s, t, e);
    assert ThreadPlaced(s, u);
    if u in s'.threads {
      forall b | b in s'.threads[u].hand ensures PlacedAt(s', b, With(u)) {
        if u == t {
          OwnHandStaysPlaced(s, t, e, b);
        } else {
          OtherHandStaysPlaced(s, t, e, u, b);
        }
      }
    }
  }

  lemma WrittenBrowserPlaced(s: State, t: ThreadId, e: Effect)
    requires Placed(s) && PlaceOk(s, t, e) && e.change.Write?
    ensures BrowserPlaced(Commit(s, t, e), e.change.b)
  {
  }

  lemma OtherBrowserPlaced(s: State, t: ThreadId, e: Effect, b: BrowserId)
    requires Placed(s) && PlaceOk(s, t, e) && Shape(e.thread) && !(e.change.Write? && e.change.b == b)
    ensures BrowserPlaced(Commit(s, t, e), b)
  {
    MovedFrom(s, t, e);
    assert BrowserPlaced(s, b);
  }

  lemma BrowserStaysPlaced(s: State, t: ThreadId, e: Effect, b: BrowserId)
    requires Placed(s) && PlaceOk(s, t, e) && Shape(e.thread)
    ensures BrowserPlaced(Commit(s, t, e), b)
  {
    if e.change.Write? && e.change.b == b {
      WrittenBrowserPlaced(s, t, e);
    } else {
      OtherBrowserPlaced(s, t, e, b);
    }
  }

  lemma CommitPlaced(s: State, t: ThreadId, e: Effect)
    requires Placed(s) && PlaceOk(s, t, e) && Shape(e.thread)
    ensures Placed(Commit(s, t, e))
  {
    var s' := Commit(s, t, e);
    MovedFrom(s, t, e);
    forall u ensures ThreadPlaced(s', u) { ThreadStaysPlaced(s, t, e, u); }
    forall b ensures BrowserPlaced(s', b) { BrowserStaysPlaced(s, t, e, b); }
    forall b | b in e.pool.idle ensures PlacedAt(s', b, Idle) { IdleStaysPlaced(s, t, e, b); }
  }

  predicate LiveOk(s: State, t: ThreadId, e: Effect) {
    match e.change
    case Write(b, x, p) =>
      && e.pool.live == s.pool.live + One(Counts(p, e.thread)) - One(b in s.counted)
      && (|Before(s, t).hand| > 1 ==> !Unregistered(e.thread.at))
    case Pop(b) => e.pool.live == s.pool.live && !Unregistered(e.thread.at)
    case TakeIdle(bs) => e.pool.live == s.pool.live && !Unregistered(e.thread.at)
    case Untouched =>
      && e.pool.live == s.pool.live
      && (e.thread.hand == [] || Unregistered(e.thread.at) == Unregistered(Before(s, t).at))
  }

  // A browser the effect does not move is counted exactly as before.
  lemma OtherStaysCounted(s: State, t: ThreadId, e: Effect, b: BrowserId)
    requires Placed(s) && PlaceOk(s, t, e) && LiveOk(s, t, e)
    requires !(e.change.Write? && e.change.b == b) && !(e.change.Pop? && e.change.b == b) && !e.change.TakeIdle?
    ensures InUse(Commit(s, t, e), b) == InUse(s, b)
  {
    if b in s.place && s.place[b] == With(t) {
      assert BrowserPlaced(s, b) && ThreadPlaced(s, t);
      assert b in s.place.Keys;
      HandKeepsRegistration(s, t, e, b);
    }
  }

  lemma HandKeepsRegistration(s: State, t: ThreadId, e: Effect, b: BrowserId)
    requires PlaceOk(s, t, e) && LiveOk(s, t, e) && Shape(Before(s, t)) && b in Before(s, t).hand
    requires !(e.change.Write? && e.change.b == b) && !(e.change.Pop? && e.change.b == b) && !e.change.TakeIdle?
    ensures Unregistered(e.thread.at) == Unregistered(Before(s, t).at)
  {
    if e.change.Write? {
      assert |Before(s, t).hand| > 1;
    }
  }

  lemma BrowserStaysCounted(s: State, t: ThreadId, e: Effect, b: BrowserId)
    requires BrowserCounted(s, b) && Placed(s) && PlaceOk(s, t, e) && Shape(e.thread) && LiveOk(s, t, e)
    ensures BrowserCounted(Commit(s, t, e), b)
  {
    match e.change
    case Write(c, _, _) =>
      if b != c { OtherStaysCounted(s, t, e, b); }
    case Pop(c) =>
      MovedFrom(s, t, e);
      if b != c { OtherStaysCounted(s, t, e, b); }
    case Untouched => OtherStaysCounted(s, t, e, b);
    case TakeIdle(bs) => IdleStaysCounted(s, t, e, b);
  }

  lemma IdleStaysCounted(s: State, t: ThreadId, e: Effect, b: BrowserId)
    requires Placed(s) && PlaceOk(s, t, e) && Shape(e.thread) && LiveOk(s, t, e)
    requires e.change.TakeIdle?
    ensures InUse(Commit(s, t, e), b) == InUse(s, b)
  {
    assert BrowserPlaced(s, b) && ThreadPlaced(s, t);
    assert b in s.browsers <==> b in s.place.Keys;
    if b in s.pool.idle {
      assert PlacedAt(s, b, Idle);
      assert |e.thread.hand| >= 1;
    }
  }

  lemma CommitCounted(s: State, t: ThreadId, e: Effect)
    requires CountedRight(s) && Placed(s) && PlaceOk(s, t, e) && Shape(e.thread) && LiveOk(s, t, e)
    ensures CountedRight(Commit(s, t, e))
  {
    forall b ensures BrowserCounted(Commit(s, t, e), b) {
      assert BrowserCounted(s, b);
      BrowserStaysCounted(s, t, e, b);
    }
  }

  ghost predicate CapacityOk(s: State, t: ThreadId, e: Effect) {
    && (e.thread.at == CloseLoop ==> |e.thread.hand| <= s.size)
    && (e.pool.idle == []
        || |e.pool.idle| + One(Busy(e.thread.at)) <= |s.pool.idle| + One(Busy(Before(s, t).at)))
  }

  lemma BusyHoldSlots(s: State)
    requires SlotsConserved(s)
    ensures Count(s.threads, Busy) <= s.size - s.drained
  {
    assert Those(s.threads, Busy) <= Those(s.threads, HoldsSlot);
    SubsetSize(Those(s.threads, Busy), Those(s.threads, HoldsSlot));
  }

  // What an effect leaves of the threads and the counters, whichever browsers it moves.
  ghost predicate Became(s: State, t: ThreadId, e: Effect, s': State) {
    && s'.size == s.size && s'.pool == e.pool && s'.threads == s.threads[t := e.thread]
    && SlotsConserved(s')
  }

  // Launching starts only when nothing is idle, so then holding a slot is room enough.
  lemma RoomForBusy(s: State, t: ThreadId, e: Effect, s': State)
    requires |s.pool.idle| + Count(s.threads, Busy) <= s.size
    requires CapacityOk(s, t, e) && Became(s, t, e, s')
    ensures |s'.pool.idle| + Count(s'.threads, Busy) <= s'.size
  {
    if e.pool.idle == [] {
      BusyHoldSlots(s');
    } else {
      CountUpdate(s.threads, Busy, t, e.thread);
    }
  }

  lemma RoomForRest(s: State, t: ThreadId, e: Effect, s': State)
    requires Capacity(s) && CapacityOk(s, t, e) && Became(s, t, e, s')
    ensures Capacity(s')
  {
    RoomForBusy(s, t, e, s');
  }

  lemma CommitCapacity(s: State, t: ThreadId, e: Effect)
    requires Capacity(s) && CapacityOk(s, t, e) && SlotsConserved(Commit(s, t, e))
    ensures Capacity(Commit(s, t, e))
  {
    RoomForRest(s, t, e, Commit(s, t, e));
  }

  predicate ClosingOk(s: State, t: ThreadId, e: Effect) {
    && (e.closer == s.closer || (s.closer == {} && e.closer == {t}))
    && (e.pool.closed <==> e.closer != {})
    && (t in e.closer <==> Closes(e.thread.at))
    && s.drained <= e.drained <= s.size
    && (e.closer == {} ==> e.drained == 0)
    && (s.pool.idle == [] && s.pool.closed ==> e.pool.idle == [])
    && (Closes(e.thread.at) && e.thread.at != CloseDrain ==> e.drained == s.size && e.pool.idle == [])
  }

  lemma CommitClosing(s: State, t: ThreadId, e: Effect)
    requires Closing(s) && ClosingOk(s, t, e)
    ensures Closing(Commit(s, t, e))
  {
    forall u ensures ThreadClosing(Commit(s, t, e), u) {
      assert ThreadClosing(s, u) && ThreadClosing(s, t);
    }
  }

  ghost predicate GenerationOk(s: State, t: ThreadId, e: Effect) {
    && ((e.sources == s.sources && e.pool.generation == s.pool.generation)
        || (s.sources < e.sources && |e.sources| == e.pool.generation + 1 && e.pool.idle == []))
    && FromSource(e.sources, e.pool.options, e.pool.generation)
    && e.thread.call.since <= e.pool.generation
    && (e.thread.at == Launching ==>
          FromSource(e.sources, e.thread.options, e.thread.generation) && e.thread.call.since <= e.thread.generation)
    && (e.change.Write? ==>
          && FromSource(e.sources, e.change.browser.options, e.change.browser.generation)
          && (e.change.b in s.browsers ==> e.change.browser.generation == s.browsers[e.change.b].generation)
          && (e.change.place.Idle? ==> e.change.browser.generation == e.pool.generation))
    && (Owns(e.thread.at) && e.thread.hand != [] ==>
          if e.change.Write? && e.change.b == e.thread.hand[0]
          then e.thread.call.since <= e.change.browser.generation
          else e.thread.hand[0] in s.browsers
               && e.thread.call.since <= s.browsers[e.thread.hand[0]].generation)
  }

  lemma SourcesGrow(s: State, t: ThreadId, e: Effect, options: Options, generation: nat)
    requires GenerationOk(s, t, e) && FromSource(s.sources, options, generation)
    ensures FromSource(e.sources, options, generation)
  {
  }

  lemma GenerationIsFixed(s: State, t: ThreadId, e: Effect, b: BrowserId)
    requires GenerationOk(s, t, e) && b in s.browsers
    ensures b in Commit(s, t, e).browsers && Commit(s, t, e).browsers[b].generation == s.browsers[b].generation
  {
  }

  lemma SameThreadKeepsGeneration(s: State, s': State, u: ThreadId)
    requires ThreadGeneration(s, u) && u in s.threads && u in s'.threads && s'.threads[u] == s.threads[u]
    requires s.pool.generation <= s'.pool.generation
    requires var th := s.threads[u];
             && (th.at == Launching ==> FromSource(s'.sources, th.options, th.generation))
             && (Owns(th.at) && th.hand != [] && th.hand[0] in s.browsers ==>
                   th.hand[0] in s'.browsers && s'.browsers[th.hand[0]].generation == s.browsers[th.hand[0]].generation)
    ensures ThreadGeneration(s', u)
  {
  }

  // A thread that did not act is where it was, and what it holds and read is as old as it was.
  lemma OtherKeepsGeneration(s: State, t: ThreadId, e: Effect, u: ThreadId)
    requires ThreadGeneration(s, u) && GenerationOk(s, t, e) && |s.sources| == s.pool.generation + 1
    requires u != t && u in s.threads
    ensures ThreadGeneration(Commit(s, t, e), u)
  {
    if s.threads[u].at == Launching {
      SourcesGrow(s, t, e, s.threads[u].options, s.threads[u].generation);
    }
    if Owns(s.threads[u].at) && s.threads[u].hand != [] {
      GenerationIsFixed(s, t, e, s.threads[u].hand[0]);
    }
    SameThreadKeepsGeneration(s, Commit(s, t, e), u);
  }

  lemma ActorKeepsGeneration(s: State, t: ThreadId, e: Effect)
    requires GenerationOk(s, t, e)
    ensures ThreadGeneration(Commit(s, t, e), t)
  {
  }

  lemma ThreadKeepsGeneration(s: State, t: ThreadId, e: Effect, u: ThreadId)
    requires ThreadGeneration(s, u) && GenerationOk(s, t, e) && |s.sources| == s.pool.generation + 1
    ensures ThreadGeneration(Commit(s, t, e), u)
  {
    if u == t {
      ActorKeepsGeneration(s, t, e);
    } else if u in s.threads {
      OtherKeepsGeneration(s, t, e, u);
    }
  }

  lemma BrowserKeepsGeneration(s: State, t: ThreadId, e: Effect, b: BrowserId)
    requires Generations(s) && Placed(s) && PlaceOk(s, t, e) && GenerationOk(s, t, e)
    ensures BrowserGeneration(Commit(s, t, e), b)
  {
    MovedFrom(s, t, e);
    assert BrowserGeneration(s, b);
  }

  lemma CommitGenerations(s: State, t: ThreadId, e: Effect)
    requires Generations(s) && Placed(s) && PlaceOk(s, t, e) && GenerationOk(s, t, e)
    ensures Generations(Commit(s, t, e))
  {
    var s' := Commit(s, t, e);
    forall u ensures ThreadGeneration(s', u) {
      assert ThreadGeneration(s, u);
      ThreadKeepsGeneration(s, t, e, u);
    }
    forall b ensures BrowserGeneration(s', b) { BrowserKeepsGeneration(s, t, e, b); }
  }

  predicate IsolationOk(s: State, t: ThreadId, e: Effect) {
    && (s.pool.options.noContexts ==> e.pool.options.noContexts)
    && (e.pool.options.noContexts ==> e.pool.maxScans == 1)
    && (e.thread.at == Launching && e.thread.options.noContexts ==> e.pool.options.noContexts)
    && (e.change.Write? && e.change.browser.options.noContexts ==>
          e.pool.options.noContexts && e.change.browser.scans <= 1)
    && (Unscanned(e.thread) && e.thread.hand != [] ==>
          if e.change.Write? && e.change.b == e.thread.hand[0]
          then e.change.browser.options.noContexts ==> e.change.browser.scans == 0
          else e.thread.hand[0] in s.browsers
               && (s.browsers[e.thread.hand[0]].options.noContexts ==> s.browsers[e.thread.hand[0]].scans == 0))
  }

  // A thread that moves has what its effect says.
  lemma MoverStaysIsolated(s: State, t: ThreadId, e: Effect)
    requires IsolationOk(s, t, e)
    ensures ThreadIsolated(Commit(s, t, e), t)
  {
  }

  // One that does not still has its browser, which no other thread writes.
  lemma OtherStaysIsolated(s: State, t: ThreadId, e: Effect, u: ThreadId)
    requires ThreadIsolated(s, u) && u != t && (s.pool.options.noContexts ==> e.pool.options.noContexts)
    requires u in s.threads && s.threads[u].hand != [] && e.change.Write? ==> e.change.b != s.threads[u].hand[0]
    ensures ThreadIsolated(Commit(s, t, e), u)
  {
  }

  lemma NobodyElsesHand(s: State, t: ThreadId, e: Effect, u: ThreadId)
    requires Placed(s) && PlaceOk(s, t, e) && u != t && u in s.threads && s.threads[u].hand != []
    ensures e.change.Write? ==> e.change.b != s.threads[u].hand[0]
  {
    MovedFrom(s, t, e);
    assert ThreadPlaced(s, u) && PlacedAt(s, s.threads[u].hand[0], With(u));
  }

  lemma ThreadStaysIsolated(s: State, t: ThreadId, e: Effect, u: ThreadId)
    requires Isolated(s) && Placed(s) && PlaceOk(s, t, e) && IsolationOk(s, t, e)
    ensures ThreadIsolated(Commit(s, t, e), u)
  {
    hide Placed, PlaceOk, Commit;
    assert ThreadIsolated(s, u);
    if u == t {
      MoverStaysIsolated(s, t, e);
    } else {
      if u in s.threads && s.threads[u].hand != [] {
        NobodyElsesHand(s, t, e, u);
      }
      OtherStaysIsolated(s, t, e, u);
    }
  }

  lemma CommitIsolated(s: State, t: ThreadId, e: Effect)
    requires Isolated(s) && Placed(s) && PlaceOk(s, t, e) && IsolationOk(s, t, e)
    ensures Isolated(Commit(s, t, e))
  {
    var s' := Commit(s, t, e);
    forall u ensures ThreadIsolated(s', u) { ThreadStaysIsolated(s, t, e, u); }
    forall b ensures BrowserIsolated(s', b) { assert BrowserIsolated(s, b); }
  }

  // ---------- every action's effect satisfies them ----------

  ghost predicate EffectOk(s: State, t: ThreadId, e: Effect) {
    && PlaceOk(s, t, e) && Shape(e.thread)
    && SlotOk(s, t, e)
    && LiveOk(s, t, e)
    && CapacityOk(s, t, e)
    && ClosingOk(s, t, e)
    && GenerationOk(s, t, e)
    && IsolationOk(s, t, e)
  }

  // What the invariant says of the thread that acts and of the browser in its hand.
  lemma AboutThread(s: State, t: ThreadId)
    requires Inv(s) && t in s.threads
    ensures ThreadPlaced(s, t) && ThreadClosing(s, t) && ThreadGeneration(s, t) && ThreadIsolated(s, t)
  {
  }

  lemma AboutBrowser(s: State, t: ThreadId, b: BrowserId)
    requires Inv(s) && t in s.threads && s.threads[t].hand != [] && b == s.threads[t].hand[0]
    ensures b in s.browsers && s.place[b] == With(t)
    ensures s.browsers[b].closed <==> s.threads[t].down
    ensures b in s.counted <==> !Unregistered(s.threads[t].at)
    ensures BrowserGeneration(s, b) && BrowserIsolated(s, b)
  {
    assert ThreadPlaced(s, t) && b in s.threads[t].hand && PlacedAt(s, b, With(t));
    assert b in s.place.Keys;
    assert BrowserPlaced(s, b) && BrowserCounted(s, b);
  }

  // What they say together about an action on the browser in hand.
  ghost predicate Ready(s: State, t: ThreadId) {
    t in s.threads && s.threads[t].hand != [] &&
    var th, b := s.threads[t], s.threads[t].hand[0];
    && b in s.browsers
    && (s.browsers[b].closed <==> th.down)
    && (b in s.counted <==> !Unregistered(th.at))
    && Shape(th)
    && ThreadClosing(s, t) && ThreadGeneration(s, t) && ThreadIsolated(s, t)
    && FromSource(s.sources, s.browsers[b].options, s.browsers[b].generation)
    && BrowserIsolated(s, b)
  }

  // What the pool would launch now.
  predicate Launchable(sources: seq<Source>, p: Shared) {
    FromSource(sources, p.options, p.generation) && (p.options.noContexts ==> p.maxScans == 1)
  }

  // The counters, as far as one thread's step depends on them.
  ghost predicate Totals(s: State, t: ThreadId) {
    && t in s.threads && ThreadClosing(s, t)
    && 0 <= s.tokens && s.drained <= s.size && |s.pool.idle| <= s.size
    && (s.threads[t].at == CloseLoop ==> |s.threads[t].hand| <= s.size)
    && (s.closer == {} ==> s.drained == 0)
    && (s.pool.closed <==> s.closer != {})
  }

  lemma JudgeMoves(s: State, t: ThreadId, j: Judgement)
    requires Ready(s, t) && MayJudge(s, s.threads[t], j)
    ensures PlaceOk(s, t, JudgeEffect(s, t, j))
  {
  }

  lemma JudgeKeepsShape(s: State, t: ThreadId, j: Judgement)
    requires Ready(s, t) && MayJudge(s, s.threads[t], j)
    ensures Shape(JudgeEffect(s, t, j).thread)
  {
    assert JudgeEffect(s, t, j).thread.hand == s.threads[t].hand;
  }

  lemma JudgeCounts(s: State, t: ThreadId, j: Judgement)
    requires Ready(s, t) && MayJudge(s, s.threads[t], j)
    requires Totals(s, t)
    ensures var e := JudgeEffect(s, t, j); SlotOk(s, t, e) && LiveOk(s, t, e)
  {
  }

  lemma JudgeFits(s: State, t: ThreadId, j: Judgement)
    requires Ready(s, t) && MayJudge(s, s.threads[t], j)
    requires Totals(s, t)
    ensures CapacityOk(s, t, JudgeEffect(s, t, j))
  {
  }

  lemma JudgeKeepsClosing(s: State, t: ThreadId, j: Judgement)
    requires Ready(s, t) && MayJudge(s, s.threads[t], j)
    requires Totals(s, t)
    ensures ClosingOk(s, t, JudgeEffect(s, t, j))
  {
  }

  lemma JudgeKeepsGeneration(s: State, t: ThreadId, j: Judgement)
    requires Ready(s, t) && MayJudge(s, s.threads[t], j)
    requires Launchable(s.sources, s.pool)
    ensures GenerationOk(s, t, JudgeEffect(s, t, j))
  {
  }

  lemma JudgeKeepsIsolation(s: State, t: ThreadId, j: Judgement)
    requires Ready(s, t) && MayJudge(s, s.threads[t], j)
    requires Launchable(s.sources, s.pool)
    ensures IsolationOk(s, t, JudgeEffect(s, t, j))
  {
  }

  lemma SettleMoves(s: State, t: ThreadId, x: Settlement)
    requires Ready(s, t) && MaySettle(s.threads[t], x)
    ensures var e := SettleEffect(s, t, x); PlaceOk(s, t, e) && Shape(e.thread)
  {
  }

  lemma SettleCounts(s: State, t: ThreadId, x: Settlement)
    requires Ready(s, t) && MaySettle(s.threads[t], x)
    requires Totals(s, t)
    ensures var e := SettleEffect(s, t, x); SlotOk(s, t, e) && LiveOk(s, t, e)
  {
  }

  lemma SettleFits(s: State, t: ThreadId, x: Settlement)
    requires Ready(s, t) && MaySettle(s.threads[t], x)
    requires Totals(s, t)
    ensures CapacityOk(s, t, SettleEffect(s, t, x))
  {
  }

  lemma SettleKeepsClosing(s: State, t: ThreadId, x: Settlement)
    requires Ready(s, t) && MaySettle(s.threads[t], x)
    requires Totals(s, t)
    ensures ClosingOk(s, t, SettleEffect(s, t, x))
  {
  }

  lemma SettleKeepsKind(s: State, t: ThreadId, x: Settlement)
    requires Ready(s, t) && MaySettle(s.threads[t], x)
    requires Launchable(s.sources, s.pool)
    ensures var e := SettleEffect(s, t, x); GenerationOk(s, t, e) && IsolationOk(s, t, e)
  {
  }

  lemma SignalMoves(s: State, t: ThreadId, g: SlotUse)
    requires t in s.threads && Shape(s.threads[t]) && MaySignal(s, s.threads[t], g)
    ensures var e := SignalEffect(s, t, g); PlaceOk(s, t, e) && Shape(e.thread)
  {
  }

  lemma SignalCounts(s: State, t: ThreadId, g: SlotUse)
    requires t in s.threads && Shape(s.threads[t]) && MaySignal(s, s.threads[t], g)
    requires Totals(s, t)
    ensures var e := SignalEffect(s, t, g); SlotOk(s, t, e) && LiveOk(s, t, e)
  {
  }

  lemma SignalBounds(s: State, t: ThreadId, g: SlotUse)
    requires t in s.threads && Shape(s.threads[t]) && MaySignal(s, s.threads[t], g)
    requires Totals(s, t)
    ensures var e := SignalEffect(s, t, g); CapacityOk(s, t, e) && ClosingOk(s, t, e)
  {
  }

  lemma SignalKeepsKind(s: State, t: ThreadId, g: SlotUse)
    requires t in s.threads && Shape(s.threads[t]) && MaySignal(s, s.threads[t], g)
    requires ThreadGeneration(s, t) && ThreadIsolated(s, t)
    requires Launchable(s.sources, s.pool)
    ensures var e := SignalEffect(s, t, g); GenerationOk(s, t, e) && IsolationOk(s, t, e)
  {
  }

  // Only Take and TakeRest touch the browsers at rest.
  lemma TakeMoves(s: State, t: ThreadId)
    requires t in s.threads && Shape(s.threads[t]) && MayProceed(s, s.threads[t], Take)
    ensures var e := ProceedEffect(s, t, Take); PlaceOk(s, t, e) && Shape(e.thread)
  {
    var n := |s.pool.idle|;
    assert n > 0 ==> s.pool.idle == s.pool.idle[..n - 1] + [s.pool.idle[n - 1]];
  }

  lemma ProceedKeepsShape(s: State, t: ThreadId, p: Progress)
    requires t in s.threads && Shape(s.threads[t]) && MayProceed(s, s.threads[t], p) && !p.Take?
    requires Distinct(s.pool.idle)
    ensures Shape(ProceedEffect(s, t, p).thread)
  {
  }

  lemma ProceedPlaces(s: State, t: ThreadId, p: Progress)
    requires t in s.threads && Shape(s.threads[t]) && MayProceed(s, s.threads[t], p) && !p.Take?
    requires Distinct(s.pool.idle)
    ensures PlaceOk(s, t, ProceedEffect(s, t, p))
  {
  }

  lemma ProceedMoves(s: State, t: ThreadId, p: Progress)
    requires t in s.threads && Shape(s.threads[t]) && MayProceed(s, s.threads[t], p)
    requires Distinct(s.pool.idle)
    ensures var e := ProceedEffect(s, t, p); PlaceOk(s, t, e) && Shape(e.thread)
  {
    hide PlaceOk, Shape;
    if p.Take? {
      TakeMoves(s, t);
    } else {
      ProceedKeepsShape(s, t, p);
      ProceedPlaces(s, t, p);
    }
  }

  lemma ProceedKeepsSlots(s: State, t: ThreadId, p: Progress)
    requires t in s.threads && Shape(s.threads[t]) && MayProceed(s, s.threads[t], p)
    requires Totals(s, t)
    ensures SlotOk(s, t, ProceedEffect(s, t, p))
  {
  }

  lemma ProceedCounts(s: State, t: ThreadId, p: Progress)
    requires t in s.threads && Shape(s.threads[t]) && MayProceed(s, s.threads[t], p)
    requires Totals(s, t)
    requires p.LaunchOk? ==> p.made !in s.counted
    ensures LiveOk(s, t, ProceedEffect(s, t, p))
  {
  }

  lemma ProceedFits(s: State, t: ThreadId, p: Progress)
    requires t in s.threads && Shape(s.threads[t]) && MayProceed(s, s.threads[t], p)
    requires Totals(s, t)
    ensures CapacityOk(s, t, ProceedEffect(s, t, p))
  {
  }

  lemma ProceedKeepsClosing(s: State, t: ThreadId, p: Progress)
    requires t in s.threads && Shape(s.threads[t]) && MayProceed(s, s.threads[t], p)
    requires Totals(s, t)
    ensures ClosingOk(s, t, ProceedEffect(s, t, p))
  {
  }

  lemma ProceedKeepsGeneration(s: State, t: ThreadId, p: Progress)
    requires t in s.threads && Shape(s.threads[t]) && MayProceed(s, s.threads[t], p)
    requires ThreadGeneration(s, t) && FromSource(s.sources, s.pool.options, s.pool.generation)
    requires s.pool.idle != [] ==>
               var b := s.pool.idle[|s.pool.idle| - 1];
               b in s.browsers && s.browsers[b].generation == s.pool.generation
    ensures GenerationOk(s, t, ProceedEffect(s, t, p))
  {
    match p
    case Take =>
    case ReadOptions =>
    case LaunchFails =>
    case LaunchOk(_) => LaunchKeepsGeneration(s, t, p);
    case IsolateUnprobed =>
    case SwitchEnd =>
    case TakeRest =>
    case CloseEnd =>
  }

  lemma LaunchKeepsGeneration(s: State, t: ThreadId, p: Progress)
    requires t in s.threads && p.LaunchOk? && MayProceed(s, s.threads[t], p)
    requires ThreadGeneration(s, t) && FromSource(s.sources, s.pool.options, s.pool.generation)
    ensures GenerationOk(s, t, ProceedEffect(s, t, p))
  {
  }

  lemma ProceedKeepsIsolation(s: State, t: ThreadId, p: Progress)
    requires t in s.threads && Shape(s.threads[t]) && MayProceed(s, s.threads[t], p)
    requires ThreadIsolated(s, t) && Launchable(s.sources, s.pool)
    ensures IsolationOk(s, t, ProceedEffect(s, t, p))
  {
  }

  lemma OutcomeOk(s: State, t: ThreadId, a: Action)
    requires Inv(s) && Enabled(s, t, a)
    ensures EffectOk(s, t, Outcome(s, t, a))
  {
    AboutThread(s, t);
    match a
    case Judge(j) =>
      AboutBrowser(s, t, s.threads[t].hand[0]);
      JudgeMoves(s, t, j);
      JudgeKeepsShape(s, t, j);
      JudgeCounts(s, t, j);
      JudgeFits(s, t, j);
      JudgeKeepsClosing(s, t, j);
      JudgeKeepsGeneration(s, t, j);
      JudgeKeepsIsolation(s, t, j);
    case Settle(x) =>
      AboutBrowser(s, t, s.threads[t].hand[0]);
      SettleMoves(s, t, x);
      SettleCounts(s, t, x);
      SettleFits(s, t, x);
      SettleKeepsClosing(s, t, x);
      SettleKeepsKind(s, t, x);
    case Signal(g) =>
      SignalMoves(s, t, g);
      SignalCounts(s, t, g);
      SignalBounds(s, t, g);
      SignalKeepsKind(s, t, g);
    case Proceed(p) =>
      assert p.LaunchOk? ==> BrowserCounted(s, p.made) && p.made !in s.place.Keys;
      if s.pool.idle != [] {
        assert BrowserGeneration(s, s.pool.idle[|s.pool.idle| - 1]);
      }
      ProceedMoves(s, t, p);
      ProceedKeepsSlots(s, t, p);
      ProceedCounts(s, t, p);
      ProceedFits(s, t, p);
      ProceedKeepsClosing(s, t, p);
      ProceedKeepsGeneration(s, t, p);
      ProceedKeepsIsolation(s, t, p);
  }

  lemma CommitInv(s: State, t: ThreadId, e: Effect)
    requires Inv(s) && EffectOk(s, t, e)
    ensures Inv(Commit(s, t, e))
  {
    CommitSlots(s, t, e);
    CommitPlaced(s, t, e);
    CommitCounted(s, t, e);
    CommitCapacity(s, t, e);
    CommitClosing(s, t, e);
    CommitGenerations(s, t, e);
    CommitIsolated(s, t, e);
  }

  lemma StepInv(s: State, t: ThreadId, a: Action)
    requires Inv(s) && Enabled(s, t, a)
    ensures Inv(Apply(s, t, a))
  {
    OutcomeOk(s, t, a);
    CommitInv(s, t, Outcome(s, t, a));
  }

  lemma OpeningMoves(s: State, t: ThreadId, e: Entry)
    requires t !in s.threads && Distinct(s.pool.idle)
    ensures var x := Opening(s, t, e); PlaceOk(s, t, x) && Shape(x.thread)
  {
  }

  lemma OpeningCounts(s: State, t: ThreadId, e: Entry)
    requires Inv(s) && t !in s.threads
    ensures var x := Opening(s, t, e); SlotOk(s, t, x) && LiveOk(s, t, x) && CapacityOk(s, t, x)
  {
  }

  lemma OpeningKeepsClosing(s: State, t: ThreadId, e: Entry)
    requires Closing(s) && t !in s.threads
    ensures ClosingOk(s, t, Opening(s, t, e))
  {
    assert ThreadClosing(s, t);
  }

  lemma OpeningKeepsKind(s: State, t: ThreadId, e: Entry)
    requires Launchable(s.sources, s.pool) && |s.sources| == s.pool.generation + 1 && t !in s.threads
    ensures var x := Opening(s, t, e); GenerationOk(s, t, x) && IsolationOk(s, t, x)
  {
  }

  lemma OpeningOk(s: State, t: ThreadId, e: Entry)
    requires Inv(s) && t !in s.threads
    ensures EffectOk(s, t, Opening(s, t, e))
  {
    OpeningMoves(s, t, e);
    OpeningCounts(s, t, e);
    OpeningKeepsClosing(s, t, e);
    OpeningKeepsKind(s, t, e);
  }

  lemma BeginInv(s: State, t: ThreadId, e: Entry)
    requires Inv(s) && t !in s.threads
    ensures Inv(Begin(s, t, e))
  {
    OpeningOk(s, t, e);
    CommitInv(s, t, Opening(s, t, e));
  }

  lemma NewStateInv(size: int, options: Options, maxScans: int)
    ensures Inv(NewState(size, options, maxScans))
  {
    var s := NewState(size, options, maxScans);
    assert Those(s.threads, HoldsSlot) == {} == Those(s.threads, Busy);
  }
}
