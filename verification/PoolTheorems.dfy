/** What the browser pool promises, in every state any interleaving can reach. */
module BrowserPoolTheorems {
  import opened BrowserPool
  import opened BrowserPoolInvariants

  // ---------- runs ----------

  datatype Step = Starts(t: ThreadId, entry: Entry) | Acts(t: ThreadId, action: Action)

  // A run: a new pool, and then steps of whichever calls come next.
  datatype Run = New(size: int, options: Options, maxScans: int) | Then(before: Run, step: Step)

  predicate Possible(s: State, step: Step) {
    match step
    case Starts(t, e) => t !in s.threads
    case Acts(t, a) => Enabled(s, t, a)
  }

  function Next(s: State, step: Step): State
    requires Possible(s, step)
  {
    match step
    case Starts(t, e) => Begin(s, t, e)
    case Acts(t, a) => Apply(s, t, a)
  }

  ghost predicate Legal(run: Run)
    decreases run, 0
  {
    run.Then? ==> Legal(run.before) && Possible(After(run.before), run.step)
  }

  ghost function After(run: Run): State
    requires Legal(run)
    decreases run, 1
  {
    match run
    case New(size, options, maxScans) => NewState(size, options, maxScans)
    case Then(before, step) => Next(After(before), step)
  }

  // Whether a run is the same as another one up to some point.
  ghost predicate Continues(run: Run, earlier: Run) {
    run == earlier || (run.Then? && Continues(run.before, earlier))
  }

  lemma StepKeepsInv(s: State, step: Step)
    requires Inv(s) && Possible(s, step)
    ensures Inv(Next(s, step))
  {
    match step
    case Starts(t, e) => BeginInv(s, t, e);
    case Acts(t, a) => StepInv(s, t, a);
  }

  lemma {:induction false} Reachable(run: Run)
    requires Legal(run)
    ensures Inv(After(run))
  {
    match run
    case New(size, options, maxScans) => NewStateInv(size, options, maxScans);
    case Then(before, step) =>
      Reachable(before);
      StepKeepsInv(After(before), step);
  }

  // ---------- bounded capacity ----------

  /** Idle browsers and the holders that own or launch one never exceed the size, no token is
      lost or made up, and whoever returns a slot finds room in the channel. */
  lemma CapacityHolds(s: State, t: ThreadId)
    requires Inv(s)
    ensures |s.pool.idle| + Count(s.threads, Busy) <= s.size
    ensures s.tokens + Count(s.threads, HoldsSlot) + s.drained == s.size
    ensures t in s.threads && HoldsSlot(s.threads[t].at) ==> s.tokens < s.size
  {
    if t in s.threads && HoldsSlot(s.threads[t].at) {
      SubsetSize({t}, Those(s.threads, HoldsSlot));
    }
  }

  lemma {:induction false} Injects<A(!new), B>(a: set<A>, b: set<B>, f: A -> B)
    requires forall x :: x in a ==> f(x) in b
    requires forall x, y :: x in a && y in a && f(x) == f(y) ==> x == y
    ensures |a| <= |b|
    decreases |a|
  {
    if a != {} {
      var x :| x in a;
      Injects(a - {x}, b - {f(x)}, f);
    }
  }

  lemma {:induction false} ElementsOf<T>(q: seq<T>, a: set<T>)
    requires forall x :: x in a ==> x in q
    ensures |a| <= |q|
  {
    if q == [] {
      assert a == {};
    } else {
      ElementsOf(q[1..], a - {q[0]});
    }
  }

  // The browsers in the care of threads at such a stage.
  ghost function CaredFor(s: State, p: Stage -> bool): set<BrowserId> {
    set b | b in s.place && s.place[b].With? && s.place[b].t in s.threads && p(s.threads[s.place[b].t].at)
  }

  predicate InSwitch(at: Stage) { at == SwitchLoop }

  // A thread that owns a browser has one browser only in its care.
  lemma OwnsOnlyOne(s: State, b: BrowserId, c: BrowserId)
    requires Placed(s) && b in CaredFor(s, Owns) && c in CaredFor(s, Owns) && s.place[b].t == s.place[c].t
    ensures b == c
  {
    var t := s.place[b].t;
    assert b in s.place.Keys && c in s.place.Keys;
    assert BrowserPlaced(s, b) && BrowserPlaced(s, c) && ThreadPlaced(s, t);
  }

  lemma HeldBySlotHolders(s: State)
    requires Placed(s)
    ensures |CaredFor(s, Owns)| <= Count(s.threads, Busy)
  {
    hide Placed;
    var f := (b: BrowserId) => if b in s.place && s.place[b].With? then s.place[b].t else 0;
    forall b, c | b in CaredFor(s, Owns) && c in CaredFor(s, Owns) && f(b) == f(c) ensures b == c {
      OwnsOnlyOne(s, b, c);
    }
    Injects(CaredFor(s, Owns), Those(s.threads, Busy), f);
  }

  /** Every counted browser is idle, with a slot holder, or being closed by Switch or Close. */
  lemma WhereCounted(s: State, b: BrowserId)
    requires Inv(s) && b in s.counted
    ensures b in s.pool.idle || b in CaredFor(s, Owns) || b in CaredFor(s, InSwitch)
            || exists t :: t in s.closer && t in s.threads && s.threads[t].at == CloseLoop && b in s.threads[t].hand
  {
    assert BrowserCounted(s, b) && b in s.place.Keys && BrowserPlaced(s, b);
    if s.place[b].With? {
      var t := s.place[b].t;
      assert ThreadPlaced(s, t) && ThreadClosing(s, t);
    }
  }

  /** The live counter exceeds the size only by browsers an in-progress Switch is closing. */
  lemma LiveBound(s: State)
    requires Inv(s)
    ensures 0 <= s.pool.live <= s.size + |CaredFor(s, InSwitch)|
  {
    var rest := s.counted - CaredFor(s, InSwitch);
    assert s.counted <= rest + CaredFor(s, InSwitch);
    SubsetSize(s.counted, rest + CaredFor(s, InSwitch));
    if t :| t in s.closer && t in s.threads && s.threads[t].at == CloseLoop {
      RestWhileClosing(s, rest, t);
    } else {
      RestOtherwise(s, rest);
    }
  }

  lemma RestWhileClosing(s: State, rest: set<BrowserId>, t: ThreadId)
    requires Inv(s) && rest == s.counted - CaredFor(s, InSwitch)
    requires t in s.closer && t in s.threads && s.threads[t].at == CloseLoop
    ensures |rest| <= s.size
  {
    assert ThreadClosing(s, t);
    OneCloser(s);
    HeldBySlotHolders(s);
    BusyHoldSlots(s);
    assert CaredFor(s, Owns) == {};
    forall b | b in rest ensures b in s.threads[t].hand { WhereCounted(s, b); }
    ElementsOf(s.threads[t].hand, rest);
  }

  lemma RestOtherwise(s: State, rest: set<BrowserId>)
    requires Inv(s) && rest == s.counted - CaredFor(s, InSwitch)
    requires !exists t :: t in s.closer && t in s.threads && s.threads[t].at == CloseLoop
    ensures |rest| <= s.size
  {
    var atRest := set b | b in s.pool.idle;
    ElementsOf(s.pool.idle, atRest);
    HeldBySlotHolders(s);
    forall b | b in rest ensures b in atRest + CaredFor(s, Owns) { WhereCounted(s, b); }
    SubsetSize(rest, atRest + CaredFor(s, Owns));
  }

  lemma OneCloser(s: State)
    requires Inv(s)
    ensures forall t, u :: t in s.closer && u in s.closer ==> t == u
  {
    forall t, u | t in s.closer && u in s.closer ensures t == u {
      SubsetSize({t, u}, s.closer);
    }
  }

  // ---------- nothing leaks ----------

  /** When the Close call that closed the pool has returned and no Switch is still closing
      browsers, nothing is live and every browser ever launched has been closed. */
  lemma NothingLeaks(s: State, t: ThreadId)
    requires Inv(s) && t in s.threads && s.threads[t].at == CloseReturned
    requires forall u :: u in s.threads ==> s.threads[u].at != SwitchLoop
    ensures s.pool.live == 0
    ensures forall b :: b in s.browsers ==> s.browsers[b].closed
  {
    assert ThreadClosing(s, t);
    OneCloser(s);
    forall b | b in s.browsers ensures s.place[b] == Gone && s.browsers[b].closed {
      assert BrowserPlaced(s, b);
      if s.place[b].With? {
        var u := s.place[b].t;
        assert ThreadPlaced(s, u) && ThreadClosing(s, u);
        DrainedMeansNoHolder(s, u);
      }
    }
    forall b ensures b !in s.counted {
      assert BrowserCounted(s, b) && (b in s.place.Keys ==> b in s.browsers);
    }
    assert s.counted == {};
  }

  lemma DrainedMeansNoHolder(s: State, t: ThreadId)
    requires Inv(s) && s.drained == s.size && t in s.threads
    ensures !HoldsSlot(s.threads[t].at) && s.tokens == 0
  {
    if HoldsSlot(s.threads[t].at) {
      SubsetSize({t}, Those(s.threads, HoldsSlot));
    }
  }

  /** A browser handed out is open, launched by this pool and nobody else's. */
  lemma LeaseIsExclusive(s: State, t: ThreadId, u: ThreadId)
    requires Inv(s) && t in s.threads && s.threads[t].at == Leased
    ensures |s.threads[t].hand| == 1 && s.threads[t].hand[0] in s.browsers
    ensures !s.browsers[s.threads[t].hand[0]].closed && s.threads[t].hand[0] !in s.pool.idle
    ensures u in s.threads && s.threads[t].hand[0] in s.threads[u].hand ==> u == t
  {
    assert ThreadPlaced(s, t) && ThreadPlaced(s, u);
    AboutBrowser(s, t, s.threads[t].hand[0]);
    if u in s.threads && s.threads[t].hand[0] in s.threads[u].hand {
      assert PlacedAt(s, s.threads[t].hand[0], With(u));
    }
  }

  // ---------- after Close has drained the slots ----------

  lemma OneWay(s: State, step: Step)
    requires Inv(s) && Possible(s, step)
    ensures OneWayFrom(s, Next(s, step))
  {
    match step
    case Starts(t, e) =>
      OpeningOk(s, t, e);
      EffectIsOneWay(s, t, Opening(s, t, e));
    case Acts(t, a) =>
      OutcomeOk(s, t, a);
      EffectIsOneWay(s, t, Outcome(s, t, a));
  }

  lemma EffectIsOneWay(s: State, t: ThreadId, e: Effect)
    requires ClosingOk(s, t, e) && GenerationOk(s, t, e) && IsolationOk(s, t, e) && |s.sources| == s.pool.generation + 1
    ensures OneWayFrom(s, Commit(s, t, e))
  {
  }

  // What only ever goes one way.
  predicate OneWayFrom(s: State, s': State) {
    && s.size == s'.size && s.drained <= s'.drained
    && s.pool.generation <= s'.pool.generation && s.sources <= s'.sources
    && (s.pool.options.noContexts ==> s'.pool.options.noContexts)
  }

  lemma {:induction false} OverTheRun(run: Run, earlier: Run)
    requires Legal(run) && Continues(run, earlier)
    ensures Legal(earlier) && OneWayFrom(After(earlier), After(run))
  {
    if run != earlier {
      OverTheRun(run.before, earlier);
      Reachable(run.before);
      OneWay(After(run.before), run.step);
    }
  }

  /** Close waits only for slots that some call still holds. */
  lemma CloseWaitsForHolders(s: State, t: ThreadId)
    requires Inv(s) && t in s.threads && s.threads[t].at == CloseDrain && s.drained < s.size
    ensures Enabled(s, t, Signal(Drain)) || exists u :: u in s.threads && HoldsSlot(s.threads[u].at)
  {
    if s.tokens == 0 {
      assert Those(s.threads, HoldsSlot) != {};
      var u :| u in Those(s.threads, HoldsSlot);
    }
  }

  // The action a call that is neither waiting for a token nor finished can take next.
  function NextAction(s: State, t: ThreadId, made: BrowserId): Action
    requires t in s.threads
  {
    var th := s.threads[t];
    match th.at
    case AcqTake => Proceed(Take)
    case AcqCheck => Judge(CheckStale)
    case AcqLimit => Judge(ReadLimit)
    case AcqAlive => Judge(CheckAlive(false))
    case AcqFail => Signal(FailReturnsSlot)
    case LaunchRead => Proceed(ReadOptions)
    case Launching => Proceed(LaunchOk(made))
    case LaunchLock => Settle(Register)
    case LaunchRaced => Settle(CloseRaced)
    case Leased => Judge(Release)
    case ProbeRefused => Judge(IsolateAndRetire)
    case ProbeUnanswered => Proceed(IsolateUnprobed)
    case PutLock => Settle(Put)
    case PutReturn => Signal(ReturnSlot)
    case CloseDrain => if s.drained == s.size then Proceed(TakeRest) else Signal(Drain)
    case _ =>
      if th.hand != [] then (if th.down then Settle(Uncount) else Settle(Shut))
      else if th.at == SwitchLoop then Proceed(SwitchEnd)
      else if th.at == CloseLoop then Proceed(CloseEnd)
      else Signal(GiveUp)
  }

  /** No call is ever stuck: each can take its next step unless it has ended or waits for a
      slot token, either in Acquire or in Close's drain. */
  lemma NeverStuck(s: State, t: ThreadId, made: BrowserId)
    requires Inv(s) && t in s.threads && made !in s.browsers
    requires s.threads[t].at != Finished && s.threads[t].at != CloseReturned
    ensures Enabled(s, t, NextAction(s, t, made))
            || (s.threads[t].at == CloseDrain && s.drained < s.size && s.tokens == 0)
  {
    assert ThreadPlaced(s, t);
    if s.threads[t].hand != [] {
      AboutBrowser(s, t, s.threads[t].hand[0]);
      HandGoesOn(s, t, made);
    } else {
      EmptyHandGoesOn(s, t, made);
    }
  }

  lemma HandGoesOn(s: State, t: ThreadId, made: BrowserId)
    requires HasBrowser(s, t) && Shape(s.threads[t])
    ensures Enabled(s, t, NextAction(s, t, made))
  {
  }

  lemma EmptyHandGoesOn(s: State, t: ThreadId, made: BrowserId)
    requires t in s.threads && s.threads[t].hand == [] && Shape(s.threads[t]) && 0 <= s.tokens && s.drained <= s.size
    requires made !in s.browsers && s.threads[t].at != Finished && s.threads[t].at != CloseReturned
    ensures Enabled(s, t, NextAction(s, t, made))
            || (s.threads[t].at == CloseDrain && s.drained < s.size && s.tokens == 0)
  {
  }

  // ---------- Switch is linearizable ----------

  lemma OutcomeKeepsCall(s: State, t: ThreadId, a: Action)
    requires Enabled(s, t, a)
    ensures Outcome(s, t, a).thread.call == s.threads[t].call
  {
  }

  lemma NextKeepsCall(s: State, step: Step, t: ThreadId)
    requires Possible(s, step) && t in s.threads
    ensures t in Next(s, step).threads && Next(s, step).threads[t].call == s.threads[t].call
  {
    if step.Acts? {
      OutcomeKeepsCall(s, step.t, step.action);
    }
  }

  lemma {:induction false} CallIsKept(run: Run, earlier: Run, t: ThreadId)
    requires Legal(run) && Legal(earlier) && Continues(run, earlier) && t in After(earlier).threads
    ensures t in After(run).threads && After(run).threads[t].call == After(earlier).threads[t].call
  {
    if run != earlier {
      CallIsKept(run.before, earlier, t);
      NextKeepsCall(After(run.before), run.step, t);
    }
  }

  /** An Acquire that begins after a Switch's critical section never returns a browser from
      before it, and the browser it returns was launched from what its generation stands for. */
  lemma AcquireAfterSwitch(run: Run, acquired: Run, switched: Run, t: ThreadId)
    requires Legal(run) && Continues(run, acquired) && acquired.Then? && Continues(acquired.before, switched)
    requires switched.Then? && switched.step.Starts? && switched.step.entry.Switch?
    requires acquired.step == Starts(t, Acquire) || acquired.step == Starts(t, Probe)
    requires t in After(run).threads && After(run).threads[t].at == Leased
    ensures Legal(switched) && |After(run).threads[t].hand| == 1
    ensures After(run).threads[t].hand[0] in After(run).browsers
    ensures var b := After(run).browsers[After(run).threads[t].hand[0]];
            && After(switched).pool.generation <= b.generation < |After(run).sources|
            && b.options.source == After(run).sources[b.generation]
            && After(run).sources[After(switched).pool.generation] == switched.step.entry.to
  {
    OverTheRun(run, acquired);
    OverTheRun(acquired.before, switched);
    SinceItBegan(run, acquired, t);
    SwitchInstalls(switched);
    OverTheRun(acquired, acquired);
    Reachable(acquired.before);
    OneWay(After(acquired.before), acquired.step);
  }

  // A lease's browser is no older than the call that holds it.
  lemma SinceItBegan(run: Run, acquired: Run, t: ThreadId)
    requires Legal(run) && Legal(acquired) && Continues(run, acquired) && acquired.Then?
    requires acquired.step == Starts(t, Acquire) || acquired.step == Starts(t, Probe)
    requires t in After(run).threads && After(run).threads[t].at == Leased
    ensures |After(run).threads[t].hand| == 1 && After(run).threads[t].hand[0] in After(run).browsers
    ensures var b := After(run).browsers[After(run).threads[t].hand[0]];
            && After(acquired.before).pool.generation <= b.generation
            && FromSource(After(run).sources, b.options, b.generation)
  {
    CallIsKept(run, acquired, t);
    Reachable(run);
    LeaseIsExclusive(After(run), t, t);
    AboutBrowser(After(run), t, After(run).threads[t].hand[0]);
    AboutThread(After(run), t);
  }

  lemma SwitchInstalls(switched: Run)
    requires Legal(switched) && switched.Then? && switched.step.Starts? && switched.step.entry.Switch?
    ensures var s := After(switched);
            |s.sources| == s.pool.generation + 1 && s.sources[s.pool.generation] == switched.step.entry.to
  {
    Reachable(switched);
  }

  /** An idle browser always carries the current generation, launcher and identity. */
  lemma IdleIsCurrent(s: State, b: BrowserId)
    requires Inv(s) && b in s.pool.idle
    ensures b in s.browsers && s.browsers[b].generation == s.pool.generation
    ensures s.browsers[b].options.source == s.pool.options.source && !s.browsers[b].closed
  {
    assert PlacedAt(s, b, Idle) && b in s.place.Keys;
    assert BrowserGeneration(s, b) && BrowserPlaced(s, b);
  }

  // ---------- process isolation ----------

  /** A browser launched without browser contexts has at most one scan opened on it in its
      lifetime, whether that was configured or a probe's fallback, across any switches. */
  lemma OneScanPerIsolatedBrowser(run: Run, b: BrowserId)
    requires Legal(run) && b in After(run).browsers && After(run).browsers[b].options.noContexts
    ensures After(run).browsers[b].scans <= 1
  {
    Reachable(run);
    assert BrowserIsolated(After(run), b);
  }

  /** After a fallback, or with one configured, every browser launched is of that kind. */
  lemma FallbackIsForGood(run: Run, earlier: Run)
    requires Legal(run) && Legal(earlier) && Continues(run, earlier) && After(earlier).pool.options.noContexts
    ensures After(run).pool.options.noContexts && After(run).pool.maxScans == 1
  {
    OverTheRun(run, earlier);
    Reachable(run);
  }
}
