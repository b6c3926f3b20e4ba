/** What a call that waits for a slot of a closed pool can still learn: that the pool is closed,
    exactly as long as Close has not taken every slot. */
module BrowserPoolClosing {
  import opened BrowserPool
  import opened BrowserPoolInvariants
  import opened BrowserPoolTheorems

  predicate WaitsForSlot(s: State, t: ThreadId) { t in s.threads && s.threads[t].at == AcqWait }

  predicate IsTold(s: State, t: ThreadId) { t in s.threads && s.threads[t].at == AcqFail }

  // Some continuation of the run brings the call to where Acquire returns that the pool is closed.
  ghost predicate CanBeTold(run: Run, t: ThreadId) {
    exists later :: Continues(later, run) && Legal(later) && IsTold(After(later), t)
  }

  // ---------- every slot taken ----------

  // A call that got no slot waits for one, or has given up.
  predicate NeverGotSlot(s: State, t: ThreadId) {
    t in s.threads && s.threads[t].at in {AcqWait, ProbeUnanswered, Finished}
  }

  lemma EffectGivesNoSlot(s: State, t: ThreadId, a: Action)
    requires Enabled(s, t, a) && s.tokens <= 0 && NeverGotSlot(s, t) && s.threads[t].hand == []
    ensures Outcome(s, t, a).thread.at in {AcqWait, ProbeUnanswered, Finished}
  {
  }

  lemma StepGivesNoSlot(s: State, step: Step, t: ThreadId)
    requires Inv(s) && Possible(s, step) && s.drained == s.size && NeverGotSlot(s, t)
    ensures NeverGotSlot(Next(s, step), t)
  {
    if step.t == t {
      DrainedMeansNoHolder(s, t);
      AboutThread(s, t);
      EffectGivesNoSlot(s, t, step.action);
    } else {
      OthersKeepTheirThreads(s, step, t);
    }
  }

  lemma OthersKeepTheirThreads(s: State, step: Step, t: ThreadId)
    requires Possible(s, step) && t in s.threads && step.t != t
    ensures t in Next(s, step).threads && Next(s, step).threads[t] == s.threads[t]
  {
  }

  lemma {:induction false} NoSlotAfterDrain(run: Run, earlier: Run, t: ThreadId)
    requires Legal(run) && Legal(earlier) && Continues(run, earlier)
    requires After(earlier).drained == After(earlier).size && NeverGotSlot(After(earlier), t)
    ensures NeverGotSlot(After(run), t)
  {
    if run != earlier {
      NoSlotAfterDrain(run.before, earlier, t);
      Reachable(run.before);
      OverTheRun(run.before, earlier);
      assert After(run.before).drained <= After(run.before).size;
      StepGivesNoSlot(After(run.before), run.step, t);
    }
  }

  // ---------- some slot left ----------

  /** As long as Close has not taken every slot, one is free or some call holds one. */
  lemma SlotLeft(s: State)
    requires Inv(s)
    ensures s.drained < s.size <==> s.tokens > 0 || exists u :: u in s.threads && HoldsSlot(s.threads[u].at)
  {
    if u :| u in s.threads && HoldsSlot(s.threads[u].at) {
      SubsetSize({u}, Those(s.threads, HoldsSlot));
    }
    if s.drained < s.size && s.tokens == 0 {
      assert Those(s.threads, HoldsSlot) != {};
      var u :| u in Those(s.threads, HoldsSlot);
    }
  }

  // What a call that holds a slot of a closed pool can do next on its way to returning it.
  function ReturnStep(th: Thread): Action {
    match th.at
    case AcqTake => Proceed(Take)
    case AcqCheck => Judge(CheckStale)
    case AcqLimit => Judge(ReadLimit)
    case AcqAlive => Judge(CheckAlive(false))
    case LaunchRead => Proceed(ReadOptions)
    case Launching => Proceed(LaunchFails)
    case LaunchLock => Settle(Register)
    case LaunchRaced => Settle(CloseRaced)
    case Leased => Judge(Release)
    case ProbeRefused => Judge(IsolateAndRetire)
    case PutLock => Settle(Put)
    case AcqDrop => if th.down then Settle(Uncount) else Settle(Shut)
    case PutDrop => if th.down then Settle(Uncount) else Settle(Shut)
    case AcqFail => Signal(FailReturnsSlot)
    case _ => Signal(ReturnSlot)
  }

  // How many such steps there are at most.
  function StepsLeft(th: Thread): nat {
    match th.at
    case AcqTake => 2
    case AcqCheck => 7
    case AcqLimit => 6
    case AcqAlive => 5
    case AcqDrop => if th.down then 3 else 4
    case LaunchRead => 3
    case Launching => 2
    case LaunchLock => 3
    case LaunchRaced => 2
    case Leased => 5
    case ProbeRefused => 5
    case PutLock => 4
    case PutDrop => if th.down then 2 else 3
    case _ => 1
  }

  predicate HoldsOne(s: State, u: ThreadId) { u in s.threads && HoldsSlot(s.threads[u].at) }

  // One step nearer to a free slot of a closed pool.
  predicate Nearer(s: State, u: ThreadId, e: Effect)
    requires u in s.threads
  {
    && e.pool.closed
    && (e.tokens > s.tokens || (e.tokens == s.tokens && HoldsSlot(e.thread.at)
                                && StepsLeft(e.thread) < StepsLeft(s.threads[u])))
  }

  lemma JudgeIsNearer(s: State, u: ThreadId, j: Judgement)
    requires HasBrowser(s, u) && s.pool.closed && MayJudge(s, s.threads[u], j) && ReturnStep(s.threads[u]) == Judge(j)
    ensures Nearer(s, u, JudgeEffect(s, u, j))
  {
  }

  lemma SettleIsNearer(s: State, u: ThreadId, x: Settlement)
    requires HasBrowser(s, u) && s.pool.closed && MaySettle(s.threads[u], x) && ReturnStep(s.threads[u]) == Settle(x)
    requires HoldsSlot(s.threads[u].at)
    ensures Nearer(s, u, SettleEffect(s, u, x))
  {
  }

  lemma ReturnIsEnabled(s: State, u: ThreadId)
    requires Inv(s) && HoldsOne(s, u)
    ensures Enabled(s, u, ReturnStep(s.threads[u]))
  {
    var th := s.threads[u];
    assert ThreadPlaced(s, u);
    if Owns(th.at) {
      AboutBrowser(s, u, th.hand[0]);
    }
  }

  lemma ReturnGoesOn(s: State, u: ThreadId)
    requires Inv(s) && s.pool.closed && HoldsOne(s, u)
    ensures var a := ReturnStep(s.threads[u]); Enabled(s, u, a) && Nearer(s, u, Outcome(s, u, a))
  {
    hide Inv;
    ReturnIsEnabled(s, u);
    match ReturnStep(s.threads[u])
    case Judge(j) => JudgeIsNearer(s, u, j);
    case Settle(x) => SettleIsNearer(s, u, x);
    case Signal(_) =>
    case Proceed(_) =>
  }

  lemma SlotsAreCounted(s: State)
    requires Inv(s)
    ensures s.tokens >= 0
  {
  }

  lemma NearerOnCommit(s: State, u: ThreadId, e: Effect)
    requires u in s.threads && Nearer(s, u, e)
    ensures var s' := Commit(s, u, e);
            && s'.pool.closed && s'.tokens >= s.tokens
            && (s'.tokens == s.tokens ==> HoldsOne(s', u) && StepsLeft(s'.threads[u]) < StepsLeft(s.threads[u]))
  {
    hide StepsLeft;
  }

  // Whoever holds a slot can return it while another call goes on waiting.
  lemma {:induction false} SlotComesBack(run: Run, u: ThreadId, t: ThreadId) returns (later: Run)
    requires Legal(run) && After(run).pool.closed && HoldsOne(After(run), u) && WaitsForSlot(After(run), t)
    ensures Legal(later) && Continues(later, run)
    ensures After(later).pool.closed && After(later).tokens > 0 && WaitsForSlot(After(later), t)
    decreases StepsLeft(After(run).threads[u])
  {
    hide Inv, Outcome, ReturnStep, StepsLeft, Nearer, Commit, Enabled;
    var s := After(run);
    Reachable(run);
    SlotsAreCounted(s);
    ReturnGoesOn(s, u);
    NearerOnCommit(s, u, Outcome(s, u, ReturnStep(s.threads[u])));
    later := Then(run, Acts(u, ReturnStep(s.threads[u])));
    OthersKeepTheirThreads(s, later.step, t);
    if After(later).tokens <= s.tokens {
      var more := SlotComesBack(later, u, t);
      ContinuesOn(more, later, run);
      later := more;
    }
  }

  lemma {:induction false} ContinuesOn(run: Run, between: Run, earlier: Run)
    requires Continues(run, between) && Continues(between, earlier)
    ensures Continues(run, earlier)
  {
    if run != between {
      ContinuesOn(run.before, between, earlier);
    }
  }

  // With a free slot, the call takes it and finds the pool closed.
  lemma TokenTells(run: Run, t: ThreadId) returns (later: Run)
    requires Legal(run) && After(run).pool.closed && After(run).tokens > 0 && WaitsForSlot(After(run), t)
    ensures Legal(later) && Continues(later, run) && IsTold(After(later), t)
  {
    var got := Then(run, Acts(t, Signal(GetSlot)));
    later := Then(got, Acts(t, Proceed(Take)));
    assert Continues(got, run);
  }

  // ---------- exactly until the last slot is taken ----------

  /** A call that waits for a slot of a closed pool can be told that the pool is closed exactly
      as long as Close has not taken every slot. After that it waits for its context to end. */
  lemma ToldUntilDrained(run: Run, t: ThreadId)
    requires Legal(run) && After(run).pool.closed && WaitsForSlot(After(run), t)
    ensures CanBeTold(run, t) <==> After(run).drained < After(run).size
    ensures Enabled(After(run), t, Signal(GiveUp))
  {
    var s := After(run);
    Reachable(run);
    SlotLeft(s);
    if s.drained < s.size {
      var free := run;
      if s.tokens <= 0 {
        var u :| u in s.threads && HoldsSlot(s.threads[u].at);
        free := SlotComesBack(run, u, t);
      }
      var later := TokenTells(free, t);
      ContinuesOn(later, free, run);
    } else if CanBeTold(run, t) {
      var later :| Continues(later, run) && Legal(later) && IsTold(After(later), t);
      NoSlotAfterDrain(later, run, t);
      assert false;
    }
  }

  /** And it does happen: the only slot of a pool is taken by Close, and then a call asks for one. */
  lemma NeverTold(options: Options)
    ensures var drained := Then(Then(New(1, options, 0), Starts(0, Close)), Acts(0, Signal(Drain)));
            var run := Then(drained, Starts(1, Acquire));
            Legal(run) && After(run).pool.closed && WaitsForSlot(After(run), 1) && !CanBeTold(run, 1)
  {
    hide CanBeTold, Inv, Continues;
    var closed := Then(New(1, options, 0), Starts(0, Close));
    var drained := Then(closed, Acts(0, Signal(Drain)));
    var run := Then(drained, Starts(1, Acquire));
    assert Legal(closed.before) && After(closed.before).threads == map[];
    assert Legal(closed) && After(closed).threads.Keys == {0} && After(closed).threads[0].at == CloseDrain;
    assert Legal(drained) && After(drained).threads.Keys == {0};
    ToldUntilDrained(run, 1);
  }
}
