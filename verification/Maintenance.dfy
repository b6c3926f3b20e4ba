/** When the daemon prunes, sweeps and vacuums: due times kept across runs, reloads and restarts. */
module Maintenance {
  import opened Wrappers

  // In minutes.
  const PRUNE_INTERVAL := 60
  const STARTUP_DELAY := 10
  const STARTUP_JITTER := 10

  // A sweep schedule has no ratio.
  datatype Schedule = Schedule(enabled: bool, interval: int, minFreeRatio: real)

  const UNSET := Schedule(false, 0, 0.0)

  // One kind of scheduled run: the schedule in force, whether one has been put in force, and
  // when the next run is due.
  datatype Job = Job(schedule: Schedule, scheduled: bool, due: Option<int>)

  // ---------- the schedule of one kind ----------

  /** The later of two times: soonest, and an interval after the last receipt if there is one. */
  function SweepDue(last: Option<int>, soonest: int, interval: int): (due: int)
    ensures due >= soonest && (last.Some? ==> due >= last.value + interval)
    ensures due == soonest || (last.Some? && due == last.value + interval)
  {
    if last.None? then soonest
    else if last.value + interval > soonest then last.value + interval
    else soonest
  }

  // What putting a schedule in force decides. supported says that there is anything to run.
  function Scheduled(job: Job, supported: bool, s: Schedule, now: int, jitter: int, last: Option<int>): Job {
    if job.scheduled && s == job.schedule then job
    else if !supported || !s.enabled then Job(s, true, None)
    else Job(s, true, Some(SweepDue(last, now + STARTUP_DELAY + jitter, s.interval)))
  }

  predicate IsDue(due: Option<int>, at: int) { due.Some? && at >= due.value }

  // The run finished by after: the next is one interval of rest later.
  function Rested(job: Job, after: int): Job { job.(due := Some(after + job.schedule.interval)) }

  // ---------- one timer fire ----------

  // What the clock reads while a fire is handled: at each check, and after each run. The context
  // may have ended before the second and before the third check.
  datatype Fire = Fire(pruneAt: int, prunedBy: int, endedFirst: bool, sweepAt: int, sweptBy: int, endedSecond: bool,
                       vacuumAt: int, vacuumedBy: int)

  predicate Monotone(f: Fire) {
    && f.pruneAt <= f.prunedBy <= f.sweepAt <= f.sweptBy <= f.vacuumAt <= f.vacuumedBy
    && (f.endedFirst ==> f.endedSecond)
  }

  datatype Ran = Ran(prune: bool, sweep: bool, vacuum: bool)

  // What is scheduled: nothing is due while a kind is off.
  datatype Plan = Plan(prune: Option<int>, sweep: Job, vacuum: Job)

  function RanOf(p: Plan, f: Fire): Ran {
    Ran(IsDue(p.prune, f.pruneAt), !f.endedFirst && IsDue(p.sweep.due, f.sweepAt),
        !f.endedFirst && !f.endedSecond && IsDue(p.vacuum.due, f.vacuumAt))
  }

  function AfterFire(p: Plan, f: Fire): Plan {
    var ran := RanOf(p, f);
    Plan(if ran.prune then Some(f.prunedBy + PRUNE_INTERVAL) else p.prune,
         if ran.sweep then Rested(p.sweep, f.sweptBy) else p.sweep,
         if ran.vacuum then Rested(p.vacuum, f.vacuumedBy) else p.vacuum)
  }

  function Sooner(a: Option<int>, b: Option<int>): Option<int> {
    if b.Some? && (a.None? || b.value < a.value) then b else a
  }

  // What the timer is armed for.
  function Armed(p: Plan): Option<int> { Sooner(Sooner(p.prune, p.sweep.due), p.vacuum.due) }

  /** The timer is armed for the earliest due time, and for none exactly when nothing is due. */
  lemma ArmedIsEarliest(p: Plan)
    ensures Armed(p).None? <==> p.prune.None? && p.sweep.due.None? && p.vacuum.due.None?
    ensures Armed(p).Some? ==> Armed(p) in {p.prune, p.sweep.due, p.vacuum.due}
    ensures forall due :: Some(due) in {p.prune, p.sweep.due, p.vacuum.due} ==>
              Armed(p).Some? && Armed(p).value <= due
  {
  }

  /** Every timer fire runs at least one due job, unless the context ended. */
  lemma FireRunsSomething(p: Plan, f: Fire)
    requires Armed(p).Some? && Armed(p).value <= f.pruneAt && Monotone(f)
    ensures var ran := RanOf(p, f); ran.prune || ran.sweep || ran.vacuum || f.endedSecond
  {
  }

  /** After a fire no job that ran is due again before a full interval of rest, however long it
      took; what was not due, or was cut off by the end of the context, keeps its due time. */
  lemma FireRests(p: Plan, f: Fire)
    requires Monotone(f) && p.sweep.schedule.interval > 0 && p.vacuum.schedule.interval > 0
    ensures var p', ran := AfterFire(p, f), RanOf(p, f);
            && !IsDue(p'.prune, if ran.prune then f.prunedBy else f.pruneAt)
            && (ran.sweep ==> !IsDue(p'.sweep.due, f.sweptBy + p.sweep.schedule.interval - 1))
            && (ran.vacuum ==> !IsDue(p'.vacuum.due, f.vacuumedBy + p.vacuum.schedule.interval - 1))
            && (!ran.prune ==> p'.prune == p.prune) && (!ran.sweep ==> p'.sweep == p.sweep)
            && (!ran.vacuum ==> p'.vacuum == p.vacuum)
  {
  }

  /** The maintenance loop: one goroutine owns these fields, so nothing else writes them. */
  class Loop {
    var prune: bool
    var nextPrune: int
    var sweep: Schedule
    var nextSweep: Option<int>
    var scheduled: bool
    const vacuumStore: bool
    var vacuum: Schedule
    var nextVacuum: Option<int>
    var vacuumScheduled: bool

    ghost function Planned(): Plan
      reads this
    {
      Plan(if prune then Some(nextPrune) else None, Job(sweep, scheduled, nextSweep),
           Job(vacuum, vacuumScheduled, nextVacuum))
    }

    // A loop with nothing in force yet; retention says whether there is anything to prune.
    constructor (retention: bool, vacuumStore: bool, now: int)
      ensures this.vacuumStore == vacuumStore
      ensures Planned() == Plan(if retention then Some(now + PRUNE_INTERVAL) else None,
                                Job(UNSET, false, None), Job(UNSET, false, None))
    {
      this.vacuumStore := vacuumStore;
      prune, nextPrune := retention, now + PRUNE_INTERVAL;
      sweep, scheduled, nextSweep := UNSET, false, None;
      vacuum, vacuumScheduled, nextVacuum := UNSET, false, None;
    }

    method Arm() returns (next: Option<int>)
      ensures next == Armed(Planned())
    {
      next := None;
      if prune {
        next := Some(nextPrune);
      }
      if nextSweep.Some? && (next.None? || nextSweep.value < next.value) {
        next := nextSweep;
      }
      if nextVacuum.Some? && (next.None? || nextVacuum.value < next.value) {
        next := nextVacuum;
      }
    }

    // One timer fire: the three kinds in their order.
    method RunDue(f: Fire) returns (ran: Ran)
      modifies this
      ensures ran == RanOf(old(Planned()), f) && Planned() == AfterFire(old(Planned()), f)
    {
      ran := Ran(false, false, false);
      if prune && f.pruneAt >= nextPrune {
        nextPrune := f.prunedBy + PRUNE_INTERVAL;
        ran := ran.(prune := true);
      }
      // The context may have ended while the prune ran,
      if f.endedFirst {
        return;
      }
      if nextSweep.Some? && f.sweepAt >= nextSweep.value {
        nextSweep := Some(f.sweptBy + sweep.interval);
        ran := ran.(sweep := true);
      }
      // or while the sweep did.
      if f.endedSecond {
        return;
      }
      if nextVacuum.Some? && f.vacuumAt >= nextVacuum.value {
        nextVacuum := Some(f.vacuumedBy + vacuum.interval);
        ran := ran.(vacuum := true);
      }
    }

    // A schedule arrives for the sweep; the one already in force is ignored.
    method Reschedule(s: Schedule, now: int, jitter: int, last: Option<int>)
      modifies this
      ensures Planned() == old(Planned()).(sweep := Scheduled(old(Planned()).sweep, true, s, now, jitter, last))
    {
      if scheduled && s == sweep {
        return;
      }
      sweep, scheduled := s, true;
      if !s.enabled {
        nextSweep := None;
        return;
      }
      nextSweep := Some(SweepDue(last, now + STARTUP_DELAY + jitter, s.interval));
    }

    method RescheduleVacuum(v: Schedule, now: int, jitter: int, last: Option<int>)
      modifies this
      ensures Planned()
              == old(Planned()).(vacuum := Scheduled(old(Planned()).vacuum, vacuumStore, v, now, jitter, last))
    {
      if vacuumScheduled && v == vacuum {
        return;
      }
      vacuum, vacuumScheduled := v, true;
      if !vacuumStore {
        nextVacuum := None;
        return;
      }
      if !v.enabled {
        nextVacuum := None;
        return;
      }
      nextVacuum := Some(SweepDue(last, now + STARTUP_DELAY + jitter, v.interval));
    }
  }

  // ---------- whole histories of one kind, across restarts ----------

  // A scheduled run: when it started and finished, the interval that was in force, and when the
  // process had last started or changed the schedule.
  datatype Run = Run(started: int, finished: int, interval: int, changed: int)

  datatype Track = Track(job: Job, now: int, receipt: Option<int>, changed: int, runs: seq<Run>)

  datatype Step =
    // A process starts, with nothing in force, and puts s in force. If the receipts cannot be
    // read, it goes on as if there were none.
    | Starts(s: Schedule, at: int, jitter: int, readable: bool)
    | Reloads(s: Schedule, at: int, jitter: int, readable: bool)
    // A fire reaches the check of this kind; the run it starts is over at finished, leaves a
    // receipt of that unless it is lost, and returns to the loop.
    | Fires(at: int, finished: int, lost: bool, returned: int)
    // A run somebody else started leaves a receipt.
    | Elsewhere(at: int)

  function Latest(receipt: Option<int>, at: int): Option<int> {
    if receipt.Some? && receipt.value > at then receipt else Some(at)
  }

  function Next(supported: bool, t: Track, s: Step): Track {
    match s
    case Starts(schedule, at, jitter, readable) =>
      var last := if readable then t.receipt else None;
      Track(Scheduled(Job(UNSET, false, None), supported, schedule, at, jitter, last), at, t.receipt, at, t.runs)
    case Reloads(schedule, at, jitter, readable) =>
      var last := if readable then t.receipt else None;
      Track(Scheduled(t.job, supported, schedule, at, jitter, last), at, t.receipt,
            if t.job.scheduled && schedule == t.job.schedule then t.changed else at, t.runs)
    case Fires(at, finished, lost, returned) =>
      if IsDue(t.job.due, at)
      then Track(Rested(t.job, returned), returned, if lost then t.receipt else Latest(t.receipt, finished), t.changed,
                 t.runs + [Run(at, finished, t.job.schedule.interval, t.changed)])
      else t.(now := at)
    case Elsewhere(at) => t.(now := at, receipt := Latest(t.receipt, at))
  }

  // Time moves on, and intervals are ones configuration accepts.
  predicate Possible(t: Track, s: Step) {
    match s
    case Starts(schedule, at, jitter, _) => t.now <= at && 0 <= jitter < STARTUP_JITTER && schedule.interval >= 0
    case Reloads(schedule, at, jitter, _) => t.now <= at && 0 <= jitter < STARTUP_JITTER && schedule.interval >= 0
    case Fires(at, finished, _, returned) => t.now <= at <= finished <= returned
    case Elsewhere(at) => t.now <= at
  }

  // Receipts are written and can be read.
  predicate Receipted(s: Step) {
    match s
    case Starts(_, _, _, readable) => readable
    case Reloads(_, _, _, readable) => readable
    case Fires(_, _, lost, _) => !lost
    case Elsewhere(_) => true
  }

  const NEVER_RAN := Track(Job(UNSET, false, None), 0, None, 0, [])

  function From(supported: bool, t: Track, steps: seq<Step>): Track {
    if steps == [] then t else Next(supported, From(supported, t, steps[..|steps| - 1]), steps[|steps| - 1])
  }

  ghost predicate PossibleRun(supported: bool, steps: seq<Step>) {
    steps != [] ==>
      var before := steps[..|steps| - 1];
      PossibleRun(supported, before) && Possible(From(supported, NEVER_RAN, before), steps[|steps| - 1])
  }

  // The run waited out the startup delay.
  predicate Waited(r: Run) { r.started >= r.changed + STARTUP_DELAY }

  ghost predicate AllWaited(t: Track) {
    && t.job.schedule.interval >= 0
    && (t.job.due.Some? ==> t.job.due.value >= t.changed + STARTUP_DELAY)
    && forall i :: 0 <= i < |t.runs| ==> Waited(t.runs[i])
  }

  // The run came no sooner after the one before it than the interval that was in force.
  predicate Spaced(runs: seq<Run>, i: nat)
    requires 0 < i < |runs|
  {
    runs[i].started >= runs[i - 1].finished + runs[i].interval
  }

  ghost predicate AllSpaced(runs: seq<Run>) { forall i :: 0 < i < |runs| ==> Spaced(runs, i) }

  // Whenever the next fire comes, the run it starts keeps the spacing.
  ghost predicate NextIsSpaced(supported: bool, t: Track) {
    forall f: Step :: f.Fires? && Possible(t, f) ==> AllSpaced(Next(supported, t, f).runs)
  }

  // At every point of the history.
  ghost predicate AlwaysSpaced(supported: bool, steps: seq<Step>) {
    && NextIsSpaced(supported, From(supported, NEVER_RAN, steps))
    && (steps != [] ==> AlwaysSpaced(supported, steps[..|steps| - 1]))
  }

  // The step decides on a new due time for something that is to run.
  predicate Reschedules(supported: bool, t: Track, s: Step) {
    match s
    case Starts(schedule, _, _, _) => supported && schedule.enabled
    case Reloads(schedule, _, _, _) =>
      supported && schedule.enabled && !(t.job.scheduled && schedule == t.job.schedule)
    case _ => false
  }

  // It sees a receipt of the last run or of a later one, or its startup delay takes it past the
  // interval anyway.
  predicate Safe(supported: bool, t: Track, s: Step) {
    t.runs != [] && Reschedules(supported, t, s) ==>
      var last := t.runs[|t.runs| - 1].finished;
      || (s.readable && t.receipt.Some? && t.receipt.value >= last)
      || s.at + STARTUP_DELAY + s.jitter >= last + s.s.interval
  }

  predicate AllSafe(supported: bool, steps: seq<Step>) {
    steps != [] ==>
      var before := steps[..|steps| - 1];
      AllSafe(supported, before) && Safe(supported, From(supported, NEVER_RAN, before), steps[|steps| - 1])
  }

  // What is due keeps its distance from the last run.
  predicate Distant(t: Track) {
    t.runs != [] && t.job.due.Some? ==>
      t.job.due.value >= t.runs[|t.runs| - 1].finished + t.job.schedule.interval
  }

  lemma StepWaits(supported: bool, t: Track, s: Step)
    requires AllWaited(t) && Possible(t, s)
    ensures AllWaited(Next(supported, t, s))
  {
  }

  /** Through any number of starts, reloads, fires and runs by other processes, no scheduled run
      starts within the startup delay of a start or a change of schedule - even one decided on a
      receipt log that cannot be read. */
  lemma {:induction false} RunsWait(supported: bool, steps: seq<Step>)
    requires PossibleRun(supported, steps)
    ensures AllWaited(From(supported, NEVER_RAN, steps))
  {
    if steps != [] {
      RunsWait(supported, steps[..|steps| - 1]);
      StepWaits(supported, From(supported, NEVER_RAN, steps[..|steps| - 1]), steps[|steps| - 1]);
    }
  }

  lemma MoreRunsSpaced(runs: seq<Run>, r: Run)
    requires AllSpaced(runs)
    requires runs != [] ==> r.started >= runs[|runs| - 1].finished + r.interval
    ensures AllSpaced(runs + [r])
  {
    forall i | 0 < i < |runs| + 1 ensures Spaced(runs + [r], i) {
      assert i < |runs| ==> Spaced(runs, i);
    }
  }

  lemma DistantIsSpaced(supported: bool, t: Track, f: Step)
    requires AllSpaced(t.runs) && Distant(t) && f.Fires? && Possible(t, f)
    ensures AllSpaced(Next(supported, t, f).runs) && Distant(Next(supported, t, f))
  {
    if IsDue(t.job.due, f.at) {
      MoreRunsSpaced(t.runs, Run(f.at, f.finished, t.job.schedule.interval, t.changed));
    }
  }

  // What is due is distant after a step exactly when the step is safe.
  lemma StepKeepsDistance(supported: bool, t: Track, s: Step)
    requires Distant(t) && AllSpaced(t.runs) && Possible(t, s)
    ensures AllSpaced(Next(supported, t, s).runs)
    ensures Distant(Next(supported, t, s)) <==> Safe(supported, t, s)
  {
    if s.Fires? {
      DistantIsSpaced(supported, t, s);
    }
  }

  // A fire at the very time something is due shows that it is not distant.
  lemma DueTooSoon(supported: bool, t: Track)
    requires !Distant(t) && t.now <= t.job.due.value
    ensures !NextIsSpaced(supported, t)
  {
    var due := t.job.due.value;
    var f := Fires(due, due, false, due);
    var runs := Next(supported, t, f).runs;
    assert Possible(t, f) && !Spaced(runs, |t.runs|);
  }

  lemma NextSpacedIfDistant(supported: bool, t: Track)
    requires Distant(t) && AllSpaced(t.runs)
    ensures NextIsSpaced(supported, t)
  {
    forall f: Step | f.Fires? && Possible(t, f) ensures AllSpaced(Next(supported, t, f).runs) {
      DistantIsSpaced(supported, t, f);
    }
  }

  /** No scheduled run starts before the previous one finished plus the interval in force, whenever
      fires come, exactly when every start and every change of schedule saw a receipt of the last
      run or came late enough by itself. */
  lemma {:induction false} SpacedExactly(supported: bool, steps: seq<Step>)
    requires PossibleRun(supported, steps)
    ensures AllSafe(supported, steps) <==> AlwaysSpaced(supported, steps)
    ensures AllSafe(supported, steps) ==>
              var t := From(supported, NEVER_RAN, steps); AllSpaced(t.runs) && Distant(t)
  {
    var t := From(supported, NEVER_RAN, steps);
    if steps == [] {
      NextSpacedIfDistant(supported, t);
    } else {
      var before, s := steps[..|steps| - 1], steps[|steps| - 1];
      var was := From(supported, NEVER_RAN, before);
      SpacedExactly(supported, before);
      if AllSafe(supported, before) {
        StepKeepsDistance(supported, was, s);
        if Safe(supported, was, s) {
          NextSpacedIfDistant(supported, t);
        } else {
          DueTooSoon(supported, t);
        }
      }
    }
  }

  // The last run left a receipt, or somebody's later one did.
  predicate ReceiptKept(t: Track) {
    t.runs != [] ==> t.receipt.Some? && t.receipt.value >= t.runs[|t.runs| - 1].finished
  }

  /** Schedules survive reloads and restarts: while receipts are written and can be read, every
      start and every reload is safe. */
  lemma {:induction false} ReceiptsKeepSpacing(supported: bool, steps: seq<Step>)
    requires PossibleRun(supported, steps)
    requires forall i :: 0 <= i < |steps| ==> Receipted(steps[i])
    ensures AllSafe(supported, steps) && ReceiptKept(From(supported, NEVER_RAN, steps))
  {
    if steps != [] {
      ReceiptsKeepSpacing(supported, steps[..|steps| - 1]);
      assert Receipted(steps[|steps| - 1]);
    }
  }

  /** Within one process and one schedule it takes no receipts at all. */
  lemma {:induction false} OneScheduleNeedsNone(supported: bool, steps: seq<Step>)
    requires PossibleRun(supported, steps) && steps != [] && steps[0].Starts?
    requires forall i :: 0 < i < |steps| ==>
               !steps[i].Starts? && (steps[i].Reloads? ==> steps[i].s == steps[0].s)
    ensures AllSafe(supported, steps)
    ensures var job := From(supported, NEVER_RAN, steps).job; job.scheduled && job.schedule == steps[0].s
  {
    var before := steps[..|steps| - 1];
    if before == [] {
      assert From(supported, NEVER_RAN, before) == NEVER_RAN && AllSafe(supported, before);
    } else {
      assert before[0] == steps[0] && forall i :: 0 < i < |before| ==> before[i] == steps[i];
      OneScheduleNeedsNone(supported, before);
    }
  }

  /** And without them it can fail: a daemon restarted after a run whose receipt was lost runs
      again before the interval has passed. */
  lemma LostReceipt()
    ensures var daily := Schedule(true, 1440, 0.0);
            var steps := [Starts(daily, 0, 0, true), Fires(10, 11, true, 11), Starts(daily, 20, 0, true),
                          Fires(30, 31, false, 31)];
            && PossibleRun(true, steps) && !AllSafe(true, steps) && !AllSpaced(From(true, NEVER_RAN, steps).runs)
  {
    var daily := Schedule(true, 1440, 0.0);
    var s0, s1, s2, s3 := Starts(daily, 0, 0, true), Fires(10, 11, true, 11), Starts(daily, 20, 0, true),
                          Fires(30, 31, false, 31);
    Extend(true, [], s0);
    Extend(true, [s0], s1);
    Extend(true, [s0, s1], s2);
    Extend(true, [s0, s1, s2], s3);
    assert [s0] + [s1] == [s0, s1] && [s0, s1] + [s2] == [s0, s1, s2] && [s0, s1, s2] + [s3] == [s0, s1, s2, s3];
    assert [] + [s0] == [s0];
    assert !Spaced(From(true, NEVER_RAN, [s0, s1, s2, s3]).runs, 1);
    SpacedExactly(true, [s0, s1, s2, s3]);
  }

  lemma Extend(supported: bool, steps: seq<Step>, s: Step)
    ensures From(supported, NEVER_RAN, steps + [s]) == Next(supported, From(supported, NEVER_RAN, steps), s)
    ensures PossibleRun(supported, steps) && Possible(From(supported, NEVER_RAN, steps), s) ==>
              PossibleRun(supported, steps + [s])
  {
    assert (steps + [s])[..|steps|] == steps;
  }

  /** What one fire does to the sweep and to the vacuum is the step of its kind. */
  lemma FireIsStep(p: Plan, f: Fire, sweeps: Track, vacuums: Track, finished: int, lost: bool)
    requires sweeps.job == p.sweep && vacuums.job == p.vacuum
    ensures AfterFire(p, f).sweep == if f.endedFirst then p.sweep else
              Next(true, sweeps, Fires(f.sweepAt, finished, lost, f.sweptBy)).job
    ensures AfterFire(p, f).vacuum == if f.endedFirst || f.endedSecond then p.vacuum else
              Next(true, vacuums, Fires(f.vacuumAt, finished, lost, f.vacuumedBy)).job
  {
  }

  /** A reload that does not change the schedule leaves the due time alone, and so does any number
      of them. */
  lemma {:induction false} UnchangedReloads(supported: bool, t: Track, reloads: seq<Step>)
    requires t.job.scheduled
    requires forall i :: 0 <= i < |reloads| ==> reloads[i].Reloads? && reloads[i].s == t.job.schedule
    ensures var t' := From(supported, t, reloads);
            t'.job == t.job && t'.changed == t.changed && t'.runs == t.runs
  {
    if reloads != [] {
      UnchangedReloads(supported, t, reloads[..|reloads| - 1]);
    }
  }
}
