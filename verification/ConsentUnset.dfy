/** Interactions that end without any outcome: when, and for which rules some page brings it about. */
module ConsentUnset {
  import opened Wrappers
  import opened Consent
  import opened ConsentEvidence

  // The last thing done was to run a rule none of whose steps, all optional, took effect.
  predicate AllStepsMissed(log: seq<Entry>, r: Rule, steps: seq<Action>) {
    && steps != [] && |steps| <= |log|
    && var last := log[|log| - |steps|..]; AreSteps(last, r, steps, false) && NothingTook(last, steps)
  }

  // The time was over right after that, and the rule has no fallback.
  predicate UnsetEvidence(log: seq<Entry>, u: Setup) {
    && log != []
    && var n := |log| - 1;
       log[n].answer.yes
       && exists r :: r in u.candidates && log[n].ask == TimeOver(Some(r)) && !HasFallback(r, u.mode)
                      && AllStepsMissed(log[..n], r, Steps(r, u.mode))
  }

  // ---------- who asks for the time ----------

  predicate NoTimeAsked(log: seq<Entry>) { forall i :: 0 <= i < |log| ==> !log[i].ask.TimeOver? }

  lemma NoTimeOfBoth(a: seq<Entry>, b: seq<Entry>)
    requires NoTimeAsked(a) && NoTimeAsked(b)
    ensures NoTimeAsked(a + b)
  {
  }

  lemma EscalationAsksNoTime(verify: seq<Entry>, gone: seq<Entry>, clicks: Clicks, again: seq<Entry>, rule: Rule,
                             steps: seq<Action>, u: Setup)
    requires IsPoll(verify, Verify(rule)) && IsPoll(gone, Gone(rule)) && IsPoll(again, Gone(rule))
    requires AreClicks(clicks, rule, steps, u)
    ensures NoTimeAsked(verify + (gone + (LogOfClicks(clicks) + again)))
  {
    ClicksOnlyClick(clicks, rule, steps, u);
    NoTimeOfBoth(LogOfClicks(clicks), again);
    NoTimeOfBoth(gone, LogOfClicks(clicks) + again);
    NoTimeOfBoth(verify, gone + (LogOfClicks(clicks) + again));
  }

  lemma RunAsksNoTime(run: RuleRun, rule: Rule, steps: seq<Action>, u: Setup)
    requires IsRun(run, rule, steps, u)
    ensures NoTimeAsked(LogOf(run))
  {
    match run {
      case Unverifiable(_, written, gone) => NoTimeOfBoth(written, gone);
      case Confirmed(_, verify, gone) => NoTimeOfBoth(verify, gone);
      case Escalated(_, verify, gone, clicks, again) =>
        EscalationAsksNoTime(verify, gone, clicks, again, rule, steps, u);
      case _ =>
    }
    NoTimeOfBoth(run.steps, Aftermath(run));
  }

  lemma FallbackAsksNoTime(run: FallbackRun, rule: Rule, u: Setup)
    requires IsFallback(run, rule, u)
    ensures NoTimeAsked(LogOfFallback(run))
  {
    match run {
      case FallbackConfirmed(_, verify, gone) => NoTimeOfBoth(verify, gone);
      case FallbackEscalated(_, verify, gone, clicks, again) =>
        EscalationAsksNoTime(verify, gone, clicks, again, rule, rule.necessary, u);
      case _ =>
    }
    NoTimeOfBoth(run.steps, FallbackAftermath(run));
  }

  lemma RanAsksNoTime(t: Try, r: Rule, u: Setup)
    requires IsTry(t, r, u)
    ensures NoTimeAsked((if t.Skipped? then [] else t.detect) + Ran(t))
  {
    if t.Attempt? {
      if t.run.Some? {
        RunAsksNoTime(t.run.value, r, Steps(r, u.mode), u);
      }
      if t.fallback.Some? {
        FallbackAsksNoTime(t.fallback.value, r, u);
        if t.run.Some? {
          NoTimeOfBoth(LogOf(t.run.value), LogOfFallback(t.fallback.value));
        }
      }
      NoTimeOfBoth(t.detect, Ran(t));
    }
  }

  // Nobody said that the time is over.
  predicate TimeLeft(log: seq<Entry>) { forall i :: 0 <= i < |log| ==> log[i].ask.TimeOver? ==> !log[i].answer.yes }

  lemma TimeLeftInBoth(a: seq<Entry>, b: seq<Entry>)
    requires TimeLeft(a) && TimeLeft(b)
    ensures TimeLeft(a + b)
  {
  }

  lemma TryHasTime(t: Try, r: Rule, u: Setup)
    requires IsTry(t, r, u) && (Concludes(OutcomeOfTry(t)) || !Stops(t))
    ensures TimeLeft(LogOfTry(t))
  {
    var ran := (if t.Skipped? then [] else t.detect) + Ran(t);
    RanAsksNoTime(t, r, u);
    assert TimeLeft(ran) && TimeLeft(Checked(t));
    TimeLeftInBoth(ran, Checked(t));
    Regroup(if t.Skipped? then [] else t.detect, Ran(t), Checked(t));
  }

  lemma {:induction false} TriesHaveTime(front: seq<Entry>, tries: seq<Try>, u: Setup)
    requires TriesFit(tries, u) && TimeLeft(front)
    requires forall k :: 0 <= k < |tries| ==> Concludes(OutcomeOfTry(tries[k])) || !Stops(tries[k])
    ensures TimeLeft(front + LogOfTries(tries))
  {
    if tries == [] {
      assert front + [] == front;
    } else {
      var n := |tries| - 1;
      TriesHaveTime(front, tries[..n], u);
      TryHasTime(tries[n], u.candidates[n], u);
      TimeLeftInBoth(front + LogOfTries(tries[..n]), LogOfTry(tries[n]));
      Regroup(front, LogOfTries(tries[..n]), LogOfTry(tries[n]));
    }
  }

  lemma FrontHasTime(f: Front)
    requires IsFront(f)
    ensures TimeLeft(LogOfFront(f))
  {
    var log := LogOfFront(f);
    var n := |f.looks|;
    assert log[0] == f.prepare && log[1] == f.probe && log[2 + n] == f.snapshot;
    assert forall i :: 0 <= i < n ==> log[2 + i] == f.looks[i];
    assert forall i :: 3 + n <= i < |log| ==> log[i] == f.call.value;
  }

  // An attempt after which the time was over claims nothing exactly when its steps all missed.
  lemma MissedIsUnset(t: Try, r: Rule, u: Setup, before: seq<Entry>)
    requires IsTry(t, r, u) && t.Attempt? && t.check.Some?
    ensures OutcomeOfTry(t) == Unset
            <==> !HasFallback(r, u.mode) && AllStepsMissed(before + (t.detect + Ran(t)), r, Steps(r, u.mode))
  {
    var steps := Steps(r, u.mode);
    var log := before + (t.detect + Ran(t));
    Regroup(before, t.detect, Ran(t));
    if t.fallback.None? {
      RunMisses(t.run.value, r, steps, u, before + t.detect);
    }
  }

  // A run that got past its steps ends with a question about what came of them.
  lemma AftermathEnds(run: RuleRun, r: Rule, steps: seq<Action>, u: Setup)
    requires IsRun(run, r, steps, u) && !run.NothingToTry? && !run.StepFailed?
    ensures Aftermath(run) != [] && !Aftermath(run)[|Aftermath(run)| - 1].ask.Perform?
  {
    match run
    case Unverifiable(_, written, gone) =>
    case Unconfirmed(_, verify) =>
    case Confirmed(_, verify, gone) =>
    case Escalated(_, verify, gone, clicks, again) =>
      assert Aftermath(run)[|Aftermath(run)| - 1] == again[|again| - 1];
  }

  lemma RunMisses(run: RuleRun, r: Rule, steps: seq<Action>, u: Setup, before: seq<Entry>)
    requires IsRun(run, r, steps, u) && steps != []
    ensures run.NothingToTry? <==> AllStepsMissed(before + LogOf(run), r, steps)
  {
    var log := before + LogOf(run);
    var start := |log| - |steps|;
    if run.NothingToTry? {
      assert log[start..] == run.steps;
    } else if run.StepFailed? {
      assert log[|log| - 1] == run.steps[|run.steps| - 1];
      assert start >= 0 ==> log[start..][|steps| - 1] == log[|log| - 1];
    } else {
      AftermathEnds(run, r, steps, u);
      assert log[|log| - 1] == Aftermath(run)[|Aftermath(run)| - 1];
      assert start >= 0 ==> log[start..][|steps| - 1] == log[|log| - 1];
    }
  }

  // The log up to where the time after the last try was looked at.
  lemma LogOfStopped(front: seq<Entry>, tries: seq<Try>)
    requires tries != [] && tries[|tries| - 1].Attempt? && tries[|tries| - 1].check.Some?
    ensures var n := |tries| - 1;
            front + LogOfTries(tries)
            == front + LogOfTries(tries[..n]) + (tries[n].detect + Ran(tries[n])) + [tries[n].check.value]
  {
    var n := |tries| - 1;
    var t, before := tries[n], front + LogOfTries(tries[..n]);
    Regroup(front, LogOfTries(tries[..n]), LogOfTry(t));
    Regroup(t.detect, Ran(t), Checked(t));
    Regroup(before, t.detect + Ran(t), Checked(t));
  }

  // The last try looked at the time, and it was over.
  lemma StoppedIsUnset(front: seq<Entry>, tries: seq<Try>, u: Setup)
    requires TriesFit(tries, u) && tries != []
    requires Stops(tries[|tries| - 1]) && !Concludes(OutcomeOfTry(tries[|tries| - 1]))
    ensures OutcomeOfTry(tries[|tries| - 1]) == Unset <==> UnsetEvidence(front + LogOfTries(tries), u)
  {
    var n := |tries| - 1;
    LogOfStopped(front, tries);
    assert IsTry(tries[n], u.candidates[n], u);
    EndIsUnset(front + LogOfTries(tries[..n]), tries[n], u.candidates[n], u);
  }

  lemma EndIsUnset(before: seq<Entry>, t: Try, r: Rule, u: Setup)
    requires IsTry(t, r, u) && t.Attempt? && t.check.Some? && t.check.value.answer.yes && r in u.candidates
    ensures OutcomeOfTry(t) == Unset <==> UnsetEvidence(before + (t.detect + Ran(t)) + [t.check.value], u)
  {
    hide Ran, OutcomeOfTry, AllStepsMissed, IsAttempt;
    MissedIsUnset(t, r, u, before);
    assert (before + (t.detect + Ran(t)) + [t.check.value])[..|before + (t.detect + Ran(t))|]
           == before + (t.detect + Ran(t));
  }

  lemma NoEvidenceInTime(log: seq<Entry>, u: Setup)
    requires TimeLeft(log)
    ensures !UnsetEvidence(log, u)
  {
  }

  lemma RulesUnsetExactly(f: Front, tries: seq<Try>, u: Setup)
    requires IsFront(f) && AreTries(tries, u)
    ensures RulesOutcome(tries, HasTcf(f), HasBanner(f)) == Unset
            <==> UnsetEvidence(LogOfFront(f) + LogOfTries(tries), u)
  {
    if tries != [] && Stops(tries[|tries| - 1]) && !Concludes(OutcomeOfTry(tries[|tries| - 1])) {
      StoppedIsUnset(LogOfFront(f), tries, u);
    } else {
      FrontHasTime(f);
      TriesHaveTime(LogOfFront(f), tries, u);
      NoEvidenceInTime(LogOfFront(f) + LogOfTries(tries), u);
    }
  }

  /** An interaction ends without any outcome exactly when its log ends with a rule all of whose
      steps, optional ones, missed, and then with the time being over. */
  lemma UnsetExactly(x: Story, u: Setup)
    requires IsStory(x, u)
    ensures StoryOutcome(x) == Unset <==> UnsetEvidence(LogOfStory(x), u)
  {
    match x
    case Unprepared(_) => NoEvidenceInTime(LogOfStory(x), u);
    case ByTcf(front) =>
      FrontHasTime(front);
      NoEvidenceInTime(LogOfStory(x), u);
    case ByRules(front, tries) => RulesUnsetExactly(front, tries, u);
  }

  // ---------- which rules allow it ----------

  // On some page none of the steps of r takes effect, and r has nothing else to try.
  predicate CanMiss(r: Rule, u: Setup) {
    && Usable(r, u) && (r.hasDetect || r.hostScoped)
    && Steps(r, u.mode) != [] && AllOptional(Steps(r, u.mode)) && !HasFallback(r, u.mode)
  }

  // On some page r does not conclude, and the next candidate has its turn.
  predicate CanBePassed(r: Rule, u: Setup) {
    || !Usable(r, u) || r.hasDetect || !r.hostScoped || r.hasVerify
    || !AllOptional(Steps(r, u.mode)) || !HasFallback(r, u.mode) || !AllOptional(r.necessary)
  }

  // A rule that can miss is behind none that always concludes.
  predicate MayEndUnset(u: Setup) {
    exists k :: 0 <= k < |u.candidates| && CanMiss(u.candidates[k], u)
                && forall j :: 0 <= j < k ==> CanBePassed(u.candidates[j], u)
  }

  lemma PassedCanBePassed(t: Try, r: Rule, u: Setup)
    requires IsTry(t, r, u) && !Stops(t)
    ensures CanBePassed(r, u)
  {
  }

  lemma UnsetCanMiss(t: Try, r: Rule, u: Setup)
    requires IsTry(t, r, u) && t.Attempt? && OutcomeOfTry(t) == Unset
    ensures CanMiss(r, u)
  {
  }

  /** Whatever the page answers and whenever the time is over, only such rules end without any
      outcome. */
  lemma UnsetNeedsSuchRules(x: Story, u: Setup)
    requires IsStory(x, u) && StoryOutcome(x) == Unset
    ensures MayEndUnset(u)
  {
    hide IsTry, CanMiss, CanBePassed, HasFallback;
    var k := |x.tries| - 1;
    UnsetCanMiss(x.tries[k], u.candidates[k], u);
    forall j | 0 <= j < k ensures CanBePassed(u.candidates[j], u) {
      PassedCanBePassed(x.tries[j], u.candidates[j], u);
    }
  }

  // ---------- the page on which they do ----------

  // Nothing is on this page but what r detects; no control is found, and the time is over once r
  // has run.
  function MissingAnswer(r: Rule, ask: Ask): Answer {
    match ask
    case Prepare => Answer(false, true, "", false)
    case Detect(rule) => Answer(false, rule == r, "", false)
    case Perform(_, _) => Answer(true, false, "", false)
    case TimeOver(after) => Answer(false, after == None || after == Some(r), "", false)
    case _ => Answer(false, false, "", false)
  }

  predicate AnsweredFor(log: seq<Entry>, r: Rule) {
    forall i :: 0 <= i < |log| ==> log[i].answer == MissingAnswer(r, log[i].ask)
  }

  lemma AnsweredParts(a: seq<Entry>, b: seq<Entry>, r: Rule)
    requires AnsweredFor(a + b, r)
    ensures AnsweredFor(a, r) && AnsweredFor(b, r)
  {
    forall i | 0 <= i < |a| ensures a[i].answer == MissingAnswer(r, a[i].ask) {
      assert (a + b)[i] == a[i];
    }
    forall i | 0 <= i < |b| ensures b[i].answer == MissingAnswer(r, b[i].ask) {
      assert (a + b)[|a| + i] == b[i];
    }
  }

  lemma {:induction false} AnsweredTry(tries: seq<Try>, k: nat, r: Rule)
    requires k < |tries| && AnsweredFor(LogOfTries(tries), r)
    ensures AnsweredFor(LogOfTry(tries[k]), r)
    decreases |tries|
  {
    hide AnsweredFor, LogOfTry;
    var before, last := tries[..|tries| - 1], tries[|tries| - 1];
    AnsweredParts(LogOfTries(before), LogOfTry(last), r);
    if k < |before| {
      assert before[k] == tries[k];
      AnsweredTry(before, k, r);
    } else {
      assert last == tries[k];
    }
  }

  // On this page no step takes effect, so a run is over with the first required one or has missed.
  lemma MissingRun(run: RuleRun, q: Rule, steps: seq<Action>, u: Setup, r: Rule)
    requires IsRun(run, q, steps, u) && steps != [] && AnsweredFor(LogOf(run), r)
    ensures if AllOptional(steps) then run.NothingToTry? else run.StepFailed?
  {
    AnsweredParts(run.steps, Aftermath(run), r);
    assert forall i :: 0 <= i < |run.steps| ==> run.steps[i].ask == Perform(q, i);
    assert !TookEffect(run.steps);
    if !run.StepFailed? {
      assert forall i :: 0 <= i < |steps| ==> run.steps[i].answer.error;
    }
  }

  lemma MissingFallback(run: FallbackRun, q: Rule, u: Setup, r: Rule)
    requires IsFallback(run, q, u) && q.necessary != [] && AnsweredFor(LogOfFallback(run), r)
    ensures if !AllOptional(q.necessary) then run.FallbackFailed?
            else if q.hasVerify then run.FallbackUnconfirmed? && VerdictOf(run.verify) == No
            else run.FallbackUnverifiable?
  {
    AnsweredParts(run.steps, FallbackAftermath(run), r);
    assert forall i :: 0 <= i < |run.steps| ==> run.steps[i].ask == Perform(q, i);
    if !run.FallbackFailed? {
      assert forall i :: 0 <= i < |q.necessary| ==> run.steps[i].answer.error;
      if q.hasVerify {
        MissingVerify(run, q, u, r);
      }
    }
  }

  lemma MissingVerify(run: FallbackRun, q: Rule, u: Setup, r: Rule)
    requires IsFallback(run, q, u) && q.hasVerify && !run.FallbackFailed? && AnsweredFor(FallbackAftermath(run), r)
    ensures run.FallbackUnconfirmed? && VerdictOf(run.verify) == No
  {
    var rest := FallbackAftermath(run)[|run.verify|..];
    assert FallbackAftermath(run) == run.verify + rest;
    AnsweredParts(run.verify, rest, r);
    assert run.verify[|run.verify| - 1].ask == Verify(q);
  }

  lemma AnsweredInTry(t: Try, r: Rule)
    requires t.Attempt? && AnsweredFor(LogOfTry(t), r)
    ensures AnsweredFor(t.detect, r) && AnsweredFor(Checked(t), r)
    ensures t.run.Some? ==> AnsweredFor(LogOf(t.run.value), r)
    ensures t.fallback.Some? ==> AnsweredFor(LogOfFallback(t.fallback.value), r)
  {
    AnsweredParts(t.detect, Ran(t) + Checked(t), r);
    AnsweredParts(Ran(t), Checked(t), r);
    if t.run.Some? && t.fallback.Some? {
      AnsweredParts(LogOf(t.run.value), LogOfFallback(t.fallback.value), r);
    }
  }

  // An attempt at q on this page: what ran took no effect, and was not confirmed.
  lemma MissingAttempt(t: Try, q: Rule, u: Setup, r: Rule)
    requires IsTry(t, q, u) && t.Attempt? && AnsweredFor(LogOfTry(t), r)
    ensures q.hasDetect ==> q == r
    ensures OutcomeOfTry(t) in {Unset, Failed, Unverified}
    ensures OutcomeOfTry(t) == Unset <==> AllOptional(Steps(q, u.mode)) && !HasFallback(q, u.mode)
    ensures OutcomeOfTry(t) == Unverified ==>
              HasFallback(q, u.mode) && !q.hasVerify && AllOptional(Steps(q, u.mode)) && AllOptional(q.necessary)
    ensures t.check.Some? ==> (t.check.value.answer.yes <==> q == r)
  {
    AnsweredInTry(t, r);
    if t.run.Some? {
      MissingRun(t.run.value, q, Steps(q, u.mode), u, r);
    }
    if t.fallback.Some? {
      MissingFallback(t.fallback.value, q, u, r);
    }
    assert t.check.Some? ==> t.check.value == Checked(t)[0];
  }

  lemma MissingStory(x: Story, u: Setup, k: nat)
    requires IsStory(x, u) && k < |u.candidates| && CanMiss(u.candidates[k], u)
    requires forall j :: 0 <= j < k ==> CanBePassed(u.candidates[j], u) && !CanMiss(u.candidates[j], u)
    requires AnsweredFor(LogOfStory(x), u.candidates[k])
    ensures StoryOutcome(x) == Unset
  {
    var r := u.candidates[k];
    MissingFront(x, u, r);
    AnsweredParts(LogOfFront(x.front), LogOfTries(x.tries), r);
    forall j | 0 <= j < |x.tries| && j <= k
      ensures Stops(x.tries[j]) <==> j == k
      ensures j == k ==> OutcomeOfTry(x.tries[j]) == Unset
    {
      AnsweredTry(x.tries, j, r);
      MissingTurn(x.tries[j], u.candidates[j], u, r);
    }
  }

  // Each candidate up to r: the first that can miss stops the search, the others are passed.
  lemma MissingTurn(t: Try, q: Rule, u: Setup, r: Rule)
    requires IsTry(t, q, u) && AnsweredFor(LogOfTry(t), r) && CanMiss(r, u)
    requires q == r || (CanBePassed(q, u) && !CanMiss(q, u))
    ensures Stops(t) <==> q == r
    ensures q == r ==> OutcomeOfTry(t) == Unset
  {
    if t.Attempt? {
      MissingAttempt(t, q, u, r);
    } else {
      assert t.Unmatched? ==> LogOfTry(t) == t.detect;
    }
  }

  lemma MissingFront(x: Story, u: Setup, r: Rule)
    requires IsStory(x, u) && AnsweredFor(LogOfStory(x), r)
    ensures x.ByRules?
  {
    assert LogOfStory(x)[0].ask == Prepare;
    if !x.Unprepared? {
      assert LogOfStory(x)[1] == x.front.probe;
    }
  }
}
