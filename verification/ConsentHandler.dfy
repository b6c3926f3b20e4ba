/** The consent handler. The page is an arbitrary answer to every question; the log of questions
    and answers is ghost, and what each method returns is proved against it. */
module ConsentHandler {
  import opened Wrappers
  import opened Consent
  import opened ConsentEvidence
  import opened ConsentUnset

  lemma AnyErrorMore(log: seq<Entry>, e: Entry)
    ensures AnyError(log + [e]) == (AnyError(log) || e.answer.error)
  {
    assert (log + [e])[|log|] == e;
    if i :| 0 <= i < |log| && log[i].answer.error {
      assert (log + [e])[i] == log[i];
    }
  }

  lemma TookEffectMore(log: seq<Entry>, e: Entry)
    ensures TookEffect(log + [e]) == (TookEffect(log) || !e.answer.error)
  {
    assert (log + [e])[|log|] == e;
    if i :| 0 <= i < |log| && !log[i].answer.error {
      assert (log + [e])[i] == log[i];
    }
  }

  lemma TookEffectConcat(a: seq<Entry>, b: seq<Entry>)
    ensures TookEffect(a + b) == (TookEffect(a) || TookEffect(b))
  {
    if i :| 0 <= i < |a| && !a[i].answer.error {
      assert (a + b)[i] == a[i];
    }
    if i :| 0 <= i < |b| && !b[i].answer.error {
      assert (a + b)[|a| + i] == b[i];
    }
  }

  lemma AnyYesMore(log: seq<Entry>, e: Entry)
    ensures AnyYes(log + [e]) == (AnyYes(log) || SaysYes(e.answer))
  {
    assert (log + [e])[|log|] == e;
    if i :| 0 <= i < |log| && SaysYes(log[i].answer) {
      assert (log + [e])[i] == log[i];
    }
  }

  lemma AnySaidMore(log: seq<Entry>, e: Entry, ask: Ask)
    ensures AnySaid(log + [e], ask) == (AnySaid(log, ask) || Said(e, ask))
  {
    AnySaidConcat(log, [e], ask);
    assert [e][0] == e;
  }

  // The first tried rules have offered their labels, and none of those took effect before the last.
  predicate IsLabelPassSoFar(log: seq<Entry>, rule: Rule, u: Setup, tried: nat) {
    && tried <= |u.rules| && AsksAre(log, Offered(rule, u, tried))
    && (tried > 0 ==> !TookEffect(log[..|Offered(rule, u, tried - 1)|]))
  }

  lemma LabelPassGrows(did: seq<Entry>, more: seq<Entry>, rule: Rule, u: Setup, k: nat)
    requires k < |u.rules| && IsLabelPassSoFar(did, rule, u, k) && !TookEffect(did)
    requires AsksAre(more, OfferedBy(u.rules[k], rule, u.mode))
    ensures IsLabelPassSoFar(did + more, rule, u, k + 1) && TookEffect(did + more) == TookEffect(more)
  {
    TookEffectConcat(did, more);
    assert (did + more)[..|did|] == did;
  }

  lemma TriesMore(before: seq<Entry>, tries: seq<Try>, t: Try)
    ensures before + LogOfTries(tries + [t]) == before + LogOfTries(tries) + LogOfTry(t)
    ensures AnyAttempt(tries + [t]) == (AnyAttempt(tries) || t.Attempt?)
  {
    assert (tries + [t])[..|tries|] == tries && (tries + [t])[|tries|] == t;
    if k :| 0 <= k < |tries| && tries[k].Attempt? {
      assert (tries + [t])[k].Attempt?;
    }
    Regroup(before, LogOfTries(tries), LogOfTry(t));
  }

  // Stands for the interaction that did not take place.
  const NO_STORY := Unprepared(Entry(Prepare, Answer(true, false, "", false)))

  method OnlyOptional(steps: seq<Action>) returns (all: bool)
    ensures all == AllOptional(steps)
  {
    for i := 0 to |steps|
      invariant AllOptional(steps[..i])
    {
      if !steps[i].optional {
        return false;
      }
    }
    assert steps[..|steps|] == steps;
    return true;
  }

  class Handler {
    const setup: Setup
    // The page's answer to the n-th question.
    const page: (nat, Ask) -> Answer

    var at: nat
    ghost var log: seq<Entry>

    // The log is what was asked so far, with the page's answers.
    ghost predicate Valid()
      reads this
    {
      at == |log| && forall i :: 0 <= i < |log| ==> log[i].answer == page(i, log[i].ask)
    }

    constructor (setup: Setup, page: (nat, Ask) -> Answer)
      ensures Valid() && this.setup == setup && this.page == page && log == []
    {
      this.setup, this.page, at, log := setup, page, 0, [];
    }

    method Evaluate(ask: Ask) returns (a: Answer)
      requires Valid()
      modifies this
      ensures Valid() && log == old(log) + [Entry(ask, a)]
    {
      a := page(at, ask);
      at, log := at + 1, log + [Entry(ask, a)];
    }

    // Asks again until the page says yes, since what it is asked about may take a while.
    method Poll(ask: Ask) returns (v: Verdict, ghost asked: seq<Entry>)
      requires Valid()
      modifies this
      ensures Valid() && log == old(log) + asked && IsPoll(asked, ask) && v == VerdictOf(asked)
    {
      asked := [];
      var errored := false;
      for n := 0 to ATTEMPTS
        invariant Valid() && log == old(log) + asked && |asked| == n && errored == AnyError(asked)
        invariant forall i :: 0 <= i < n ==>
                    asked[i].ask == ask && !SaysYes(asked[i].answer) && !asked[i].answer.ended
      {
        var a := Evaluate(ask);
        AnyErrorMore(asked, Entry(ask, a));
        asked := asked + [Entry(ask, a)];
        if !a.error && a.yes {
          return Yes, asked;
        }
        if a.error {
          errored := true;
        }
        if a.ended {
          return if errored then Errored else No, asked;
        }
      }
      return if errored then Errored else No, asked;
    }

    method RunSteps(rule: Rule, steps: seq<Action>) returns (failed: bool, any: bool, ghost ran: seq<Entry>)
      requires Valid()
      modifies this
      ensures Valid() && log == old(log) + ran
      ensures AreSteps(ran, rule, steps, failed) && (!failed ==> any == TookEffect(ran))
    {
      ran, any := [], false;
      for i := 0 to |steps|
        invariant Valid() && log == old(log) + ran && |ran| == i && any == TookEffect(ran)
        invariant forall k :: 0 <= k < i ==>
                    ran[k].ask == Perform(rule, k) && (ran[k].answer.error ==> steps[k].optional)
      {
        var a := Evaluate(Perform(rule, i));
        TookEffectMore(ran, Entry(Perform(rule, i), a));
        ran := ran + [Entry(Perform(rule, i), a)];
        if a.error {
          if steps[i].optional {
            continue;
          }
          return true, any, ran;
        }
        any := true;
      }
      failed := false;
    }

    // ---------- clicks at a banner that stays ----------

    // Clicks once more wherever the rule itself clicks.
    method ClickOwn(rule: Rule, steps: seq<Action>) returns (clicked: bool, ghost own: seq<Entry>)
      requires Valid()
      modifies this
      ensures Valid() && log == old(log) + own
      ensures AsksAre(own, OwnAsks(rule, steps, |steps|)) && clicked == AnyYes(own)
    {
      clicked, own := false, [];
      for i := 0 to |steps|
        invariant Valid() && log == old(log) + own && AsksAre(own, OwnAsks(rule, steps, i)) && clicked == AnyYes(own)
      {
        if steps[i].clicks {
          var a := Evaluate(Click(rule, i));
          AnyYesMore(own, Entry(Click(rule, i), a));
          own := own + [Entry(Click(rule, i), a)];
          if !a.error && a.yes {
            clicked := true;
          }
        }
      }
    }

    // Tries the labels one rule of the set offers.
    method ClickOffered(r: Rule, rule: Rule) returns (acted: bool, ghost did: seq<Entry>)
      requires Valid()
      modifies this
      ensures Valid() && log == old(log) + did
      ensures AsksAre(did, OfferedBy(r, rule, setup.mode)) && acted == TookEffect(did)
    {
      acted, did := false, [];
      if !r.heuristic || r.name == rule.name {
        return;
      }
      var steps := Steps(r, setup.mode);
      for i := 0 to |steps|
        invariant Valid() && log == old(log) + did && AsksAre(did, LabelAsks(r, steps, i)) && acted == TookEffect(did)
      {
        if steps[i].acts {
          var a := Evaluate(Perform(r, i));
          TookEffectMore(did, Entry(Perform(r, i), a));
          did := did + [Entry(Perform(r, i), a)];
          acted := acted || !a.error;
        }
      }
    }

    // The generic labels: each rule of the set in turn, until one acts.
    method ClickLabels(rule: Rule) returns (acted: bool, ghost did: seq<Entry>, ghost tried: nat)
      requires Valid()
      modifies this
      ensures Valid() && log == old(log) + did && IsLabelPass(did, rule, setup, tried) && acted == TookEffect(did)
    {
      did := [];
      for k := 0 to |setup.rules|
        invariant Valid() && log == old(log) + did && !TookEffect(did) && IsLabelPassSoFar(did, rule, setup, k)
      {
        ghost var more;
        acted, more := ClickOffered(setup.rules[k], rule);
        Regroup(old(log), did, more);
        LabelPassGrows(did, more, rule, setup, k);
        did := did + more;
        if acted {
          return true, did, k + 1;
        }
      }
      return false, did, |setup.rules|;
    }

    // The rule's own clicks first, and the labels only when none of those landed.
    method EscalateClicks(rule: Rule, steps: seq<Action>) returns (ghost clicks: Clicks)
      requires Valid()
      modifies this
      ensures Valid() && log == old(log) + LogOfClicks(clicks) && AreClicks(clicks, rule, steps, setup)
    {
      var clicked, own := ClickOwn(rule, steps);
      if clicked || !setup.allowHeuristic {
        assert own + [] == own;
        return Clicks(own, [], 0);
      }
      var _, labels, tried := ClickLabels(rule);
      Regroup(old(log), own, labels);
      return Clicks(own, labels, tried);
    }

    // ---------- running one rule ----------

    // A rule that says nothing about verification: the page itself may have left evidence.
    method WithoutVerification(rule: Rule, ghost steps: seq<Action>, ghost did: seq<Entry>)
      returns (outcome: Outcome, ghost run: RuleRun)
      requires Valid() && !rule.hasVerify && AreSteps(did, rule, steps, false) && !NothingTook(did, steps)
      modifies this
      ensures IsRun(run, rule, steps, setup) && !run.NothingToTry? && run.steps == did
      ensures Valid() && log == old(log) + Aftermath(run) && outcome == OutcomeOf(run)
    {
      var a := Evaluate(Written);
      ghost var written := [Entry(Written, a)];
      if !a.error && a.yes {
        var gone, looked := Poll(Gone(rule));
        Regroup(old(log), written, looked);
        return if gone == Yes then Applied else Unverified, Unverifiable(did, written, looked);
      }
      assert written + [] == written;
      return Unverified, Unverifiable(did, written, []);
    }

    // The clicks at a banner that is still there, and another look at it.
    method ClickAndLook(rule: Rule, steps: seq<Action>)
      returns (again: Verdict, ghost clicks: Clicks, ghost looked: seq<Entry>)
      requires Valid()
      modifies this
      ensures Valid() && log == old(log) + (LogOfClicks(clicks) + looked)
      ensures AreClicks(clicks, rule, steps, setup) && IsPoll(looked, Gone(rule)) && again == VerdictOf(looked)
    {
      clicks := EscalateClicks(rule, steps);
      again, looked := Poll(Gone(rule));
      Regroup(old(log), LogOfClicks(clicks), looked);
    }

    // After a check that said yes: looks at the banner, and clicks if it stays.
    method LookAtBanner(rule: Rule, steps: seq<Action>, ghost did: seq<Entry>, ghost verified: seq<Entry>)
      returns (outcome: Outcome, ghost run: RuleRun)
      requires Valid()
      modifies this
      ensures (run.Confirmed? || run.Escalated?) && run.steps == did && run.verify == verified
      ensures IsPoll(run.gone, Gone(rule)) && (VerdictOf(run.gone) == Yes <==> run.Confirmed?)
      ensures run.Escalated? ==> AreClicks(run.clicks, rule, steps, setup) && IsPoll(run.again, Gone(rule))
      ensures Valid() && outcome == OutcomeOf(run)
      ensures log == old(log) + (if run.Confirmed? then run.gone else run.gone + (LogOfClicks(run.clicks) + run.again))
    {
      var gone, looked := Poll(Gone(rule));
      if gone == Yes {
        return Applied, Confirmed(did, verified, looked);
      }
      var again, clicks, relooked := ClickAndLook(rule, steps);
      Regroup(old(log), looked, LogOfClicks(clicks) + relooked);
      run := Escalated(did, verified, looked, clicks, relooked);
      match again
      case Errored => return Unverified, run;
      case Yes => return Applied, run;
      case No => return BannerVisible, run;
    }

    method WithVerification(rule: Rule, steps: seq<Action>, ghost did: seq<Entry>)
      returns (outcome: Outcome, ghost run: RuleRun)
      requires Valid() && rule.hasVerify && AreSteps(did, rule, steps, false) && !NothingTook(did, steps)
      modifies this
      ensures IsRun(run, rule, steps, setup) && !run.NothingToTry? && run.steps == did
      ensures Valid() && log == old(log) + Aftermath(run) && outcome == OutcomeOf(run)
    {
      hide AreSteps, NothingTook, AreClicks, LogOfClicks;
      var ok, verified := Poll(Verify(rule));
      if ok == Errored {
        return Unverified, Unconfirmed(did, verified);
      }
      if ok == No {
        return Failed, Unconfirmed(did, verified);
      }
      outcome, run := LookAtBanner(rule, steps, did, verified);
    }

    /** Runs a rule's steps for the mode. ran is false when it had nothing to try. */
    method RunRule(rule: Rule, steps: seq<Action>) returns (outcome: Outcome, ran: bool, ghost run: RuleRun)
      requires Valid()
      modifies this
      ensures Valid() && log == old(log) + LogOf(run) && IsRun(run, rule, steps, setup)
      ensures outcome == OutcomeOf(run) && ran == !run.NothingToTry?
    {
      var allOptional := OnlyOptional(steps);
      var failed, any, did := RunSteps(rule, steps);
      if failed {
        return Failed, true, StepFailed(did);
      }
      if allOptional && !any {
        return Unset, false, NothingToTry(did);
      }
      ran := true;
      if rule.hasVerify {
        outcome, run := WithVerification(rule, steps, did);
      } else {
        outcome, run := WithoutVerification(rule, steps, did);
      }
      assert log == old(log) + LogOf(run) by {
        Regroup(old(log), did, Aftermath(run));
      }
    }

    // Whether the fallback's choice was recorded, and what is done about a banner that stays.
    method VerifyFallback(rule: Rule, ghost did: seq<Entry>) returns (outcome: Outcome, ghost run: FallbackRun)
      requires Valid() && rule.hasVerify && AreSteps(did, rule, rule.necessary, false)
      modifies this
      ensures Valid() && log == old(log) + FallbackAftermath(run) && run.steps == did
      ensures IsFallback(run, rule, setup) && outcome == FallbackOutcome(run)
    {
      var ok, verified := Poll(Verify(rule));
      if ok == Errored {
        return Unverified, FallbackUnconfirmed(did, verified);
      }
      if ok == No {
        return Failed, FallbackUnconfirmed(did, verified);
      }
      var gone, looked := Poll(Gone(rule));
      Regroup(old(log), verified, looked);
      if gone != No {
        return NecessaryOnly, FallbackConfirmed(did, verified, looked);
      }
      var _, clicks, relooked := ClickAndLook(rule, rule.necessary);
      ghost var rest := LogOfClicks(clicks) + relooked;
      Regroup(old(log), verified + looked, rest);
      Regroup(verified, looked, rest);
      return NecessaryOnly, FallbackEscalated(did, verified, looked, clicks, relooked);
    }

    /** Runs the fallback that limits consent to what is necessary; it can end in anything but Applied. */
    method RunNecessaryOnly(rule: Rule) returns (outcome: Outcome, ghost run: FallbackRun)
      requires Valid()
      modifies this
      ensures Valid() && log == old(log) + LogOfFallback(run)
      ensures IsFallback(run, rule, setup) && outcome == FallbackOutcome(run)
    {
      var failed, _, did := RunSteps(rule, rule.necessary);
      if failed {
        return Failed, FallbackFailed(did);
      }
      if !rule.hasVerify {
        return Unverified, FallbackUnverifiable(did);
      }
      outcome, run := VerifyFallback(rule, did);
      Regroup(old(log), did, FallbackAftermath(run));
    }

    // ---------- the rules in turn ----------

    // Whether the page is one the rule is for.
    method DetectRule(rule: Rule) returns (matched: bool, ghost asked: seq<Entry>)
      requires Valid()
      modifies this
      ensures Valid() && log == old(log) + asked && IsDetection(rule, asked) && matched == Matches(rule, asked)
    {
      if !rule.hasDetect {
        return rule.hostScoped, [];
      }
      var a := Evaluate(Detect(rule));
      return !a.error && a.yes, [Entry(Detect(rule), a)];
    }

    // Runs a rule that matched, and its fallback when it had nothing to try.
    method RunMatched(rule: Rule, ghost detect: seq<Entry>)
      returns (outcome: Outcome, ghost run: Option<RuleRun>, ghost fallback: Option<FallbackRun>)
      requires Valid() && Usable(rule, setup) && IsDetection(rule, detect) && Matches(rule, detect)
      modifies this
      ensures var t := Attempt(detect, run, fallback, None);
              && IsAttempt(t, rule, setup) && log == old(log) + Ran(t) && outcome == OutcomeOfTry(t)
      ensures Valid()
    {
      var steps, hasFallback := Steps(rule, setup.mode), HasFallback(rule, setup.mode);
      run, fallback := None, None;
      if steps == [] {
        ghost var only;
        outcome, only := RunNecessaryOnly(rule);
        fallback := Some(only);
        return;
      }
      var ran;
      ghost var first;
      outcome, ran, first := RunRule(rule, steps);
      run := Some(first);
      if hasFallback && !ran {
        ghost var last;
        outcome, last := RunNecessaryOnly(rule);
        fallback := Some(last);
        Regroup(old(log), LogOf(first), LogOfFallback(last));
      }
    }

    // A rule that matched is run, and if that does not conclude, the time is looked at.
    method AttemptRule(rule: Rule, ghost detect: seq<Entry>) returns (outcome: Outcome, over: bool, ghost t: Try)
      requires Valid() && Usable(rule, setup) && IsDetection(rule, detect) && Matches(rule, detect)
      modifies this
      ensures Valid() && t.Attempt? && t.detect == detect && IsTry(t, rule, setup)
      ensures log == old(log) + (Ran(t) + Checked(t))
      ensures outcome == OutcomeOfTry(t) && (Concludes(outcome) || over <==> Stops(t))
    {
      over := false;
      ghost var run, fallback;
      outcome, run, fallback := RunMatched(rule, detect);
      ghost var ran := Ran(Attempt(detect, run, fallback, None));
      if Concludes(outcome) {
        t := Attempt(detect, run, fallback, None);
        assert log == old(log) + (ran + []);
      } else {
        var a := Evaluate(TimeOver(Some(rule)));
        over, t := a.yes, Attempt(detect, run, fallback, Some(Entry(TimeOver(Some(rule)), a)));
        Regroup(old(log), ran, [t.check.value]);
      }
    }

    // One candidate: over says that the time was over once it had run without concluding.
    method TryRule(rule: Rule) returns (outcome: Outcome, attempted: bool, over: bool, ghost t: Try)
      requires Valid()
      modifies this
      ensures Valid() && IsTry(t, rule, setup) && log == old(log) + LogOfTry(t)
      ensures outcome == OutcomeOfTry(t) && attempted == t.Attempt? && (Concludes(outcome) || over <==> Stops(t))
    {
      over := false;
      if rule.heuristic && !setup.allowHeuristic {
        return Unset, false, false, Skipped;
      }
      if Steps(rule, setup.mode) == [] && !HasFallback(rule, setup.mode) {
        return Unset, false, false, Skipped;
      }
      var matched, detect := DetectRule(rule);
      if !matched {
        return Unset, false, false, Unmatched(detect);
      }
      attempted := true;
      outcome, over, t := AttemptRule(rule, detect);
      Regroup(old(log), detect, Ran(t) + Checked(t));
    }

    /** Tries the candidates in order; the first that concludes decides, and so does the first
        after which the time is over. */
    method ApplyRules(tcf: bool, banner: bool) returns (outcome: Outcome, ghost tries: seq<Try>)
      requires Valid()
      modifies this
      ensures Valid() && AreTries(tries, setup) && log == old(log) + LogOfTries(tries)
      ensures outcome == RulesOutcome(tries, tcf, banner)
    {
      tries := [];
      var attempted := false;
      for k := 0 to |setup.candidates|
        invariant Valid() && |tries| == k && log == old(log) + LogOfTries(tries) && attempted == AnyAttempt(tries)
        invariant TriesFit(tries, setup) && forall j :: 0 <= j < k ==> !Stops(tries[j])
      {
        var o, ran, over, t := TryRule(setup.candidates[k]);
        TriesMore(old(log), tries, t);
        tries := tries + [t];
        if Concludes(o) || over {
          return o, tries;
        }
        attempted := attempted || ran;
      }
      return if tcf || attempted || banner then Failed else NotNeeded, tries;
    }

    // ---------- the whole interaction ----------

    // Waits for a banner a while, unless a TCF API has answered the question.
    method AwaitBanner(tcf: bool, polls: nat) returns (found: bool, ghost looks: seq<Entry>)
      requires Valid()
      modifies this
      ensures Valid() && log == old(log) + looks && AreLooks(looks, tcf) && found == AnySaid(looks, Banner)
      ensures |looks| <= 1 + polls && (!found && !tcf ==> |looks| == 1 + polls)
    {
      var a := Evaluate(Banner);
      looks := [Entry(Banner, a)];
      AnySaidMore([], looks[0], Banner);
      assert [] + looks == looks;
      found := !a.error && a.yes;
      if found || tcf {
        return;
      }
      for n := 0 to polls
        invariant Valid() && log == old(log) + looks && !found && !AnySaid(looks, Banner) && |looks| == 1 + n
        invariant forall i :: 0 <= i < |looks| ==> looks[i].ask == Banner
      {
        a := Evaluate(Banner);
        AnySaidMore(looks, Entry(Banner, a), Banner);
        looks := looks + [Entry(Banner, a)];
        if !a.error && a.yes {
          return true, looks;
        }
      }
    }

    // Asks what is on a prepared page before anything is clicked, and tries the TCF API.
    method LookAround(polls: nat, ghost prepare: Entry)
      returns (tcf: bool, banner: bool, outcome: Outcome, done: bool, ghost f: Front)
      requires Valid() && log == [prepare] && prepare.ask == Prepare && !prepare.answer.error
      modifies this
      ensures Valid() && IsFront(f) && log == LogOfFront(f)
      ensures tcf == HasTcf(f) && banner == HasBanner(f) && done == Completed(f)
      ensures done ==> outcome == TcfOutcome(f.call.value)
    {
      var p := Evaluate(Probe);
      tcf := !p.error && p.yes;
      assert log == [prepare, Entry(Probe, p)];
      ghost var looks;
      banner, looks := AwaitBanner(tcf, polls);
      var snapshot := Evaluate(Snapshot);
      f := Front(prepare, Entry(Probe, p), looks, Entry(Snapshot, snapshot), None);
      assert log == LogOfFront(f);
      outcome, done := Failed, false;
      if tcf {
        ghost var call;
        outcome, done, call := ApplyTcf();
        f := f.(call := Some(call));
      }
    }

    // Tries the TCF API; done says that what it answered is conclusive.
    method ApplyTcf() returns (outcome: Outcome, done: bool, ghost call: Entry)
      requires Valid()
      modifies this
      ensures Valid() && log == old(log) + [call] && call.ask == Tcf && done == Said(call, Tcf)
      ensures done ==> outcome == TcfOutcome(call)
    {
      var t := Evaluate(Tcf);
      call := Entry(Tcf, t);
      if t.error || !t.yes {
        return Failed, false, call;
      }
      outcome, done := Applied, true;
      if t.text == "" {
        outcome := Unverified;
      }
    }

    // Tries the TCF API if there is one, and then the rules.
    method Interact(polls: nat) returns (outcome: Outcome, ghost story: Story)
      requires Valid() && log == []
      modifies this
      ensures Valid() && IsStory(story, setup) && log == LogOfStory(story) && outcome == StoryOutcome(story)
    {
      var a := Evaluate(Prepare);
      ghost var prepare := Entry(Prepare, a);
      if a.error {
        return Failed, Unprepared(prepare);
      }
      var tcf, banner, o, done, front := LookAround(polls, prepare);
      if done {
        return o, ByTcf(front);
      }
      // Without a TCF API, or with one that could not be driven, it is up to the rules.
      ghost var tries;
      outcome, tries := ApplyRules(tcf, banner);
      return outcome, ByRules(front, tries);
    }

    /** One consent interaction from start to end. The outcome it reports is backed by what the page
        said. It reports none exactly when the last rule tried missed and the time was over then,
        which takes a rule that can miss. */
    method Apply(polls: nat) returns (outcome: Outcome, ghost story: Story, ghost over: Answer)
      requires Valid() && log == []
      modifies this
      ensures Valid()
      ensures setup.mode == LeaveAlone ==> log == [] && outcome == NotNeeded
      ensures setup.mode != LeaveAlone ==>
                && IsStory(story, setup) && log == LogOfStory(story) + [Entry(TimeOver(None), over)]
                && (outcome == Unset <==> UnsetEvidence(LogOfStory(story), setup))
                && outcome == if over.yes && StoryOutcome(story) == Applied then Unverified else StoryOutcome(story)
      ensures outcome == Applied ==> AppliedEvidence(LogOfStory(story))
      ensures outcome == NecessaryOnly ==>
                setup.mode == Reject && NecessaryEvidence(LogOfStory(story), setup.candidates)
      ensures outcome == NotNeeded && setup.mode != LeaveAlone ==>
                var x := LogOfStory(story); !AnySaid(x, Probe) && !AnySaid(x, Banner) && NoneMatched(x, setup)
      ensures outcome == BannerVisible ==> VisibleEvidence(LogOfStory(story), setup.candidates)
      ensures outcome == Unset ==> MayEndUnset(setup)
    {
      if setup.mode == LeaveAlone {
        return NotNeeded, NO_STORY, NO_STORY.prepare.answer;
      }
      outcome, story := Interact(polls);
      StoryIsEvidence(story, setup);
      UnsetExactly(story, setup);
      if StoryOutcome(story) == Unset {
        UnsetNeedsSuchRules(story, setup);
      }
      // What was done in time but not seen to be confirmed in time is not claimed.
      var a := Evaluate(TimeOver(None));
      over := a;
      if a.yes && outcome == Applied {
        outcome := Unverified;
      }
    }
  }

  /** For rules that allow it, a page on which the interaction ends without any outcome. */
  method EndUnset(setup: Setup, polls: nat) returns (outcome: Outcome)
    requires MayEndUnset(setup)
    ensures outcome == Unset
  {
    var k := FirstThatMisses(setup);
    var r := setup.candidates[k];
    var h := new Handler(setup, (n, ask) => MissingAnswer(r, ask));
    ghost var story, over;
    outcome, story, over := h.Apply(polls);
    AnsweredParts(LogOfStory(story), [Entry(TimeOver(None), over)], r);
    MissingStory(story, setup, k);
  }

  method FirstThatMisses(setup: Setup) returns (k: nat)
    requires MayEndUnset(setup)
    ensures k < |setup.candidates| && CanMiss(setup.candidates[k], setup)
    ensures forall j :: 0 <= j < k ==> CanBePassed(setup.candidates[j], setup) && !CanMiss(setup.candidates[j], setup)
  {
    k := 0;
    while k < |setup.candidates| && !CanMiss(setup.candidates[k], setup)
      invariant k <= |setup.candidates|
      invariant forall j :: 0 <= j < k ==>
                  CanBePassed(setup.candidates[j], setup) && !CanMiss(setup.candidates[j], setup)
    {
      k := k + 1;
    }
  }

  /** One such interaction: the only rule for the host has one optional click, which is not on the
      page, and the time is over by then. */
  method UnsetHappens() returns (outcome: Outcome)
    ensures outcome == Unset
  {
    var r := Rule("site", false, true, false, true, [Action(true, true, true)], [], []);
    var setup := Setup(Accept, false, [r], [r]);
    assert setup.candidates[0] == r && CanMiss(r, setup);
    outcome := EndUnset(setup, 20);
  }
}
