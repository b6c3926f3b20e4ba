/** Over every page, what an interaction claims is backed by what the page said. */
module ConsentEvidence {
  import opened Consent

  lemma Regroup(a: seq<Entry>, b: seq<Entry>, c: seq<Entry>)
    ensures a + b + c == a + (b + c)
  {
  }

  lemma SaidStays(a: seq<Entry>, b: seq<Entry>, ask: Ask)
    requires AnySaid(b, ask)
    ensures AnySaid(a + b, ask)
  {
    var i :| 0 <= i < |b| && Said(b[i], ask);
    assert (a + b)[|a| + i] == b[i];
  }

  lemma AnySaidConcat(a: seq<Entry>, b: seq<Entry>, ask: Ask)
    ensures AnySaid(a + b, ask) == (AnySaid(a, ask) || AnySaid(b, ask))
  {
    if i :| 0 <= i < |a| && Said(a[i], ask) {
      assert (a + b)[i] == a[i];
    }
    if AnySaid(b, ask) {
      SaidStays(a, b, ask);
    }
  }

  // ---------- evidence ----------

  // The page said that the choice was recorded - by the rule's own check, or by a storage write
  // when it has none - and later that the banner is gone.
  predicate Backed(log: seq<Entry>, r: Rule) {
    exists i, j :: 0 <= i < j < |log| &&
      Said(log[i], if r.hasVerify then Verify(r) else Written) && Said(log[j], Gone(r))
  }

  ghost predicate AppliedEvidence(log: seq<Entry>) {
    || (exists r :: Backed(log, r))
    || (exists i :: 0 <= i < |log| && Said(log[i], Tcf) && log[i].answer.text != "")
  }

  predicate NecessaryEvidence(log: seq<Entry>, candidates: seq<Rule>) {
    exists r :: r in candidates && r.necessary != [] && r.hasVerify && AnySaid(log, Verify(r))
  }

  // The rule's check said yes, and no later answer said that the banner went.
  predicate StillVisible(log: seq<Entry>, r: Rule) {
    exists i :: 0 <= i < |log| && Said(log[i], Verify(r)) && forall j :: i < j < |log| ==> !Said(log[j], Gone(r))
  }

  predicate VisibleEvidence(log: seq<Entry>, candidates: seq<Rule>) {
    exists r :: r in candidates && r.hasVerify && StillVisible(log, r) && log[|log| - 1].ask == Gone(r)
  }

  predicate NotMatched(log: seq<Entry>, r: Rule) {
    if r.hasDetect then exists i :: 0 <= i < |log| && log[i].ask == Detect(r) && !Said(log[i], Detect(r))
    else !r.hostScoped
  }

  // No candidate that could be used was found to be for this page.
  predicate NoneMatched(log: seq<Entry>, u: Setup) {
    forall r :: r in u.candidates && Usable(r, u) ==> NotMatched(log, r)
  }

  // ---------- evidence stays when more is asked before it ----------

  lemma BackedStays(a: seq<Entry>, b: seq<Entry>, r: Rule)
    requires Backed(b, r)
    ensures Backed(a + b, r)
  {
    var i, j :| 0 <= i < j < |b| && Said(b[i], if r.hasVerify then Verify(r) else Written) && Said(b[j], Gone(r));
    assert (a + b)[|a| + i] == b[i] && (a + b)[|a| + j] == b[j];
  }

  lemma VisibleStays(a: seq<Entry>, b: seq<Entry>, r: Rule)
    requires StillVisible(b, r)
    ensures StillVisible(a + b, r)
  {
    var i :| 0 <= i < |b| && Said(b[i], Verify(r)) && forall j :: i < j < |b| ==> !Said(b[j], Gone(r));
    assert (a + b)[|a| + i] == b[i];
    forall j | |a| + i < j < |a + b| ensures !Said((a + b)[j], Gone(r)) {
      assert (a + b)[j] == b[j - |a|];
    }
  }

  // Evidence of two polls, one after the other, with anything in between.
  lemma PollsBack(first: seq<Entry>, between: seq<Entry>, second: seq<Entry>, r: Rule)
    requires first != [] && Said(first[|first| - 1], if r.hasVerify then Verify(r) else Written)
    requires second != [] && Said(second[|second| - 1], Gone(r))
    ensures Backed(first + (between + second), r)
  {
    var log := first + (between + second);
    assert log[|first| - 1] == first[|first| - 1] && log[|log| - 1] == second[|second| - 1];
  }

  lemma RunIsBacked(run: RuleRun, r: Rule, steps: seq<Action>, u: Setup)
    requires IsRun(run, r, steps, u) && OutcomeOf(run) == Applied
    ensures Backed(LogOf(run), r)
  {
    hide AreSteps, AreClicks, LogOfClicks, Backed;
    match run {
      case Unverifiable(_, written, gone) =>
        PollsBack(written, [], gone, r);
        assert [] + gone == gone;
      case Confirmed(_, verify, gone) =>
        PollsBack(verify, [], gone, r);
        assert [] + gone == gone;
      case Escalated(_, verify, gone, clicks, again) =>
        PollsBack(verify, gone + LogOfClicks(clicks), again, r);
        Regroup(gone, LogOfClicks(clicks), again);
      case _ =>
    }
    BackedStays(run.steps, Aftermath(run), r);
  }

  predicate NoneSaysGone(log: seq<Entry>, r: Rule) { forall j :: 0 <= j < |log| ==> !Said(log[j], Gone(r)) }

  lemma NoneOfBothSaysGone(a: seq<Entry>, b: seq<Entry>, r: Rule)
    requires NoneSaysGone(a, r) && NoneSaysGone(b, r)
    ensures NoneSaysGone(a + b, r)
  {
  }

  // Clicks ask for nothing but clicks and steps.
  lemma ClicksOnlyClick(k: Clicks, rule: Rule, steps: seq<Action>, u: Setup)
    requires AreClicks(k, rule, steps, u)
    ensures forall i :: 0 <= i < |LogOfClicks(k)| ==> LogOfClicks(k)[i].ask.Click? || LogOfClicks(k)[i].ask.Perform?
  {
    forall i | 0 <= i < |LogOfClicks(k)| ensures LogOfClicks(k)[i].ask.Click? || LogOfClicks(k)[i].ask.Perform? {
      if i < |k.own| {
        assert k.own[i].ask == OwnAsks(rule, steps, |steps|)[i];
      } else {
        assert k.labels[i - |k.own|].ask == Offered(rule, u, k.tried)[i - |k.own|];
      }
    }
  }

  lemma VisibleAfter(verify: seq<Entry>, rest: seq<Entry>, r: Rule)
    requires verify != [] && Said(verify[|verify| - 1], Verify(r)) && NoneSaysGone(rest, r)
    ensures StillVisible(verify + rest, r)
  {
    var log := verify + rest;
    assert log[|verify| - 1] == verify[|verify| - 1];
    forall j | |verify| - 1 < j < |log| ensures !Said(log[j], Gone(r)) {
      assert log[j] == rest[j - |verify|];
    }
  }

  // Looking again and again, and clicking in between, the page never said that the banner is gone.
  lemma NothingSaysGone(run: RuleRun, r: Rule, steps: seq<Action>, u: Setup)
    requires IsRun(run, r, steps, u) && OutcomeOf(run) == BannerVisible
    ensures run.Escalated? && NoneSaysGone(run.gone + (LogOfClicks(run.clicks) + run.again), r)
  {
    var clicks := LogOfClicks(run.clicks);
    ClicksOnlyClick(run.clicks, r, steps, u);
    NoneOfBothSaysGone(clicks, run.again, r);
    NoneOfBothSaysGone(run.gone, clicks + run.again, r);
  }

  lemma RunStaysVisible(run: RuleRun, r: Rule, steps: seq<Action>, u: Setup)
    requires IsRun(run, r, steps, u) && OutcomeOf(run) == BannerVisible
    ensures r.hasVerify && StillVisible(LogOf(run), r) && LogOf(run)[|LogOf(run)| - 1].ask == Gone(r)
  {
    hide LogOfClicks, AreClicks, NoneSaysGone, StillVisible, AreSteps;
    NothingSaysGone(run, r, steps, u);
    var rest := run.gone + (LogOfClicks(run.clicks) + run.again);
    VisibleAfter(run.verify, rest, r);
    VisibleStays(run.steps, run.verify + rest, r);
    assert rest[|rest| - 1] == run.again[|run.again| - 1];
  }

  lemma FallbackIsBacked(run: FallbackRun, r: Rule, u: Setup)
    requires IsFallback(run, r, u) && FallbackOutcome(run) == NecessaryOnly
    ensures r.hasVerify && AnySaid(LogOfFallback(run), Verify(r))
  {
    var k := |run.steps| + |run.verify| - 1;
    assert LogOfFallback(run)[k] == run.verify[|run.verify| - 1];
  }

  lemma RunIsEvidence(run: RuleRun, r: Rule, steps: seq<Action>, u: Setup, before: seq<Entry>)
    requires IsRun(run, r, steps, u) && steps != []
    ensures var log := before + LogOf(run);
            && (OutcomeOf(run) == Applied ==> Backed(log, r))
            && (OutcomeOf(run) == BannerVisible ==>
                  r.hasVerify && StillVisible(log, r) && log != [] && log[|log| - 1].ask == Gone(r))
            && OutcomeOf(run) != NecessaryOnly
  {
    if OutcomeOf(run) == Applied {
      RunIsBacked(run, r, steps, u);
      BackedStays(before, LogOf(run), r);
    } else if OutcomeOf(run) == BannerVisible {
      RunStaysVisible(run, r, steps, u);
      VisibleStays(before, LogOf(run), r);
    }
  }

  // What a try concluded is backed by what the page said during it.
  lemma TryIsEvidence(t: Try, r: Rule, u: Setup, before: seq<Entry>)
    requires IsTry(t, r, u) && t.Attempt? && Concludes(OutcomeOfTry(t))
    ensures var log := before + LogOfTry(t);
            && (OutcomeOfTry(t) == Applied ==> Backed(log, r))
            && (OutcomeOfTry(t) == BannerVisible ==>
                  r.hasVerify && StillVisible(log, r) && log != [] && log[|log| - 1].ask == Gone(r))
            && (OutcomeOfTry(t) == NecessaryOnly ==>
                  HasFallback(r, u.mode) && r.hasVerify && AnySaid(log, Verify(r)))
  {
    assert LogOfTry(t) == t.detect + Ran(t);
    if t.fallback.Some? {
      if OutcomeOfTry(t) == NecessaryOnly {
        var log, last := if t.run.Some? then LogOf(t.run.value) else [], LogOfFallback(t.fallback.value);
        FallbackIsBacked(t.fallback.value, r, u);
        SaidStays(log, last, Verify(r));
        assert Ran(t) == log + last;
        SaidStays(t.detect, Ran(t), Verify(r));
        SaidStays(before, LogOfTry(t), Verify(r));
      }
    } else {
      Regroup(before, t.detect, Ran(t));
      RunIsEvidence(t.run.value, r, Steps(r, u.mode), u, before + t.detect);
    }
  }

  // ---------- rules that did not match ----------

  lemma NotMatchedStays(log: seq<Entry>, last: seq<Entry>, r: Rule, earlier: bool)
    requires NotMatched(if earlier then log else last, r)
    ensures NotMatched(log + last, r)
  {
    if r.hasDetect {
      if earlier {
        var i :| 0 <= i < |log| && log[i].ask == Detect(r) && !Said(log[i], Detect(r));
        assert (log + last)[i] == log[i];
      } else {
        var i :| 0 <= i < |last| && last[i].ask == Detect(r) && !Said(last[i], Detect(r));
        assert (log + last)[|log| + i] == last[i];
      }
    }
  }

  lemma UnmatchedTry(log: seq<Entry>, t: Try, r: Rule, u: Setup)
    requires IsTry(t, r, u) && !t.Attempt?
    requires !AnySaid(log, Probe) && !AnySaid(log, Banner)
    ensures !AnySaid(log + LogOfTry(t), Probe) && !AnySaid(log + LogOfTry(t), Banner)
    ensures Usable(r, u) ==> NotMatched(log + LogOfTry(t), r)
  {
    assert LogOfTry(t) == if t.Skipped? then [] else t.detect;
    if Usable(r, u) {
      NotMatchedStays(log, LogOfTry(t), r, false);
    }
  }

  // Of these candidates, none that could be used was found to be for this page.
  predicate NoneMatchedOf(log: seq<Entry>, candidates: seq<Rule>, u: Setup) {
    forall k :: 0 <= k < |candidates| && Usable(candidates[k], u) ==> NotMatched(log, candidates[k])
  }

  lemma NoneMatchedStays(log: seq<Entry>, last: seq<Entry>, candidates: seq<Rule>, u: Setup, r: Rule)
    requires NoneMatchedOf(log, candidates, u) && (Usable(r, u) ==> NotMatched(log + last, r))
    ensures NoneMatchedOf(log + last, candidates + [r], u)
  {
    forall k | 0 <= k < |candidates| && Usable(candidates[k], u) ensures NotMatched(log + last, candidates[k]) {
      NotMatchedStays(log, last, candidates[k], true);
    }
  }

  // A try that found no match only asked whether it is one.
  lemma {:induction false} UnmatchedTries(tries: seq<Try>, u: Setup)
    requires TriesFit(tries, u) && forall k :: 0 <= k < |tries| ==> !tries[k].Attempt?
    ensures !AnySaid(LogOfTries(tries), Probe) && !AnySaid(LogOfTries(tries), Banner)
    ensures NoneMatchedOf(LogOfTries(tries), u.candidates[..|tries|], u)
  {
    if tries != [] {
      var n := |tries| - 1;
      UnmatchedTries(tries[..n], u);
      UnmatchedTry(LogOfTries(tries[..n]), tries[n], u.candidates[n], u);
      NoneMatchedStays(LogOfTries(tries[..n]), LogOfTry(tries[n]), u.candidates[..n], u, u.candidates[n]);
      assert u.candidates[..|tries|] == u.candidates[..n] + [u.candidates[n]];
    }
  }

  lemma FrontSays(f: Front)
    requires IsFront(f)
    ensures AnySaid(LogOfFront(f), Probe) == HasTcf(f) && AnySaid(LogOfFront(f), Banner) == HasBanner(f)
  {
    var log := LogOfFront(f);
    var n := |f.looks|;
    assert log[0] == f.prepare && log[1] == f.probe && log[2 + n] == f.snapshot;
    assert forall i :: 0 <= i < n ==> log[2 + i] == f.looks[i];
    assert forall i :: 3 + n <= i < |log| ==> log[i] == f.call.value;
    if j :| 0 <= j < |log| && Said(log[j], Banner) {
      assert Said(f.looks[j - 2], Banner);
    }
  }

  lemma NotNeededIsEvidence(x: Story, u: Setup)
    requires IsStory(x, u) && StoryOutcome(x) == NotNeeded
    ensures !AnySaid(LogOfStory(x), Probe) && !AnySaid(LogOfStory(x), Banner) && NoneMatched(LogOfStory(x), u)
  {
    hide NotMatched, LogOfFront, LogOfTries, IsTry;
    var front, log := LogOfFront(x.front), LogOfTries(x.tries);
    FrontSays(x.front);
    UnmatchedTries(x.tries, u);
    AnySaidConcat(front, log, Probe);
    AnySaidConcat(front, log, Banner);
    forall r | r in u.candidates && Usable(r, u) ensures NotMatched(front + log, r) {
      var k :| 0 <= k < |u.candidates| && u.candidates[k] == r;
      NotMatchedStays(front, log, r, false);
    }
  }

  lemma TcfIsEvidence(f: Front)
    requires Completed(f) && TcfOutcome(f.call.value) == Applied
    ensures AppliedEvidence(LogOfFront(f))
  {
    var log := LogOfFront(f);
    assert log[|log| - 1] == f.call.value;
  }

  lemma LastTryIsEvidence(front: seq<Entry>, tries: seq<Try>, u: Setup)
    requires TriesFit(tries, u) && tries != []
    requires tries[|tries| - 1].Attempt? && Concludes(OutcomeOfTry(tries[|tries| - 1]))
    ensures var log, o := front + LogOfTries(tries), OutcomeOfTry(tries[|tries| - 1]);
            && (o == Applied ==> AppliedEvidence(log))
            && (o == NecessaryOnly ==> u.mode == Reject && NecessaryEvidence(log, u.candidates))
            && (o == BannerVisible ==> VisibleEvidence(log, u.candidates))
  {
    var n := |tries| - 1;
    var before, r := front + LogOfTries(tries[..n]), u.candidates[n];
    Regroup(front, LogOfTries(tries[..n]), LogOfTry(tries[n]));
    TryIsEvidence(tries[n], r, u, before);
    assert r in u.candidates;
  }

  /** Over every page: what the interaction concludes is backed by what the page said. */
  lemma StoryIsEvidence(x: Story, u: Setup)
    requires IsStory(x, u)
    ensures var log, o := LogOfStory(x), StoryOutcome(x);
            && (o == Applied ==> AppliedEvidence(log))
            && (o == NecessaryOnly ==> u.mode == Reject && NecessaryEvidence(log, u.candidates))
            && (o == BannerVisible ==> VisibleEvidence(log, u.candidates))
            && (o == NotNeeded ==> !AnySaid(log, Probe) && !AnySaid(log, Banner) && NoneMatched(log, u))
  {
    hide IsTry, LogOfFront, LogOfTries, NotMatched;
    if StoryOutcome(x) == NotNeeded {
      NotNeededIsEvidence(x, u);
    } else if x.ByTcf? && StoryOutcome(x) == Applied {
      TcfIsEvidence(x.front);
    } else if x.ByRules? && Concludes(StoryOutcome(x)) {
      LastTryIsEvidence(LogOfFront(x.front), x.tries, u);
    }
  }
}
