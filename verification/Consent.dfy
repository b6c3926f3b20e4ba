/** A consent interaction as what was asked of the page and what it answered, part by part: the
    steps of a rule, its verification, the clicks when a banner stays, the rules in turn, and the
    whole. What each part amounts to is a function of its answers. */
module Consent {
  import opened Wrappers

  datatype Mode = LeaveAlone | Accept | Reject
  datatype Outcome = Unset | Applied | Unverified | BannerVisible | NecessaryOnly | Failed | NotNeeded

  // clicks: the step is a click of any kind. acts: it is a plain click or an expression to run.
  datatype Action = Action(optional: bool, clicks: bool, acts: bool)

  datatype Rule = Rule(
    name: string, heuristic: bool, hostScoped: bool, hasDetect: bool, hasVerify: bool,
    accept: seq<Action>, reject: seq<Action>, necessary: seq<Action>)

  // The candidates for the host, in evaluation order, and every rule of the set.
  datatype Setup = Setup(mode: Mode, allowHeuristic: bool, candidates: seq<Rule>, rules: seq<Rule>)

  function Steps(r: Rule, mode: Mode): seq<Action> {
    match mode case Accept => r.accept case Reject => r.reject case LeaveAlone => []
  }

  predicate HasFallback(r: Rule, mode: Mode) { mode == Reject && r.necessary != [] }

  // ---------- the page ----------

  // A question to the page, or whether the whole time is over - after a rule, or at the end.
  datatype Ask =
    | Prepare | Probe | Banner | Snapshot | Tcf
    | Detect(rule: Rule) | Perform(rule: Rule, step: nat) | Verify(rule: Rule) | Gone(rule: Rule)
    | Written | Click(rule: Rule, step: nat) | TimeOver(after: Option<Rule>)

  // One answer: an error, or yes or no - with the consent string of the TCF API - and whether
  // the time for this question was over when it came.
  datatype Answer = Answer(error: bool, yes: bool, text: string, ended: bool)

  datatype Entry = Entry(ask: Ask, answer: Answer)

  predicate Said(e: Entry, ask: Ask) { e.ask == ask && !e.answer.error && e.answer.yes }

  predicate AnySaid(log: seq<Entry>, ask: Ask) { exists i :: 0 <= i < |log| && Said(log[i], ask) }

  predicate AsksAre(log: seq<Entry>, asks: seq<Ask>) {
    |log| == |asks| && forall i :: 0 <= i < |log| ==> log[i].ask == asks[i]
  }

  // ---------- asking again until the page says yes ----------

  const ATTEMPTS := 10

  datatype Verdict = Yes | No | Errored

  predicate SaysYes(a: Answer) { !a.error && a.yes }

  predicate AnyError(log: seq<Entry>) { exists i :: 0 <= i < |log| && log[i].answer.error }

  // What the attempts amount to: an error counts unless a later attempt said yes.
  function VerdictOf(log: seq<Entry>): Verdict {
    if log != [] && SaysYes(log[|log| - 1].answer) then Yes else if AnyError(log) then Errored else No
  }

  // The attempts at one question: they stop at the first yes, when the time is over, and after ten.
  predicate IsPoll(log: seq<Entry>, ask: Ask) {
    && 1 <= |log| <= ATTEMPTS
    && (forall i :: 0 <= i < |log| ==> log[i].ask == ask)
    && (forall i :: 0 <= i < |log| - 1 ==> !SaysYes(log[i].answer) && !log[i].answer.ended)
    && (|log| < ATTEMPTS ==> SaysYes(log[|log| - 1].answer) || log[|log| - 1].answer.ended)
  }

  // ---------- running the steps of a rule ----------

  // The steps up to the first required one that failed.
  predicate AreSteps(log: seq<Entry>, rule: Rule, steps: seq<Action>, failed: bool) {
    && |log| <= |steps|
    && (forall i :: 0 <= i < |log| ==> log[i].ask == Perform(rule, i))
    && (if failed then log != [] && log[|log| - 1].answer.error && !steps[|log| - 1].optional else |log| == |steps|)
    && (forall i :: 0 <= i < |log| - One(failed) ==> log[i].answer.error ==> steps[i].optional)
  }

  predicate TookEffect(log: seq<Entry>) { exists i :: 0 <= i < |log| && !log[i].answer.error }

  predicate AllOptional(steps: seq<Action>) { forall i :: 0 <= i < |steps| ==> steps[i].optional }

  // ---------- one pass of clicks at a banner that stays ----------

  // own are the rule's own clicks, labels the generic ones of the first tried rules of the set.
  datatype Clicks = Clicks(own: seq<Entry>, labels: seq<Entry>, tried: nat)

  function LogOfClicks(k: Clicks): seq<Entry> { k.own + k.labels }

  // The clicks among the first n steps, again and in order.
  function OwnAsks(rule: Rule, steps: seq<Action>, n: nat): (asks: seq<Ask>)
    requires n <= |steps|
    ensures forall i :: 0 <= i < |asks| ==> asks[i].Click?
  {
    if n == 0 then [] else OwnAsks(rule, steps, n - 1) + if steps[n - 1].clicks then [Click(rule, n - 1)] else []
  }

  function LabelAsks(r: Rule, steps: seq<Action>, n: nat): (asks: seq<Ask>)
    requires n <= |steps|
    ensures forall i :: 0 <= i < |asks| ==> asks[i].Perform?
  {
    if n == 0 then [] else LabelAsks(r, steps, n - 1) + if steps[n - 1].acts then [Perform(r, n - 1)] else []
  }

  // What r offers to a rule whose own clicks did not help.
  function OfferedBy(r: Rule, rule: Rule, mode: Mode): seq<Ask> {
    if r.heuristic && r.name != rule.name then LabelAsks(r, Steps(r, mode), |Steps(r, mode)|) else []
  }

  function Offered(rule: Rule, u: Setup, n: nat): (asks: seq<Ask>)
    requires n <= |u.rules|
    ensures forall i :: 0 <= i < |asks| ==> asks[i].Perform?
  {
    if n == 0 then [] else Offered(rule, u, n - 1) + OfferedBy(u.rules[n - 1], rule, u.mode)
  }

  // The rules of the set offer their labels in turn, up to the first of which one took effect.
  predicate IsLabelPass(log: seq<Entry>, rule: Rule, u: Setup, tried: nat) {
    && tried <= |u.rules| && AsksAre(log, Offered(rule, u, tried))
    && (tried < |u.rules| ==> TookEffect(log))
    && (tried > 0 ==> !TookEffect(log[..|Offered(rule, u, tried - 1)|]))
  }

  predicate AnyYes(log: seq<Entry>) { exists i :: 0 <= i < |log| && SaysYes(log[i].answer) }

  // The rule's own clicks, and the labels when none of them landed and guessing is allowed.
  predicate AreClicks(k: Clicks, rule: Rule, steps: seq<Action>, u: Setup) {
    && AsksAre(k.own, OwnAsks(rule, steps, |steps|))
    && if AnyYes(k.own) || !u.allowHeuristic then k.labels == [] && k.tried == 0
       else IsLabelPass(k.labels, rule, u, k.tried)
  }

  // ---------- what running one rule was ----------

  datatype RuleRun =
    | NothingToTry(steps: seq<Entry>)
    | StepFailed(steps: seq<Entry>)
    // The rule says nothing about how to verify it: the page may have.
    | Unverifiable(steps: seq<Entry>, written: seq<Entry>, gone: seq<Entry>)
    // The page did not confirm it.
    | Unconfirmed(steps: seq<Entry>, verify: seq<Entry>)
    | Confirmed(steps: seq<Entry>, verify: seq<Entry>, gone: seq<Entry>)
    // The banner did not go by itself: one pass of clicks, and a second look.
    | Escalated(steps: seq<Entry>, verify: seq<Entry>, gone: seq<Entry>, clicks: Clicks, again: seq<Entry>)

  // What was asked once the steps had run.
  function Aftermath(run: RuleRun): seq<Entry> {
    match run
    case NothingToTry(_) => []
    case StepFailed(_) => []
    case Unverifiable(_, written, gone) => written + gone
    case Unconfirmed(_, verify) => verify
    case Confirmed(_, verify, gone) => verify + gone
    case Escalated(_, verify, gone, clicks, again) => verify + (gone + (LogOfClicks(clicks) + again))
  }

  function LogOf(run: RuleRun): seq<Entry> { run.steps + Aftermath(run) }

  // The page wrote to its storage during the interaction.
  predicate WroteStorage(written: seq<Entry>) { |written| == 1 && Said(written[0], Written) }

  predicate NothingTook(log: seq<Entry>, steps: seq<Action>) { AllOptional(steps) && !TookEffect(log) }

  predicate IsUnverifiable(written: seq<Entry>, gone: seq<Entry>, rule: Rule) {
    && !rule.hasVerify && |written| == 1 && written[0].ask == Written
    && if WroteStorage(written) then IsPoll(gone, Gone(rule)) else gone == []
  }

  predicate IsVerification(verify: seq<Entry>, rule: Rule, ok: bool) {
    rule.hasVerify && IsPoll(verify, Verify(rule)) && (VerdictOf(verify) == Yes <==> ok)
  }

  predicate IsRun(run: RuleRun, rule: Rule, steps: seq<Action>, u: Setup) {
    && AreSteps(run.steps, rule, steps, run.StepFailed?)
    && (run.NothingToTry? || run.StepFailed? || !NothingTook(run.steps, steps))
    && match run
       case NothingToTry(log) => NothingTook(log, steps)
       case StepFailed(_) => true
       case Unverifiable(_, written, gone) => IsUnverifiable(written, gone, rule)
       case Unconfirmed(_, verify) => IsVerification(verify, rule, false)
       case Confirmed(_, verify, gone) =>
         IsVerification(verify, rule, true) && IsPoll(gone, Gone(rule)) && VerdictOf(gone) == Yes
       case Escalated(_, verify, gone, clicks, again) =>
         && IsVerification(verify, rule, true) && IsPoll(gone, Gone(rule)) && VerdictOf(gone) != Yes
         && AreClicks(clicks, rule, steps, u) && IsPoll(again, Gone(rule))
  }

  // What a run of the steps of the mode may claim.
  function OutcomeOf(run: RuleRun): Outcome {
    match run
    case NothingToTry(_) => Unset
    case StepFailed(_) => Failed
    case Unverifiable(_, _, gone) => if VerdictOf(gone) == Yes then Applied else Unverified
    case Unconfirmed(_, verify) => if VerdictOf(verify) == Errored then Unverified else Failed
    case Confirmed(_, _, _) => Applied
    case Escalated(_, _, _, _, again) =>
      match VerdictOf(again) case Yes => Applied case No => BannerVisible case Errored => Unverified
  }

  // ---------- what running the necessary-only fallback was ----------

  datatype FallbackRun =
    | FallbackFailed(steps: seq<Entry>)
    | FallbackUnverifiable(steps: seq<Entry>)
    | FallbackUnconfirmed(steps: seq<Entry>, verify: seq<Entry>)
    | FallbackConfirmed(steps: seq<Entry>, verify: seq<Entry>, gone: seq<Entry>)
    // The banner was seen to be there still.
    | FallbackEscalated(steps: seq<Entry>, verify: seq<Entry>, gone: seq<Entry>, clicks: Clicks, again: seq<Entry>)

  function FallbackAftermath(run: FallbackRun): seq<Entry> {
    match run
    case FallbackFailed(_) => []
    case FallbackUnverifiable(_) => []
    case FallbackUnconfirmed(_, verify) => verify
    case FallbackConfirmed(_, verify, gone) => verify + gone
    case FallbackEscalated(_, verify, gone, clicks, again) => verify + (gone + (LogOfClicks(clicks) + again))
  }

  function LogOfFallback(run: FallbackRun): seq<Entry> { run.steps + FallbackAftermath(run) }

  predicate IsFallback(run: FallbackRun, rule: Rule, u: Setup) {
    && AreSteps(run.steps, rule, rule.necessary, run.FallbackFailed?)
    && match run
       case FallbackFailed(_) => true
       case FallbackUnverifiable(_) => !rule.hasVerify
       case FallbackUnconfirmed(_, verify) => IsVerification(verify, rule, false)
       case FallbackConfirmed(_, verify, gone) =>
         IsVerification(verify, rule, true) && IsPoll(gone, Gone(rule)) && VerdictOf(gone) != No
       case FallbackEscalated(_, verify, gone, clicks, again) =>
         && IsVerification(verify, rule, true) && IsPoll(gone, Gone(rule)) && VerdictOf(gone) == No
         && AreClicks(clicks, rule, rule.necessary, u) && IsPoll(again, Gone(rule))
  }

  function FallbackOutcome(run: FallbackRun): Outcome {
    match run
    case FallbackFailed(_) => Failed
    case FallbackUnverifiable(_) => Unverified
    case FallbackUnconfirmed(_, verify) => if VerdictOf(verify) == Errored then Unverified else Failed
    case FallbackConfirmed(_, _, _) => NecessaryOnly
    case FallbackEscalated(_, _, _, _, _) => NecessaryOnly
  }

  // ---------- trying the rules in order ----------

  predicate Usable(r: Rule, u: Setup) {
    (r.heuristic ==> u.allowHeuristic) && (Steps(r, u.mode) != [] || HasFallback(r, u.mode))
  }

  // The question whether a rule applies, when it asks one.
  predicate IsDetection(r: Rule, log: seq<Entry>) {
    if r.hasDetect then |log| == 1 && log[0].ask == Detect(r) else log == []
  }

  predicate Matches(r: Rule, log: seq<Entry>) {
    if r.hasDetect then |log| == 1 && Said(log[0], Detect(r)) else r.hostScoped
  }

  // What became of one candidate. An attempt that did not conclude looks at the time.
  datatype Try =
    | Skipped
    | Unmatched(detect: seq<Entry>)
    | Attempt(detect: seq<Entry>, run: Option<RuleRun>, fallback: Option<FallbackRun>, check: Option<Entry>)

  // What was asked while the rule ran.
  function Ran(t: Try): seq<Entry> {
    match t
    case Attempt(_, Some(run), Some(fallback), _) => LogOf(run) + LogOfFallback(fallback)
    case Attempt(_, Some(run), None, _) => LogOf(run)
    case Attempt(_, None, Some(fallback), _) => LogOfFallback(fallback)
    case _ => []
  }

  function Checked(t: Try): seq<Entry> { if t.Attempt? && t.check.Some? then [t.check.value] else [] }

  function LogOfTry(t: Try): seq<Entry> { (if t.Skipped? then [] else t.detect) + (Ran(t) + Checked(t)) }

  function OutcomeOfTry(t: Try): Outcome {
    if !t.Attempt? then Unset
    else if t.fallback.Some? then FallbackOutcome(t.fallback.value)
    else if t.run.Some? then OutcomeOf(t.run.value)
    else Unset
  }

  predicate Concludes(o: Outcome) { o in {Applied, Unverified, BannerVisible, NecessaryOnly} }

  // The parts of an attempt at r, before it looks at the time.
  predicate IsAttempt(t: Try, r: Rule, u: Setup)
    requires t.Attempt?
  {
    && Usable(r, u) && IsDetection(r, t.detect) && Matches(r, t.detect)
    && (t.run.Some? <==> Steps(r, u.mode) != [])
    && (t.run.Some? ==> IsRun(t.run.value, r, Steps(r, u.mode), u))
    // The fallback runs when there was nothing else to try.
    && (t.fallback.Some? <==> HasFallback(r, u.mode) && (t.run.None? || t.run.value.NothingToTry?))
    && (t.fallback.Some? ==> IsFallback(t.fallback.value, r, u))
  }

  predicate IsTry(t: Try, r: Rule, u: Setup) {
    match t
    case Skipped => !Usable(r, u)
    case Unmatched(detect) => Usable(r, u) && IsDetection(r, detect) && !Matches(r, detect)
    case Attempt(_, _, _, check) =>
      && IsAttempt(t, r, u) && (check.Some? <==> !Concludes(OutcomeOfTry(t)))
      && (check.Some? ==> check.value.ask == TimeOver(Some(r)))
  }

  // No further candidate is tried: this one concluded, or the time was over after it.
  predicate Stops(t: Try) {
    t.Attempt? && (Concludes(OutcomeOfTry(t)) || (t.check.Some? && t.check.value.answer.yes))
  }

  function LogOfTries(tries: seq<Try>): seq<Entry> {
    if tries == [] then [] else LogOfTries(tries[..|tries| - 1]) + LogOfTry(tries[|tries| - 1])
  }

  predicate TriesFit(tries: seq<Try>, u: Setup) {
    |tries| <= |u.candidates| && forall k :: 0 <= k < |tries| ==> IsTry(tries[k], u.candidates[k], u)
  }

  // The candidates in order, up to the first that stops the search.
  predicate AreTries(tries: seq<Try>, u: Setup) {
    && TriesFit(tries, u)
    && (forall k :: 0 <= k < |tries| - 1 ==> !Stops(tries[k]))
    && (|tries| < |u.candidates| ==> tries != [] && Stops(tries[|tries| - 1]))
  }

  // Whether a rule matched, whatever came of it.
  predicate AnyAttempt(tries: seq<Try>) { exists k :: 0 <= k < |tries| && tries[k].Attempt? }

  function RulesOutcome(tries: seq<Try>, tcf: bool, banner: bool): Outcome {
    if tries != [] && Stops(tries[|tries| - 1]) then OutcomeOfTry(tries[|tries| - 1])
    else if tcf || AnyAttempt(tries) || banner then Failed
    else NotNeeded
  }

  // ---------- the whole interaction ----------

  // Everything asked before the rules; call is the TCF API, if there is one.
  datatype Front = Front(prepare: Entry, probe: Entry, looks: seq<Entry>, snapshot: Entry, call: Option<Entry>)

  function Called(f: Front): seq<Entry> { if f.call.Some? then [f.call.value] else [] }

  function LogOfFront(f: Front): seq<Entry> { [f.prepare, f.probe] + f.looks + [f.snapshot] + Called(f) }

  predicate HasTcf(f: Front) { Said(f.probe, Probe) }

  predicate HasBanner(f: Front) { AnySaid(f.looks, Banner) }

  // The looks for a banner: one if that settles it, and else some more until one is there.
  predicate AreLooks(looks: seq<Entry>, tcf: bool) {
    && looks != [] && (forall i :: 0 <= i < |looks| ==> looks[i].ask == Banner)
    && (forall i :: 0 <= i < |looks| - 1 ==> !Said(looks[i], Banner)) && (tcf ==> |looks| == 1)
  }

  predicate IsFront(f: Front) {
    && f.prepare.ask == Prepare && !f.prepare.answer.error && f.probe.ask == Probe
    && AreLooks(f.looks, HasTcf(f)) && f.snapshot.ask == Snapshot
    && (f.call.Some? <==> HasTcf(f)) && (f.call.Some? ==> f.call.value.ask == Tcf)
  }

  // The TCF API said that it did what it was asked to.
  predicate Completed(f: Front) { f.call.Some? && Said(f.call.value, Tcf) }

  datatype Story =
    | Unprepared(prepare: Entry)
    | ByTcf(front: Front)
    | ByRules(front: Front, tries: seq<Try>)

  function LogOfStory(x: Story): seq<Entry> {
    match x
    case Unprepared(prepare) => [prepare]
    case ByTcf(front) => LogOfFront(front)
    case ByRules(front, tries) => LogOfFront(front) + LogOfTries(tries)
  }

  predicate IsStory(x: Story, u: Setup) {
    match x
    case Unprepared(prepare) => prepare.ask == Prepare && prepare.answer.error
    case ByTcf(front) => IsFront(front) && Completed(front)
    case ByRules(front, tries) => IsFront(front) && !Completed(front) && AreTries(tries, u)
  }

  // Success without a consent string cannot be checked.
  function TcfOutcome(call: Entry): Outcome { if call.answer.text == "" then Unverified else Applied }

  function StoryOutcome(x: Story): Outcome {
    match x
    case Unprepared(_) => Failed
    case ByTcf(front) => if front.call.Some? then TcfOutcome(front.call.value) else Failed
    case ByRules(front, tries) => RulesOutcome(tries, HasTcf(front), HasBanner(front))
  }
}
