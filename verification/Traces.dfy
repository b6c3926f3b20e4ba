/** Traces of events and body reads, and what the reads can change: storing bodies makes a scan
    read more of them, and none of that is observed. */
module Traces {
  import opened Observation

  // What reaches a recorder. A read brings one part of a mark, and says whether it was planned as
  // one of a fingerprinted hop.
  datatype Stimulus = Saw(e: Event) | Read(id: RequestId, hashed: bool, part: Part, value: string)

  datatype Trace = Start | Then(before: Trace, last: Stimulus)

  function Take(c: Config, x: Scan, y: Stimulus): Scan {
    match y case Saw(e) => OnEvent(c, x, e) case Read(id, hashed, part, value) => OnRead(x, id, hashed, part, value)
  }

  function Run(c: Config, trace: Trace): Scan {
    match trace case Start => Scan(NEW, []) case Then(before, y) => Take(c, Run(c, before), y)
  }

  lemma TakeAgrees(c: Config, x: Scan, y: Stimulus)
    requires Agrees(c, x.net) && PhasesInOrder(x.net) && |x.marks| == |x.net.records|
    ensures var x' := Take(c, x, y); Agrees(c, x'.net) && PhasesInOrder(x'.net) && |x'.marks| == |x'.net.records|
  {
    if y.Saw? {
      EventAgrees(c, x.net, y.e);
      PhasesStayInOrder(c, x.net, y.e);
      EndsOnce(c, x.net, y.e);
      EventAdds(c, x.net, y.e);
    }
  }

  /** After any sequence of events and body reads, the counters agree with a recount, the cap
      on requests holds, and phases are in order. */
  lemma {:induction false} RunAgrees(c: Config, trace: Trace)
    ensures var x := Run(c, trace);
            Agrees(c, x.net) && PhasesInOrder(x.net) && |x.marks| == |x.net.records|
  {
    if trace.Then? {
      RunAgrees(c, trace.before);
      TakeAgrees(c, Run(c, trace.before), trace.last);
    }
  }

  // ---------- what never changes again, over a whole trace ----------

  predicate Prefix(p: Trace, t: Trace) { p == t || (t.Then? && Prefix(p, t.before)) }

  lemma {:induction false} PrefixTransitive(p: Trace, q: Trace, t: Trace)
    requires Prefix(p, q) && Prefix(q, t)
    ensures Prefix(p, t)
    decreases t
  {
    if q != t {
      PrefixTransitive(p, q, t.before);
    }
  }

  /** From any point of a trace on: no hop is lost or reordered, none that has ended ends again or
      otherwise, the cap that was hit first stays, and so does the end of the phase before the
      interaction. */
  lemma {:induction false} TraceExtends(c: Config, p: Trace, t: Trace)
    requires Prefix(p, t)
    ensures Extends(Run(c, p).net, Run(c, t).net)
    decreases t
  {
    if p != t {
      TraceExtends(c, p, t.before);
      if t.last.Saw? {
        EndsOnce(c, Run(c, t.before).net, t.last.e);
        ExtendsTransitive(Run(c, p).net, Run(c, t.before).net, Run(c, t).net);
      }
    }
  }

  // An ID is never taken back, and only ever passes to a later hop.
  predicate NamesAdvance(s: State, s': State) {
    forall id :: id in s.current ==> id in s'.current && s.current[id] <= s'.current[id]
  }

  // Only a request that begins takes an ID, for the hop it adds.
  lemma RequestTakesName(c: Config, s: State, e: Event)
    requires e.WillBeSent?
    ensures var s' := OnWillBeSent(c, s, e);
            if |s'.records| == |s.records| then s'.current == s.current
            else s'.current == s.current[e.id := |s.records|] && |s'.records| == |s.records| + 1
  {
    var s1 := AfterRedirect(s, e);
    assert |s1.records| == |s.records| && s1.current == s.current;
  }

  lemma EventTakesName(c: Config, s: State, e: Event)
    ensures var s' := Observe(c, s, e);
            s'.current == s.current
            || (e.WillBeSent? && s'.current == s.current[e.id := |s.records|] && |s'.records| == |s.records| + 1)
  {
    match e
    case WillBeSent(_, _, _, _, _, _, _, _) => RequestTakesName(c, s, e);
    case Response(_, _, _) =>
    case Finished(_, _) =>
    case Failed(_, _) =>
    case WebSocket(_, _, _) =>
    case Interacted =>
  }

  lemma EventNamesAdvance(c: Config, s: State, e: Event)
    requires forall id :: id in s.current ==> s.current[id] < |s.records|
    ensures NamesAdvance(s, Observe(c, s, e))
  {
    EventTakesName(c, s, e);
  }

  lemma {:induction false} TraceNamesAdvance(c: Config, p: Trace, t: Trace)
    requires Prefix(p, t)
    ensures NamesAdvance(Run(c, p).net, Run(c, t).net)
    decreases t
  {
    if p != t {
      TraceNamesAdvance(c, p, t.before);
      if t.last.Saw? {
        RunAgrees(c, t.before);
        EventNamesAdvance(c, Run(c, t.before).net, t.last.e);
      }
    }
  }

  // ---------- reading bodies and observing events are independent ----------

  function Events(trace: Trace): Trace {
    match trace
    case Start => Start
    case Then(before, y) => if y.Saw? then Then(Events(before), y) else Events(before)
  }

  // The stimulus marks a hop.
  predicate Marks(s: State, y: Stimulus) { y.Read? && y.hashed && Live(s, y.id) }

  // One part of the mark of one hop.
  datatype Spot = Spot(hop: nat, part: Part)

  function MarkedBy(s: State, y: Stimulus): set<Spot> {
    if Marks(s, y) then {Spot(s.current[y.id], y.part)} else {}
  }

  // What some read of the trace supplied.
  function Digested(c: Config, trace: Trace): set<Spot> {
    match trace
    case Start => {}
    case Then(before, y) => Digested(c, before) + MarkedBy(Run(c, before).net, y)
  }

  // A read that marks a hop gives what the oracle says reading that hop gives.
  predicate Gives(s: State, y: Stimulus, oracle: nat -> Mark) {
    Marks(s, y) ==> y.value == PartOf(oracle(s.current[y.id]), y.part)
  }

  predicate Follows(c: Config, trace: Trace, oracle: nat -> Mark) {
    trace.Then? ==> Follows(c, trace.before, oracle) && Gives(Run(c, trace.before).net, trace.last, oracle)
  }

  // What of it is found replaces what was there.
  function Filled(m: Mark, found: Mark, body: bool, name: bool): Mark {
    Mark(if body && found.sha256 != "" then found.sha256 else m.sha256,
         if name && found.identity != "" then found.identity else m.identity)
  }

  // b is a with what the reads found filled in.
  ghost predicate Overlays(a: seq<Mark>, b: seq<Mark>, read: set<Spot>, oracle: nat -> Mark) {
    && |a| == |b|
    && forall i :: 0 <= i < |a| ==> b[i] == Filled(a[i], oracle(i), Spot(i, Body) in read, Spot(i, Name) in read)
  }

  lemma EventOverlays(c: Config, a: Scan, b: Scan, e: Event, read: set<Spot>, oracle: nat -> Mark)
    requires a.net == b.net && Overlays(a.marks, b.marks, read, oracle)
    requires Spot(|a.marks|, Body) !in read && Spot(|a.marks|, Name) !in read
    ensures Overlays(OnEvent(c, a, e).marks, OnEvent(c, b, e).marks, read, oracle)
  {
  }

  lemma ReadOverlays(a: Scan, b: Scan, y: Stimulus, read: set<Spot>, oracle: nat -> Mark)
    requires a.net == b.net && Overlays(a.marks, b.marks, read, oracle) && |a.marks| == |a.net.records|
    requires y.Read? && Gives(b.net, y, oracle)
    ensures Overlays(a.marks, OnRead(b, y.id, y.hashed, y.part, y.value).marks, read + MarkedBy(b.net, y), oracle)
  {
  }

  lemma {:induction false} SameTraffic(c: Config, trace: Trace)
    ensures Run(c, trace).net == Run(c, Events(trace)).net
  {
    if trace.Then? {
      SameTraffic(c, trace.before);
    }
  }

  lemma {:induction false} DigestedInRange(c: Config, trace: Trace)
    ensures forall x :: x in Digested(c, trace) ==> x.hop < |Run(c, trace).net.records|
  {
    if trace.Then? {
      DigestedInRange(c, trace.before);
      if trace.last.Saw? {
        EndsOnce(c, Run(c, trace.before).net, trace.last.e);
      }
    }
  }

  /** What a trace of events and reads leads to is what its events alone lead to, with the
      digests of the hops it read filled in. */
  lemma {:induction false} Separation(c: Config, trace: Trace, oracle: nat -> Mark)
    requires Follows(c, trace, oracle)
    ensures Overlays(Run(c, Events(trace)).marks, Run(c, trace).marks, Digested(c, trace), oracle)
  {
    if trace.Then? {
      var before, y := trace.before, trace.last;
      var a, b := Run(c, Events(before)), Run(c, before);
      Separation(c, before, oracle);
      SameTraffic(c, before);
      RunAgrees(c, Events(before));
      if y.Saw? {
        DigestedInRange(c, before);
        EventOverlays(c, a, b, y.e, Digested(c, before), oracle);
      } else {
        ReadOverlays(a, b, y, Digested(c, before), oracle);
      }
    }
  }

  // What is found there changes nothing: there is nothing, or the events alone say the same.
  predicate Silent(c: Config, es: Trace, x: Spot, oracle: nat -> Mark) {
    var marks, found := Run(c, es).marks, PartOf(oracle(x.hop), x.part);
    x.hop < |marks| ==> found == "" || found == PartOf(marks[x.hop], x.part)
  }

  // Where one trace of these events has a mark and another one has none, it changes nothing.
  ghost predicate DifferSilently(c: Config, t: Trace, t': Trace, oracle: nat -> Mark) {
    forall x :: (x in Digested(c, t)) != (x in Digested(c, t')) ==> Silent(c, Events(t), x, oracle)
  }

  lemma PartsDecide(m: Mark, m': Mark)
    ensures m == m' <==> PartOf(m, Body) == PartOf(m', Body) && PartOf(m, Name) == PartOf(m', Name)
  {
  }

  // What one part of a mark becomes.
  function FilledPart(m: string, found: string, read: bool): string { if read && found != "" then found else m }

  lemma OverlaidPart(a: seq<Mark>, b: seq<Mark>, read: set<Spot>, oracle: nat -> Mark, x: Spot)
    requires Overlays(a, b, read, oracle)
    ensures |a| == |b|
    ensures x.hop < |a| ==>
              PartOf(b[x.hop], x.part) == FilledPart(PartOf(a[x.hop], x.part), PartOf(oracle(x.hop), x.part), x in read)
  {
    match x.part
    case Body => assert x == Spot(x.hop, Body);
    case Name => assert x == Spot(x.hop, Name);
  }

  // One part of one mark.
  lemma PartIsSame(c: Config, t: Trace, t': Trace, oracle: nat -> Mark, x: Spot)
    requires Events(t) == Events(t') && Follows(c, t, oracle) && Follows(c, t', oracle)
    ensures |Run(c, t).marks| == |Run(c, t').marks| == |Run(c, Events(t)).marks|
    ensures x.hop < |Run(c, t).marks| ==>
              (PartOf(Run(c, t).marks[x.hop], x.part) == PartOf(Run(c, t').marks[x.hop], x.part)
               <==> ((x in Digested(c, t)) != (x in Digested(c, t')) ==> Silent(c, Events(t), x, oracle)))
  {
    Separation(c, t, oracle);
    Separation(c, t', oracle);
    var marks := Run(c, Events(t)).marks;
    OverlaidPart(marks, Run(c, t).marks, Digested(c, t), oracle, x);
    OverlaidPart(marks, Run(c, t').marks, Digested(c, t'), oracle, x);
  }

  /** Two traces of the same events lead to the same scan exactly when every read that only one of
      them has found nothing that the other does not show - whatever else they read, however late,
      and under whichever ID. */
  lemma SameExactly(c: Config, t: Trace, t': Trace, oracle: nat -> Mark)
    requires Events(t) == Events(t') && Follows(c, t, oracle) && Follows(c, t', oracle)
    ensures Run(c, t) == Run(c, t') <==> DifferSilently(c, t, t', oracle)
  {
    var a, b := Run(c, t).marks, Run(c, t').marks;
    SameTraffic(c, t);
    SameTraffic(c, t');
    PartIsSame(c, t, t', oracle, Spot(0, Body));
    if DifferSilently(c, t, t', oracle) {
      forall i | 0 <= i < |a| ensures a[i] == b[i] {
        PartIsSame(c, t, t', oracle, Spot(i, Body));
        PartIsSame(c, t, t', oracle, Spot(i, Name));
        PartsDecide(a[i], b[i]);
      }
    } else {
      var x :| (x in Digested(c, t)) != (x in Digested(c, t')) && !Silent(c, Events(t), x, oracle);
      PartIsSame(c, t, t', oracle, x);
    }
  }

  // ---------- which hops a scan must read ----------

  function LoadedBy(s: State, y: Stimulus): set<nat> {
    if y.Saw? && y.e.Finished? && Open(s, y.e.id) then {s.current[y.e.id]} else {}
  }

  // The hops some completion event of the trace ended.
  function Loaded(c: Config, trace: Trace): set<nat> {
    match trace
    case Start => {}
    case Then(before, y) => Loaded(c, before) + LoadedBy(Run(c, before).net, y)
  }

  function ReadBy(s: State, y: Stimulus): set<Spot> {
    if y.Read? && y.id in s.current then {Spot(s.current[y.id], y.part)} else {}
  }

  // What some read of the trace was of.
  function WasRead(c: Config, trace: Trace): set<Spot> {
    match trace
    case Start => {}
    case Then(before, y) => WasRead(c, before) + ReadBy(Run(c, before).net, y)
  }

  // The event is a response that makes a hop a fingerprinted one after it has loaded.
  predicate TurnsLoaded(c: Config, s: State, loaded: set<nat>, e: Event) {
    && e.Response? && Live(s, e.id) && s.current[e.id] in loaded
    && !s.records[s.current[e.id]].hashed && OnResponse(c, s, e).records[s.current[e.id]].hashed
  }

  // A body is read as what its hop is, while its ID still names the hop that loaded it; and a hop
  // that has loaded is not turned into a fingerprinted one.
  predicate InTime(c: Config, s: State, loaded: set<nat>, y: Stimulus) {
    && (y.Read? ==> Live(s, y.id) && s.current[y.id] in loaded && y.hashed == s.records[s.current[y.id]].hashed)
    && (y.Saw? ==> !TurnsLoaded(c, s, loaded, y.e))
  }

  predicate WellTimed(c: Config, trace: Trace) {
    trace.Then? ==>
      WellTimed(c, trace.before) && InTime(c, Run(c, trace.before).net, Loaded(c, trace.before), trace.last)
  }

  // The parts a comparison needs: those of fingerprinted hops that loaded.
  predicate MustRead(s: State, loaded: set<nat>, x: Spot) {
    x.hop in loaded && x.hop < |s.records| && s.records[x.hop].hashed
  }

  // Every one of them has been read.
  ghost predicate Complete(c: Config, trace: Trace) {
    forall x :: MustRead(Run(c, trace).net, Loaded(c, trace), x) ==> x in WasRead(c, trace)
  }

  // These hops have ended.
  ghost predicate Ended(s: State, hops: set<nat>) {
    forall i :: i in hops ==> i < |s.records| && s.records[i].finished
  }

  lemma HashedIsFixed(c: Config, s: State, e: Event, hops: set<nat>)
    requires Ended(s, hops) && !TurnsLoaded(c, s, hops, e)
    ensures Ended(Observe(c, s, e), hops)
    ensures forall i :: i in hops ==> Observe(c, s, e).records[i].hashed == s.records[i].hashed
  {
    EndsOnce(c, s, e);
    forall i | i in hops ensures Keeps(s.records[i], Observe(c, s, e).records[i]) {
    }
    if !(e.Response? && e.id in s.current) {
      HashedStays(c, s, e);
    }
  }

  // The hops of s carry a digest in s' exactly when they did in s.
  predicate SameHashed(s: State, s': State) {
    |s.records| <= |s'.records| && forall i :: 0 <= i < |s.records| ==> s'.records[i].hashed == s.records[i].hashed
  }

  lemma RedirectSameHashed(c: Config, s: State, e: Event)
    requires e.WillBeSent?
    ensures SameHashed(s, AfterRedirect(s, e)) && SameHashed(s, OnWillBeSent(c, s, e))
  {
    var s1 := AfterRedirect(s, e);
    assert SameHashed(s, s1);
    assert SameHashed(s1, Admit(c, s1, e));
  }

  lemma EndSameHashed(c: Config, s: State, e: Event)
    ensures e.Finished? ==> SameHashed(s, OnFinished(c, s, e))
    ensures e.Failed? ==> SameHashed(s, OnFailed(s, e))
  {
  }

  // Only a response replans a hop.
  lemma HashedStays(c: Config, s: State, e: Event)
    requires !(e.Response? && e.id in s.current)
    ensures SameHashed(s, Observe(c, s, e))
  {
    match e
    case WillBeSent(_, _, _, _, _, _, _, _) => RedirectSameHashed(c, s, e);
    case Response(_, _, _) => assert OnResponse(c, s, e) == s;
    case Finished(_, _) => EndSameHashed(c, s, e);
    case Failed(_, _) => EndSameHashed(c, s, e);
    case WebSocket(_, _, _) => assert SameHashed(s, OnWebSocket(c, s, e));
    case Interacted =>
  }

  lemma LoadingEnds(c: Config, s: State, y: Stimulus)
    requires y.Saw?
    ensures Ended(Observe(c, s, y.e), LoadedBy(s, y))
  {
  }

  lemma {:induction false} LoadedHaveEnded(c: Config, trace: Trace)
    requires WellTimed(c, trace)
    ensures Ended(Run(c, trace).net, Loaded(c, trace))
    ensures forall x :: x in WasRead(c, trace) ==> x.hop in Loaded(c, trace)
  {
    if trace.Then? {
      LoadedHaveEnded(c, trace.before);
      if trace.last.Saw? {
        HashedIsFixed(c, Run(c, trace.before).net, trace.last.e, Loaded(c, trace.before));
        LoadingEnds(c, Run(c, trace.before).net, trace.last);
      }
    }
  }

  /** In a well-timed trace what reads supplied is exactly what was read of hops that loaded and are
      fingerprinted in the end. */
  lemma {:induction false} DigestedAre(c: Config, trace: Trace)
    requires WellTimed(c, trace)
    ensures forall x :: x in Digested(c, trace) <==>
              x in WasRead(c, trace) && MustRead(Run(c, trace).net, Loaded(c, trace), x)
  {
    if trace.Then? {
      DigestedAre(c, trace.before);
      LoadedHaveEnded(c, trace.before);
      if trace.last.Saw? {
        HashedIsFixed(c, Run(c, trace.before).net, trace.last.e, Loaded(c, trace.before));
      }
    }
  }

  lemma {:induction false} LoadedByEvents(c: Config, trace: Trace)
    ensures Loaded(c, trace) == Loaded(c, Events(trace))
  {
    if trace.Then? {
      LoadedByEvents(c, trace.before);
      SameTraffic(c, trace.before);
    }
  }

  lemma DigestedIsMustRead(c: Config, trace: Trace)
    requires WellTimed(c, trace) && Complete(c, trace)
    ensures forall x :: x in Digested(c, trace) <==>
              MustRead(Run(c, Events(trace)).net, Loaded(c, Events(trace)), x)
  {
    SameTraffic(c, trace);
    DigestedAre(c, trace);
    LoadedByEvents(c, trace);
  }

  /** Two traces of the same events that read every fingerprinted body that loaded, with the same
      outcomes, lead to the same scan: records, endings, phases, counters, cap, digests and
      identities - whatever else each of them reads, in whatever order, and however reads and
      events interleave. */
  lemma SameObservation(c: Config, trace: Trace, trace': Trace, oracle: nat -> Mark)
    requires Events(trace) == Events(trace')
    requires Follows(c, trace, oracle) && Follows(c, trace', oracle)
    requires WellTimed(c, trace) && WellTimed(c, trace')
    requires Complete(c, trace) && Complete(c, trace')
    ensures Run(c, trace) == Run(c, trace')
  {
    Separation(c, trace, oracle);
    Separation(c, trace', oracle);
    SameTraffic(c, trace);
    SameTraffic(c, trace');
    DigestedIsMustRead(c, trace);
    DigestedIsMustRead(c, trace');
    assert Digested(c, trace) == Digested(c, trace');
  }
}
