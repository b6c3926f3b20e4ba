/** When what two scans of the same events observe is the same, whatever they store: exactly, on
    the reads of their histories, and for all of them, on the events. */
module Independence {
  import opened Wrappers
  import opened Observation
  import opened BodyStorage
  import opened Hops
  import opened Traces
  import opened BodyQueues
  import opened EventLists

  ghost predicate AllPossible(h: History) { h.Onto? ==> AllPossible(h.before) && Possible(h.input) }

  // What is found of a fingerprinted body is what the oracle says.
  ghost predicate AllGive(c: Config, st: Storage, h: History, oracle: nat -> Mark) {
    h.Onto? ==>
      && AllGive(c, st, h.before, oracle)
      && var b := BookOf(c, st, h.before);
         var y := StimulusOf(c, Run(c, b.trace).net, b.queues, h.input);
         y.Some? ==> Gives(Run(c, b.trace).net, y.value, oracle)
  }

  // The queue has room for the body this event asks for.
  predicate HasRoom(c: Config, b: Book, input: Input) {
    input.Happens? && Asks(Run(c, b.trace).net, b.queues.want, input.e) ==> |b.queues.bodies| < QUEUE_SIZE
  }

  // The queue of bodies is never too full.
  ghost predicate Roomy(c: Config, st: Storage, h: History) {
    h.Onto? ==> Roomy(c, st, h.before) && HasRoom(c, BookOf(c, st, h.before), h.input)
  }

  lemma {:induction false} GivesFollows(c: Config, st: Storage, h: History, oracle: nat -> Mark)
    requires AllGive(c, st, h, oracle)
    ensures Follows(c, BookOf(c, st, h).trace, oracle)
  {
    if h.Onto? {
      GivesFollows(c, st, h.before, oracle);
    }
  }

  /** Two scans of the same events, with any storage, observe the same exactly when every mark that
      only one of them found says nothing that the other does not show. Nothing is asked of their
      queues, of their order or of their IDs. */
  lemma SameHistoriesExactly(c: Config, st: Storage, st': Storage, h: History, h': History, oracle: nat -> Mark)
    requires EventsOf(h) == EventsOf(h') && AllGive(c, st, h, oracle) && AllGive(c, st', h', oracle)
    ensures Run(c, BookOf(c, st, h).trace) == Run(c, BookOf(c, st', h').trace)
            <==> DifferSilently(c, BookOf(c, st, h).trace, BookOf(c, st', h').trace, oracle)
  {
    GivesFollows(c, st, h, oracle);
    GivesFollows(c, st', h', oracle);
    TraceHasTheEvents(c, st, h);
    TraceHasTheEvents(c, st', h');
    SameExactly(c, BookOf(c, st, h).trace, BookOf(c, st', h').trace, oracle);
  }

  // ---------- a history and its events ----------

  function EventsNext(cur: Trace, input: Input): Trace {
    match input
    case Happens(e, _, _, _) => Then(cur, Saw(e))
    case Interacts(_) => Then(cur, Saw(Interacted))
    case _ => cur
  }

  lemma InputMatches(c: Config, st: Storage, b: Book, es: Trace, input: Input)
    requires Run(c, b.trace).net == Run(c, es).net && b.queues.want == WantOf(c, st.mode, es)
    ensures var b', next := BookNext(c, st, b, input), EventsNext(es, input);
            Run(c, b'.trace).net == Run(c, next).net && b'.queues.want == WantOf(c, st.mode, next)
  {
    hide Observe, Planned;
  }

  lemma {:induction false} BookMatches(c: Config, st: Storage, h: History)
    ensures var b, es := BookOf(c, st, h), EventsOf(h);
            Run(c, b.trace).net == Run(c, es).net && b.queues.want == WantOf(c, st.mode, es) && OnlyEvents(es)
  {
    if h.Onto? {
      BookMatches(c, st, h.before);
      InputMatches(c, st, BookOf(c, st, h.before), EventsOf(h.before), h.input);
    }
  }

  // ---------- what every scan of such events finds ----------

  // The body of id was asked for; in a queue that is never too full, as many wait behind it as were
  // asked for since then.
  ghost predicate AskedBefore(c: Config, roomy: bool, mode: Mode, cur: Trace, id: RequestId, behind: int) {
    exists p :: Prefix(p, cur) && AsksLast(c, mode, p) && p.last.e.id == id
                && (roomy ==> Asked(c, mode, cur) - Asked(c, mode, p) == behind)
  }

  ghost predicate AllAskedBefore(c: Config, roomy: bool, mode: Mode, cur: Trace, bodies: seq<RequestId>) {
    |bodies| <= QUEUE_SIZE && |bodies| <= Asked(c, mode, cur)
    && forall m :: 0 <= m < |bodies| ==> AskedBefore(c, roomy, mode, cur, bodies[m], |bodies| - 1 - m)
  }

  // id names a hop that every mode reads.
  ghost predicate NamesSure(c: Config, es: Trace, s: State, id: RequestId) {
    Live(s, id) && s.current[id] in Surely(c, es)
  }

  ghost predicate JobsSure(c: Config, es: Trace, s: State, jobs: seq<Job>) {
    forall k :: 0 <= k < |jobs| && jobs[k].hashed ==> NamesSure(c, es, s, jobs[k].id)
  }

  ghost predicate FoundSure(c: Config, es: Trace, found: set<Spot>) {
    forall x :: x in found ==> x.hop in Surely(c, es)
  }

  // This part is still to be found: its body waits, or is in hand as that of a fingerprinted hop.
  predicate StillDue(q: Queues, id: RequestId, part: Part) {
    id in q.bodies || exists k :: 0 <= k < |q.jobs| && q.jobs[k].id == id && q.jobs[k].hashed && Owes(q.jobs[k], part)
  }

  // The parts of these hops are found, or will be.
  ghost predicate AllDue(s: State, sure: set<nat>, found: set<Spot>, q: Queues) {
    forall x: Spot :: x.hop in sure && x.hop < |s.records| && x !in found ==> StillDue(q, s.records[x.hop].id, x.part)
  }

  ghost predicate OnCourse(c: Config, roomy: bool, mode: Mode, es: Trace, cur: Trace, b: Book) {
    var s, found := Run(c, cur).net, Digested(c, b.trace);
    && Run(c, b.trace).net == s && b.queues.want == WantOf(c, mode, cur) && Prefix(cur, es)
    && AllAskedBefore(c, roomy, mode, cur, b.queues.bodies) && JobsSure(c, es, s, b.queues.jobs)
    && FoundSure(c, es, found) && AllDue(s, Surely(c, cur), found, b.queues)
  }

  // ---------- events ----------

  lemma LongerAgo(c: Config, roomy: bool, mode: Mode, cur: Trace, y: Stimulus, id: RequestId, behind: int,
                  behind': int)
    requires AskedBefore(c, roomy, mode, cur, id, behind)
    requires roomy ==> behind' == behind + One(AsksLast(c, mode, Then(cur, y)))
    ensures AskedBefore(c, roomy, mode, Then(cur, y), id, behind')
  {
    var p :| Prefix(p, cur) && AsksLast(c, mode, p) && p.last.e.id == id
             && (roomy ==> Asked(c, mode, cur) - Asked(c, mode, p) == behind);
    assert Prefix(p, Then(cur, y));
  }

  lemma JustAsked(c: Config, roomy: bool, mode: Mode, cur: Trace)
    requires AsksLast(c, mode, cur)
    ensures AskedBefore(c, roomy, mode, cur, cur.last.e.id, 0)
  {
    assert Prefix(cur, cur);
  }

  lemma EventAsksBefore(c: Config, roomy: bool, mode: Mode, cur: Trace, e: Event, bodies: seq<RequestId>)
    requires AllAskedBefore(c, roomy, mode, cur, bodies)
    requires roomy && AsksLast(c, mode, Then(cur, Saw(e))) ==> |bodies| < QUEUE_SIZE
    ensures var next := Then(cur, Saw(e));
            AllAskedBefore(c, roomy, mode, next, if AsksLast(c, mode, next) then Queued(bodies, e.id) else bodies)
  {
    hide AskedBefore, Run, WantOf;
    var next := Then(cur, Saw(e));
    var asks := AsksLast(c, mode, next);
    var bodies' := if asks then Queued(bodies, e.id) else bodies;
    forall m | 0 <= m < |bodies'| ensures AskedBefore(c, roomy, mode, next, bodies'[m], |bodies'| - 1 - m) {
      if m < |bodies| {
        LongerAgo(c, roomy, mode, cur, Saw(e), bodies[m], |bodies| - 1 - m, |bodies'| - 1 - m);
      } else {
        JustAsked(c, roomy, mode, next);
      }
    }
  }

  lemma EventKeepsJobsSure(c: Config, roomy: bool, es: Trace, cur: Trace, e: Event, jobs: seq<Job>)
    requires Prefix(Then(cur, Saw(e)), es) && NoDoubt(c, roomy, es) && JobsSure(c, es, Run(c, cur).net, jobs)
    ensures JobsSure(c, es, Run(c, Then(cur, Saw(e))).net, jobs)
  {
    var next := Then(cur, Saw(e));
    assert Prefix(cur, next);
    forall k | 0 <= k < |jobs| && jobs[k].hashed ensures NamesSure(c, es, Run(c, next).net, jobs[k].id) {
      assert NamesSure(c, es, Run(c, cur).net, jobs[k].id);
      NameStays(c, roomy, cur, next, es, jobs[k].id);
    }
  }

  lemma EventKeepsDue(c: Config, mode: Mode, cur: Trace, e: Event, found: set<Spot>, q: Queues, bodies: seq<RequestId>)
    requires AllDue(Run(c, cur).net, Surely(c, cur), found, q)
    requires bodies == if AsksLast(c, mode, Then(cur, Saw(e))) then Queued(q.bodies, e.id) else q.bodies
    requires SurelyBy(Run(c, cur).net, Saw(e)) != {} ==> |q.bodies| < QUEUE_SIZE
    ensures var next := Then(cur, Saw(e)); AllDue(Run(c, next).net, Surely(c, next), found, q.(bodies := bodies))
  {
    var next, s := Then(cur, Saw(e)), Run(c, cur).net;
    var q' := q.(bodies := bodies);
    EndsOnce(c, s, e);
    SurelyAsks(c, mode, next);
    SurelyAre(c, cur);
    TheirNames(c, cur);
    forall x: Spot | x.hop in Surely(c, next) && x.hop < |Run(c, next).net.records| && x !in found
      ensures StillDue(q', Run(c, next).net.records[x.hop].id, x.part)
    {
      if x.hop in Surely(c, cur) {
        assert IsSure(s, x.hop) && Keeps(s.records[x.hop], Run(c, next).net.records[x.hop]);
        assert StillDue(q, s.records[x.hop].id, x.part);
      } else {
        assert x.hop == s.current[e.id] && Keeps(s.records[x.hop], Run(c, next).net.records[x.hop]);
        assert e.id in bodies;
      }
    }
  }

  // What every mode reads is asked for before the queue can be full, or it is never full.
  lemma SureFindRoom(c: Config, roomy: bool, mode: Mode, es: Trace, cur: Trace, e: Event, bodies: seq<RequestId>)
    requires Prefix(Then(cur, Saw(e)), es) && NoDoubt(c, roomy, es) && OnlyEvents(cur)
    requires AllAskedBefore(c, roomy, mode, cur, bodies)
    requires roomy && AsksLast(c, mode, Then(cur, Saw(e))) ==> |bodies| < QUEUE_SIZE
    ensures SurelyBy(Run(c, cur).net, Saw(e)) != {} ==> |bodies| < QUEUE_SIZE
  {
    var next := Then(cur, Saw(e));
    SurelyAsks(c, mode, next);
    AllAsksMost(c, mode, cur);
    if SurelyBy(Run(c, cur).net, Saw(e)) != {} && !roomy {
      assert Asked(c, StoreAll, next.before) < QUEUE_SIZE;
    }
  }

  lemma EventKeepsCourse(c: Config, roomy: bool, st: Storage, es: Trace, cur: Trace, b: Book, e: Event, post: PostField)
    requires OnCourse(c, roomy, st.mode, es, cur, b) && Prefix(Then(cur, Saw(e)), es) && NoDoubt(c, roomy, es)
    requires OnlyEvents(cur)
    requires roomy && Asks(Run(c, b.trace).net, b.queues.want, e) ==> |b.queues.bodies| < QUEUE_SIZE
    ensures OnCourse(c, roomy, st.mode, es, Then(cur, Saw(e)),
                     Book(Then(b.trace, Saw(e)), QueuesOn(c, st, Run(c, b.trace).net, b.queues, e, post)))
  {
    var next := Then(cur, Saw(e));
    var q' := QueuesOn(c, st, Run(c, b.trace).net, b.queues, e, post);
    EventAsksBefore(c, roomy, st.mode, cur, e, b.queues.bodies);
    SureFindRoom(c, roomy, st.mode, es, cur, e, b.queues.bodies);
    EventKeepsJobsSure(c, roomy, es, cur, e, b.queues.jobs);
    EventKeepsDue(c, st.mode, cur, e, Digested(c, b.trace), b.queues, q'.bodies);
    DueInBoth(Run(c, next).net, Surely(c, next), Digested(c, b.trace), b.queues.(bodies := q'.bodies), q');
  }

  // Nothing else in the queues matters.
  lemma DueInBoth(s: State, sure: set<nat>, found: set<Spot>, q: Queues, q': Queues)
    requires AllDue(s, sure, found, q) && q.bodies == q'.bodies && q.jobs == q'.jobs
    ensures AllDue(s, sure, found, q')
  {
    forall x: Spot | x.hop in sure && x.hop < |s.records| && x !in found
      ensures StillDue(q', s.records[x.hop].id, x.part)
    {
      assert StillDue(q, s.records[x.hop].id, x.part);
    }
  }

  // ---------- workers ----------

  // So far, too, every such hop keeps its ID.
  lemma {:induction false} SureAreNamed(c: Config, roomy: bool, cur: Trace, es: Trace)
    requires OnlyEvents(cur) && Prefix(cur, es) && NoDoubt(c, roomy, es)
    ensures forall k :: k in Surely(c, cur) ==> KeepsName(Run(c, cur).net, k)
    decreases cur
  {
    if cur.Then? {
      var before, s, s' := cur.before, Run(c, cur.before).net, Run(c, cur).net;
      assert Prefix(before, cur);
      PrefixTransitive(before, cur, es);
      SureAreNamed(c, roomy, before, es);
      EndsOnce(c, s, cur.last.e);
      TheirNames(c, before);
      SurelyGrows(c, cur, es);
      forall k | k in Surely(c, cur) ensures KeepsName(s', k) {
        if k in Surely(c, before) {
          assert KeepsName(s, k) && Keeps(s.records[k], s'.records[k]);
          NameStays(c, roomy, before, cur, es, s.records[k].id);
        } else {
          assert Keeps(s.records[k], s'.records[k]);
          EventTakesName(c, s, cur.last.e);
        }
      }
    }
  }

  // What is due stays due, or is found.
  lemma DueFollows(s: State, sure: set<nat>, found: set<Spot>, q: Queues, found': set<Spot>, q': Queues)
    requires AllDue(s, sure, found, q) && found <= found' && forall k :: k in sure ==> KeepsName(s, k)
    requires forall id, part :: StillDue(q, id, part) && id in s.current && s.current[id] in sure ==>
               StillDue(q', id, part) || Spot(s.current[id], part) in found'
    ensures AllDue(s, sure, found', q')
  {
    forall x: Spot | x.hop in sure && x.hop < |s.records| && x !in found'
      ensures StillDue(q', s.records[x.hop].id, x.part)
    {
      assert StillDue(q, s.records[x.hop].id, x.part) && KeepsName(s, x.hop);
      assert x == Spot(s.current[s.records[x.hop].id], x.part);
    }
  }

  // The body that has waited longest is planned as that of a hop every mode reads, or as no
  // fingerprinted one.
  lemma PlanIsSure(c: Config, roomy: bool, mode: Mode, es: Trace, cur: Trace, bodies: seq<RequestId>)
    requires OnlyEvents(cur) && Prefix(cur, es) && NoDoubt(c, roomy, es) && bodies != []
    requires AllAskedBefore(c, roomy, mode, cur, bodies)
    ensures var s := Run(c, cur).net; Planned(mode, s, bodies[0]).hashed ==> NamesSure(c, es, s, bodies[0])
  {
    var s, id := Run(c, cur).net, bodies[0];
    if Planned(mode, s, id).hashed {
      assert AskedBefore(c, roomy, mode, cur, id, |bodies| - 1);
      var p :| Prefix(p, cur) && AsksLast(c, mode, p) && p.last.e.id == id
               && (roomy ==> Asked(c, mode, cur) - Asked(c, mode, p) == |bodies| - 1);
      if mode == StoreAll {
        assert PlannedOn(c, roomy, p, cur, s.current[id]);
      } else {
        OldPlanIsSure(c, roomy, mode, es, cur, p);
      }
    }
  }

  // In the other modes what waits was a fingerprinted hop's when it loaded.
  lemma OldPlanIsSure(c: Config, roomy: bool, mode: Mode, es: Trace, cur: Trace, p: Trace)
    requires Prefix(p, cur) && Prefix(cur, es) && NoDoubt(c, roomy, es) && mode != StoreAll && AsksLast(c, mode, p)
    requires Live(Run(c, cur).net, p.last.e.id)
    ensures NamesSure(c, es, Run(c, cur).net, p.last.e.id)
  {
    var id := p.last.e.id;
    SurelyAsks(c, mode, p);
    var k := Run(c, p.before).net.current[id];
    assert k in Surely(c, p);
    PrefixTransitive(p, cur, es);
    SurelyGrows(c, p, es);
    EventTakesName(c, Run(c, p.before).net, p.last.e);
    NameStays(c, roomy, p, cur, es, id);
  }

  // The rest wait as before.
  lemma TakeKeepsAsked(c: Config, roomy: bool, mode: Mode, cur: Trace, bodies: seq<RequestId>)
    requires AllAskedBefore(c, roomy, mode, cur, bodies) && bodies != []
    ensures AllAskedBefore(c, roomy, mode, cur, bodies[1..])
  {
    hide AskedBefore;
    var rest := bodies[1..];
    forall m | 0 <= m < |rest| ensures AskedBefore(c, roomy, mode, cur, rest[m], |rest| - 1 - m) {
      assert rest[m] == bodies[m + 1] && |rest| - 1 - m == |bodies| - 1 - (m + 1);
    }
  }

  lemma TakeKeepsAllDue(c: Config, mode: Mode, s: State, sure: set<nat>, found: set<Spot>, q: Queues, q': Queues)
    requires AllDue(s, sure, found, q) && q.bodies != []
    requires q'.bodies == q.bodies[1..] && q'.jobs == q.jobs + [Planned(mode, s, q.bodies[0])]
    requires forall k :: k in sure ==> KeepsName(s, k) && IsSure(s, k)
    ensures AllDue(s, sure, found, q')
  {
    forall id, part | StillDue(q, id, part) && id in s.current && s.current[id] in sure
      ensures StillDue(q', id, part)
    {
      TakeKeepsDue(s, q, q', Planned(mode, s, q.bodies[0]), id, part, sure);
    }
    DueFollows(s, sure, found, q, found, q');
  }

  lemma TakeKeepsCourse(c: Config, roomy: bool, st: Storage, es: Trace, cur: Trace, b: Book)
    requires OnCourse(c, roomy, st.mode, es, cur, b) && NoDoubt(c, roomy, es) && OnlyEvents(cur)
    requires b.queues.bodies != []
    ensures OnCourse(c, roomy, st.mode, es, cur, BookNext(c, st, b, TakesBody))
  {
    hide NoDoubt, AllAskedBefore, AllDue;
    var s, q := Run(c, cur).net, b.queues;
    var q' := QueuesNext(c, st, s, q, TakesBody);
    PlanIsSure(c, roomy, st.mode, es, cur, q.bodies);
    SureAreNamed(c, roomy, cur, es);
    SurelyAre(c, cur);
    TakeKeepsAsked(c, roomy, st.mode, cur, q.bodies);
    TakeKeepsAllDue(c, st.mode, s, Surely(c, cur), Digested(c, b.trace), q, q');
  }

  lemma TakeKeepsDue(s: State, q: Queues, q': Queues, j: Job, id: RequestId, part: Part, sure: set<nat>)
    requires q.bodies != [] && q'.bodies == q.bodies[1..] && q'.jobs == q.jobs + [j]
    requires StillDue(q, id, part) && id in s.current && s.current[id] in sure
    requires j.id == q.bodies[0] && j.stage.Reading? && (j.id == id ==> j.hashed)
    ensures StillDue(q', id, part)
  {
    if id in q.bodies {
      assert id == q.bodies[0] || id in q.bodies[1..];
      assert q'.jobs[|q.jobs|] == j;
    } else {
      var k :| 0 <= k < |q.jobs| && q.jobs[k].id == id && q.jobs[k].hashed && Owes(q.jobs[k], part);
      assert q'.jobs[k] == q.jobs[k];
    }
  }

  // A job goes on; what it owes no more has been found.
  lemma AdvanceKeepsDue(s: State, sure: set<nat>, found: set<Spot>, q: Queues, k: nat, j: Job, found': set<Spot>)
    requires AllDue(s, sure, found, q) && found <= found' && forall i :: i in sure ==> KeepsName(s, i)
    requires k < |q.jobs| && j == q.jobs[k].(stage := j.stage)
    requires forall part :: q.jobs[k].hashed && Owes(q.jobs[k], part) && q.jobs[k].id in s.current ==>
               Owes(j, part) || Spot(s.current[q.jobs[k].id], part) in found'
    ensures AllDue(s, sure, found', q.(jobs := q.jobs[k := j]))
  {
    var q' := q.(jobs := q.jobs[k := j]);
    forall id, part | StillDue(q, id, part) && id in s.current && s.current[id] in sure
      ensures StillDue(q', id, part) || Spot(s.current[id], part) in found'
    {
      if id !in q.bodies {
        var m :| 0 <= m < |q.jobs| && q.jobs[m].id == id && q.jobs[m].hashed && Owes(q.jobs[m], part);
        assert q'.jobs[m].id == id && q'.jobs[m].hashed;
      }
    }
    DueFollows(s, sure, found, q, found', q');
  }

  // A job that is done with leaves all others due.
  lemma DoneKeepsDue(s: State, sure: set<nat>, found: set<Spot>, q: Queues, k: nat, found': set<Spot>)
    requires AllDue(s, sure, found, q) && found <= found' && forall i :: i in sure ==> KeepsName(s, i)
    requires k < |q.jobs|
    requires forall part :: q.jobs[k].hashed && Owes(q.jobs[k], part) && q.jobs[k].id in s.current ==>
               Spot(s.current[q.jobs[k].id], part) in found'
    ensures AllDue(s, sure, found', q.(jobs := Without(q.jobs, k)))
  {
    var q' := q.(jobs := Without(q.jobs, k));
    forall id, part | StillDue(q, id, part) && id in s.current && s.current[id] in sure
      ensures StillDue(q', id, part) || Spot(s.current[id], part) in found'
    {
      if id !in q.bodies {
        var m :| 0 <= m < |q.jobs| && q.jobs[m].id == id && q.jobs[m].hashed && Owes(q.jobs[m], part);
        if m != k {
          assert q'.jobs[if m < k then m else m - 1] == q.jobs[m];
        }
      }
    }
    DueFollows(s, sure, found, q, found', q');
  }

  // Concluding a read, and looking up its identity, changes nothing that is found or due.
  lemma StageKeepsCourse(c: Config, roomy: bool, st: Storage, es: Trace, cur: Trace, b: Book, input: Input)
    requires OnCourse(c, roomy, st.mode, es, cur, b) && NoDoubt(c, roomy, es) && OnlyEvents(cur)
    requires input.Concludes? || input.LooksUp?
    ensures OnCourse(c, roomy, st.mode, es, cur, BookNext(c, st, b, input))
  {
    var s, q, found := Run(c, cur).net, b.queues, Digested(c, b.trace);
    var jobs := JobsNext(c, s, q.jobs, input);
    SureAreNamed(c, roomy, cur, es);
    if jobs != q.jobs {
      AdvanceKeepsDue(s, Surely(c, cur), found, q, input.k, jobs[input.k], found);
    }
  }

  // A mark goes to the hop its ID names by now; that is one every mode reads.
  lemma MarkIsSure(c: Config, es: Trace, b: Book, y: Stimulus, j: Job)
    requires j.hashed ==> NamesSure(c, es, Run(c, b.trace).net, j.id)
    requires y.Read? && y.id == j.id && y.hashed == j.hashed && FoundSure(c, es, Digested(c, b.trace))
    ensures FoundSure(c, es, Digested(c, Then(b.trace, y)))
    ensures Run(c, Then(b.trace, y)).net == Run(c, b.trace).net
    ensures j.hashed ==> Spot(Run(c, b.trace).net.current[j.id], y.part) in Digested(c, Then(b.trace, y))
  {
  }

  lemma AttachKeepsCourse(c: Config, roomy: bool, st: Storage, es: Trace, cur: Trace, b: Book, input: Input)
    requires OnCourse(c, roomy, st.mode, es, cur, b) && NoDoubt(c, roomy, es) && OnlyEvents(cur) && input.Attaches?
    ensures OnCourse(c, roomy, st.mode, es, cur, BookNext(c, st, b, input))
  {
    var s, q, k, found := Run(c, cur).net, b.queues, input.k, Digested(c, b.trace);
    SureAreNamed(c, roomy, cur, es);
    if k < |q.jobs| && q.jobs[k].stage.Holding? {
      var j := q.jobs[k];
      var b' := BookNext(c, st, b, input);
      if Live(s, j.id) {
        MarkIsSure(c, es, b, MarkOf(s, j).value, j);
      }
      assert j.hashed ==> NamesSure(c, es, s, j.id);
      AdvanceKeepsDue(s, Surely(c, cur), found, q, k, j.(stage := Attached(j.stage.readable)), Digested(c, b'.trace));
    } else {
      assert BookNext(c, st, b, input) == b;
    }
  }

  lemma DoneKeepsSure(c: Config, es: Trace, s: State, jobs: seq<Job>, k: nat)
    requires JobsSure(c, es, s, jobs)
    ensures JobsSure(c, es, s, Without(jobs, k))
  {
    var jobs' := Without(jobs, k);
    forall m | 0 <= m < |jobs'| && jobs'[m].hashed ensures NamesSure(c, es, s, jobs'[m].id) {
      assert jobs'[m] == jobs[if m < k || |jobs'| == |jobs| then m else m + 1];
    }
  }

  lemma NameKeepsCourse(c: Config, roomy: bool, st: Storage, es: Trace, cur: Trace, b: Book, input: Input)
    requires OnCourse(c, roomy, st.mode, es, cur, b) && NoDoubt(c, roomy, es) && OnlyEvents(cur) && input.Names?
    ensures OnCourse(c, roomy, st.mode, es, cur, BookNext(c, st, b, input))
  {
    hide NoDoubt, AllAskedBefore;
    var s, q, k, found := Run(c, cur).net, b.queues, input.k, Digested(c, b.trace);
    SureAreNamed(c, roomy, cur, es);
    if k < |q.jobs| && q.jobs[k].stage.Named? {
      var j := q.jobs[k];
      var b' := BookNext(c, st, b, input);
      if Live(s, j.id) {
        MarkIsSure(c, es, b, MarkOf(s, j).value, j);
      }
      assert j.hashed ==> NamesSure(c, es, s, j.id);
      DoneKeepsDue(s, Surely(c, cur), found, q, k, Digested(c, b'.trace));
      DoneKeepsSure(c, es, s, q.jobs, k);
    } else {
      assert BookNext(c, st, b, input) == b;
    }
  }

  lemma PayloadKeepsCourse(c: Config, roomy: bool, st: Storage, es: Trace, cur: Trace, b: Book, input: Input)
    requires OnCourse(c, roomy, st.mode, es, cur, b) && (input.TakesPayload? || input.Fetched? || input.Delivers?)
    ensures OnCourse(c, roomy, st.mode, es, cur, BookNext(c, st, b, input))
  {
    var b' := BookNext(c, st, b, input);
    DueInBoth(Run(c, cur).net, Surely(c, cur), Digested(c, b.trace), b.queues, b'.queues);
  }

  lemma TakesNothing(c: Config, st: Storage, b: Book)
    requires b.queues.bodies == []
    ensures BookNext(c, st, b, TakesBody) == b
  {
  }

  lemma InteractionAsksNothing(c: Config, st: Storage, b: Book)
    ensures QueuesOn(c, st, Run(c, b.trace).net, b.queues, Interacted, NoPost) == b.queues
  {
  }

  lemma StepKeepsCourse(c: Config, roomy: bool, st: Storage, es: Trace, cur: Trace, b: Book, input: Input)
    requires OnCourse(c, roomy, st.mode, es, cur, b) && NoDoubt(c, roomy, es) && OnlyEvents(cur)
    requires roomy ==> HasRoom(c, b, input)
    requires Prefix(EventsNext(cur, input), es)
    ensures OnCourse(c, roomy, st.mode, es, EventsNext(cur, input), BookNext(c, st, b, input))
  {
    hide OnCourse, NoDoubt, QueuesOn, Run;
    match input
    case Happens(e, post, _, _) => EventKeepsCourse(c, roomy, st, es, cur, b, e, post);
    case Interacts(_) =>
      EventKeepsCourse(c, roomy, st, es, cur, b, Interacted, NoPost);
      InteractionAsksNothing(c, st, b);
    case TakesBody =>
      if b.queues.bodies == [] { TakesNothing(c, st, b); } else { TakeKeepsCourse(c, roomy, st, es, cur, b); }
    case TakesPayload => PayloadKeepsCourse(c, roomy, st, es, cur, b, input);
    case Concludes(_, _, _) => StageKeepsCourse(c, roomy, st, es, cur, b, input);
    case Attaches(_) => AttachKeepsCourse(c, roomy, st, es, cur, b, input);
    case LooksUp(_, _) => StageKeepsCourse(c, roomy, st, es, cur, b, input);
    case Names(_) => NameKeepsCourse(c, roomy, st, es, cur, b, input);
    case Fetched(_, _, _) => PayloadKeepsCourse(c, roomy, st, es, cur, b, input);
    case Delivers(_) => PayloadKeepsCourse(c, roomy, st, es, cur, b, input);
  }

  lemma {:induction false} HistoryStaysOnCourse(c: Config, roomy: bool, st: Storage, es: Trace, h: History)
    requires NoDoubt(c, roomy, es) && Prefix(EventsOf(h), es) && (roomy ==> Roomy(c, st, h))
    ensures OnCourse(c, roomy, st.mode, es, EventsOf(h), BookOf(c, st, h))
  {
    if h.Onto? {
      var cur := EventsOf(h.before);
      assert EventsOf(h) == EventsNext(cur, h.input) && Prefix(cur, EventsOf(h));
      PrefixTransitive(cur, EventsOf(h), es);
      HistoryStaysOnCourse(c, roomy, st, es, h.before);
      BookMatches(c, st, h.before);
      StepKeepsCourse(c, roomy, st, es, cur, BookOf(c, st, h.before), h.input);
    }
  }

  /** When the events leave no doubt, a scan with any storage which has read all it asked for finds
      exactly the parts of the hops every mode reads. */
  lemma FindsExactly(c: Config, roomy: bool, st: Storage, h: History)
    requires NoDoubt(c, roomy, EventsOf(h)) && (roomy ==> Roomy(c, st, h)) && Drained(BookOf(c, st, h).queues)
    ensures forall x :: x in Digested(c, BookOf(c, st, h).trace) <==> x.hop in Surely(c, EventsOf(h))
  {
    var es, b := EventsOf(h), BookOf(c, st, h);
    HistoryStaysOnCourse(c, roomy, st, es, h);
    SurelyAre(c, es);
    forall x: Spot | x.hop in Surely(c, es) ensures x in Digested(c, b.trace) {
      assert !StillDue(b.queues, Run(c, es).net.records[x.hop].id, x.part);
    }
  }
}
