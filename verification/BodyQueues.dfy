/** Which bodies a scan reads, as far as what it stores decides that: what is wanted of each hop,
    the queues between the listener and the workers, and what the workers have in hand. */
module BodyQueues {
  import opened Wrappers
  import opened Observation
  import opened BodyStorage
  import opened Hops
  import opened Traces

  // How far a worker has got with a body. Those that are not fingerprinted, or could not be read,
  // go through the last two stages without effect.
  datatype Stage =
    | Reading                                  // Chrome has not answered
    | Holding(digest: string, readable: bool)  // the body is at hand, and stored if it is to be
    | Attached(readable: bool)
    | Named(value: string)                     // its identity, lifted out of it by the hop's URL

  // A body a worker took from the queue, with what it planned to do with it.
  datatype Job = Job(id: RequestId, hashed: bool, store: bool, stage: Stage)

  // A payload a worker took from its queue, and whether Chrome has answered for it.
  datatype Fetching = Fetching(id: RequestId, answered: bool)

  datatype Queues = Queues(
    // Which hops have a body that is read.
    want: seq<bool>,
    bodies: seq<RequestId>, jobs: seq<Job>,
    payloads: seq<RequestId>, fetching: seq<Fetching>)

  const IDLE := Queues([], [], [], [], [])

  // What reaches a session: an event, the interaction, a worker that takes the next body or
  // payload, Chrome's answer to one of those in hand, or the next step of a worker that has one -
  // in any order.
  datatype Input =
    | Happens(e: Event, post: PostField, dataSink: SinkResult, sink: SinkResult)
    | Interacts(now: int)
    | TakesBody
    | TakesPayload
    | Concludes(k: nat, read: BodyRead, sink: SinkResult)
    | Attaches(k: nat)
    | LooksUp(k: nat, identify: string -> string)
    | Names(k: nat)
    | Fetched(k: nat, payload: PayloadRead, sink: SinkResult)
    | Delivers(k: nat)

  // The interaction is no network event.
  predicate Possible(input: Input) { input.Happens? ==> !input.e.Interacted? }

  // ---------- what one input does to the queues ----------

  predicate Admitted(c: Config, s: State) { s.exceeded == NoCap && |s.records| < c.maxRequests }

  function WantOn(c: Config, mode: Mode, s: State, want: seq<bool>, e: Event): seq<bool> {
    match e
    case WillBeSent(_, _, _, _, _, _, _, _) =>
      if Admitted(c, s) then want + [Wants(c, mode, NewRequest(c, s.phase, e))] else want
    case Response(id, kind, _) =>
      if Live(s, id) && s.current[id] < |want|
      then
        var k := s.current[id];
        want[k := want[k] || Wants(c, mode, s.records[k].(resourceType := TypeName(kind)))]
      else want
    case WebSocket(_, _, _) => if Admitted(c, s) then want + [false] else want
    case _ => want
  }

  // The hop that e ends by loading is one whose body is read.
  predicate Asks(s: State, want: seq<bool>, e: Event) {
    e.Finished? && Open(s, e.id) && s.current[e.id] < |want| && want[s.current[e.id]]
  }

  // The request that begins has a payload that is still to be fetched.
  predicate AsksForPayload(c: Config, st: Storage, s: State, e: Event, post: PostField) {
    e.WillBeSent? && Admitted(c, s) && WantsPayload(st, s.exceeded, e.url, post) && post.NotIncluded?
  }

  function Queued(queue: seq<RequestId>, id: RequestId): seq<RequestId> {
    if |queue| < QUEUE_SIZE then queue + [id] else queue
  }

  function QueuesOn(c: Config, st: Storage, s: State, q: Queues, e: Event, post: PostField): Queues {
    q.(want := WantOn(c, st.mode, s, q.want, e),
       bodies := if Asks(s, q.want, e) then Queued(q.bodies, e.id) else q.bodies,
       payloads := if AsksForPayload(c, st, s, e, post) then Queued(q.payloads, e.id) else q.payloads)
  }

  function Planned(mode: Mode, s: State, id: RequestId): Job {
    if Live(s, id) then Job(id, s.records[s.current[id]].hashed, BodyStored(mode, s.records[s.current[id]]), Reading)
    else Job(id, false, false, Reading)
  }

  // Chrome has answered for the body.
  function Concluded(c: Config, j: Job, read: BodyRead): Job {
    j.(stage := Holding(if j.hashed then BodyFound(c, read) else "", Readable(c, read)))
  }

  // The hop its ID names by now has told its URL.
  function LookedUp(s: State, j: Job, identify: string -> string): Job {
    var url := if Live(s, j.id) then s.records[s.current[j.id]].url else "";
    j.(stage := Named(if j.hashed && j.stage.Attached? && j.stage.readable && url != "" then identify(url) else ""))
  }

  // The jobs after the step of one of them; a step that is not its turn changes nothing.
  function JobsNext(c: Config, s: State, jobs: seq<Job>, input: Input): seq<Job> {
    match input
    case Concludes(k, read, _) =>
      if k < |jobs| && jobs[k].stage.Reading? then jobs[k := Concluded(c, jobs[k], read)] else jobs
    case Attaches(k) =>
      if k < |jobs| && jobs[k].stage.Holding? then jobs[k := jobs[k].(stage := Attached(jobs[k].stage.readable))]
      else jobs
    case LooksUp(k, identify) =>
      if k < |jobs| && jobs[k].stage.Attached? then jobs[k := LookedUp(s, jobs[k], identify)] else jobs
    case Names(k) => if k < |jobs| && jobs[k].stage.Named? then Without(jobs, k) else jobs
    case _ => jobs
  }

  function Without<T>(items: seq<T>, k: nat): seq<T> { if k < |items| then items[..k] + items[k + 1..] else items }

  predicate IsAsked(q: Queues, k: nat) { k < |q.fetching| && !q.fetching[k].answered }

  predicate IsAnswered(q: Queues, k: nat) { k < |q.fetching| && q.fetching[k].answered }

  function QueuesNext(c: Config, st: Storage, s: State, q: Queues, input: Input): Queues {
    match input
    case Happens(e, post, _, _) => QueuesOn(c, st, s, q, e, post)
    case Interacts(_) => q
    case TakesBody =>
      if q.bodies == [] then q
      else q.(bodies := q.bodies[1..], jobs := q.jobs + [Planned(st.mode, s, q.bodies[0])])
    case TakesPayload =>
      if q.payloads == [] then q
      else q.(payloads := q.payloads[1..], fetching := q.fetching + [Fetching(q.payloads[0], false)])
    case Fetched(k, _, _) => q.(fetching := if IsAsked(q, k) then q.fetching[k := Fetching(q.fetching[k].id, true)]
                                            else q.fetching)
    case Delivers(k) => q.(fetching := if IsAnswered(q, k) then Without(q.fetching, k) else q.fetching)
    case _ => q.(jobs := JobsNext(c, s, q.jobs, input))
  }

  // The mark that the next step of a job brings to the hop its ID names by then, if there is one.
  function MarkOf(s: State, j: Job): Option<Stimulus> {
    if !Live(s, j.id) then None else
    match j.stage
    case Holding(digest, _) => Some(Read(j.id, j.hashed, Body, digest))
    case Named(value) => Some(Read(j.id, j.hashed, Name, value))
    case _ => None
  }

  // What of an input can be observed.
  function StimulusOf(c: Config, s: State, q: Queues, input: Input): Option<Stimulus> {
    match input
    case Happens(e, _, _, _) => Some(Saw(e))
    case Interacts(_) => Some(Saw(Interacted))
    case Attaches(k) => if k < |q.jobs| && q.jobs[k].stage.Holding? then MarkOf(s, q.jobs[k]) else None
    case Names(k) => if k < |q.jobs| && q.jobs[k].stage.Named? then MarkOf(s, q.jobs[k]) else None
    case _ => None
  }

  // ---------- whole sessions ----------

  datatype History = Begun | Onto(before: History, input: Input)

  datatype Book = Book(trace: Trace, queues: Queues)

  function Grown(trace: Trace, y: Option<Stimulus>): Trace { if y.Some? then Then(trace, y.value) else trace }

  function BookNext(c: Config, st: Storage, b: Book, input: Input): Book {
    var s := Run(c, b.trace).net;
    Book(Grown(b.trace, StimulusOf(c, s, b.queues, input)), QueuesNext(c, st, s, b.queues, input))
  }

  // The trace a scan with this storage runs through, and the queues it is left with.
  function BookOf(c: Config, st: Storage, h: History): Book {
    match h case Begun => Book(Start, IDLE) case Onto(before, input) => BookNext(c, st, BookOf(c, st, before), input)
  }

  // The events alone, with which storage has nothing to do.
  function EventsOf(h: History): Trace {
    match h
    case Begun => Start
    case Onto(before, Happens(e, _, _, _)) => Then(EventsOf(before), Saw(e))
    case Onto(before, Interacts(_)) => Then(EventsOf(before), Saw(Interacted))
    case Onto(before, _) => EventsOf(before)
  }

  lemma {:induction false} TraceHasTheEvents(c: Config, st: Storage, h: History)
    ensures Events(BookOf(c, st, h).trace) == EventsOf(h)
  {
    if h.Onto? {
      TraceHasTheEvents(c, st, h.before);
    }
  }

  // ---------- orderly sessions ----------

  // The worker with this job has still to find this part.
  predicate Owes(j: Job, part: Part) { part == Name || j.stage.Reading? || j.stage.Holding? }

  // This part of the mark of id is still to be found.
  predicate Pending(q: Queues, id: RequestId, part: Part) {
    id in q.bodies || exists k :: 0 <= k < |q.jobs| && q.jobs[k].id == id && Owes(q.jobs[k], part)
  }

  /** What a session counts on: no response turns a hop that has loaded into a fingerprinted one, no
      ID is used again while a body is still to be read under it, the queue of bodies is not full
      when one is asked for, and what is found in the body of a fingerprinted hop is what the
      oracle says. */
  predicate Orderly(c: Config, b: Book, input: Input, oracle: nat -> Mark) {
    var s, q := Run(c, b.trace).net, b.queues;
    match input
    case Happens(e, _, _, _) => OrderlyEvent(c, s, Loaded(c, b.trace), q, e)
    case _ =>
      var y := StimulusOf(c, s, q, input);
      y.Some? ==> Gives(s, y.value, oracle)
  }

  predicate OrderlyEvent(c: Config, s: State, loaded: set<nat>, q: Queues, e: Event) {
    && !TurnsLoaded(c, s, loaded, e)
    && (e.WillBeSent? ==> !Pending(q, e.id, Name))
    && (Asks(s, q.want, e) ==> |q.bodies| < QUEUE_SIZE)
  }

  predicate AllOrderly(c: Config, st: Storage, h: History, oracle: nat -> Mark) {
    h.Onto? ==>
      AllOrderly(c, st, h.before, oracle) && Possible(h.input) && Orderly(c, BookOf(c, st, h.before), h.input, oracle)
  }

  // Every body that was asked for has been read.
  predicate Drained(q: Queues) { q.bodies == [] && q.jobs == [] }

  // ---------- what an orderly session keeps ----------

  ghost predicate HashedWanted(s: State, want: seq<bool>) {
    |want| == |s.records| && forall i :: 0 <= i < |want| && s.records[i].hashed ==> want[i]
  }

  // id names a hop that loaded.
  predicate NamesLoaded(s: State, loaded: set<nat>, id: RequestId) { Live(s, id) && s.current[id] in loaded }

  predicate JobFits(s: State, loaded: set<nat>, j: Job) {
    NamesLoaded(s, loaded, j.id) && j.hashed == s.records[s.current[j.id]].hashed
  }

  // Everything waiting or in hand is of a hop that loaded, and planned as that hop is.
  ghost predicate QueuesFit(s: State, loaded: set<nat>, q: Queues) {
    && (forall i :: 0 <= i < |q.bodies| ==> NamesLoaded(s, loaded, q.bodies[i]))
    && (forall k :: 0 <= k < |q.jobs| ==> JobFits(s, loaded, q.jobs[k]))
  }

  // It is that of some body waiting or in hand.
  ghost predicate StillToRead(s: State, q: Queues, x: Spot) {
    exists id :: Pending(q, id, x.part) && id in s.current && s.current[id] == x.hop
  }

  // What a comparison needs was read, or will be.
  ghost predicate Covered(s: State, loaded: set<nat>, read: set<Spot>, q: Queues) {
    forall x :: MustRead(s, loaded, x) ==> x in read || StillToRead(s, q, x)
  }

  ghost predicate BookInv(c: Config, b: Book, oracle: nat -> Mark) {
    var s, loaded := Run(c, b.trace).net, Loaded(c, b.trace);
    && WellTimed(c, b.trace) && Follows(c, b.trace, oracle)
    && HashedWanted(s, b.queues.want) && QueuesFit(s, loaded, b.queues)
    && Covered(s, loaded, WasRead(c, b.trace), b.queues)
  }

  // ---------- events ----------

  lemma ResponseKeepsWanted(c: Config, mode: Mode, s: State, want: seq<bool>, e: Event)
    requires HashedWanted(s, want) && e.Response?
    ensures HashedWanted(OnResponse(c, s, e), WantOn(c, mode, s, want, e))
  {
  }

  lemma RequestKeepsWanted(c: Config, mode: Mode, s: State, want: seq<bool>, e: Event)
    requires HashedWanted(s, want) && e.WillBeSent?
    ensures HashedWanted(OnWillBeSent(c, s, e), WantOn(c, mode, s, want, e))
  {
    RedirectSameHashed(c, s, e);
    var s1 := AfterRedirect(s, e);
    assert |s1.records| == |s.records| && s1.exceeded == s.exceeded && s1.phase == s.phase;
  }

  lemma EventKeepsWanted(c: Config, mode: Mode, s: State, want: seq<bool>, e: Event)
    requires HashedWanted(s, want)
    ensures HashedWanted(Observe(c, s, e), WantOn(c, mode, s, want, e))
  {
    match e
    case WillBeSent(_, _, _, _, _, _, _, _) => RequestKeepsWanted(c, mode, s, want, e);
    case Response(_, _, _) => ResponseKeepsWanted(c, mode, s, want, e);
    case Finished(_, _) => EndSameHashed(c, s, e);
    case Failed(_, _) => EndSameHashed(c, s, e);
    case WebSocket(_, _, _) => assert SameHashed(s, OnWebSocket(c, s, e));
    case Interacted =>
  }

  // An event leaves every ID it does not begin a request for where it was.
  lemma EventKeepsNames(c: Config, s: State, e: Event, id: RequestId)
    requires Live(s, id) && !(e.WillBeSent? && e.id == id)
    ensures Live(Observe(c, s, e), id) && Observe(c, s, e).current[id] == s.current[id]
  {
    hide Observe, Keeps;
    EndsOnce(c, s, e);
    EventTakesName(c, s, e);
  }

  // What was pending before is pending after, and fits as it did.
  lemma EventKeepsFit(c: Config, s: State, loaded: set<nat>, q: Queues, e: Event)
    requires QueuesFit(s, loaded, q) && Ended(s, loaded) && OrderlyEvent(c, s, loaded, q, e)
    ensures QueuesFit(Observe(c, s, e), loaded, q)
  {
    var s' := Observe(c, s, e);
    HashedIsFixed(c, s, e, loaded);
    forall i | 0 <= i < |q.bodies| ensures NamesLoaded(s', loaded, q.bodies[i]) {
      assert q.bodies[i] in q.bodies && NamesLoaded(s, loaded, q.bodies[i]);
      EventKeepsNames(c, s, e, q.bodies[i]);
    }
    forall k | 0 <= k < |q.jobs| ensures JobFits(s', loaded, q.jobs[k]) {
      assert JobFits(s, loaded, q.jobs[k]) && Owes(q.jobs[k], Name) && (e.WillBeSent? ==> q.jobs[k].id != e.id);
      EventKeepsNames(c, s, e, q.jobs[k].id);
    }
  }

  // Whatever part is pending, the name is.
  lemma PendingNeedsName(q: Queues, id: RequestId, part: Part)
    requires Pending(q, id, part)
    ensures Pending(q, id, Name)
  {
    if id !in q.bodies {
      var k :| 0 <= k < |q.jobs| && q.jobs[k].id == id && Owes(q.jobs[k], part);
      assert Owes(q.jobs[k], Name);
    }
  }

  lemma EventKeepsCover(c: Config, s: State, loaded: set<nat>, read: set<Spot>, q: Queues, e: Event)
    requires Covered(s, loaded, read, q) && QueuesFit(s, loaded, q) && Ended(s, loaded)
    requires OrderlyEvent(c, s, loaded, q, e)
    ensures Covered(Observe(c, s, e), loaded, read, q)
  {
    var s' := Observe(c, s, e);
    HashedIsFixed(c, s, e, loaded);
    forall x | MustRead(s', loaded, x) && x !in read ensures StillToRead(s', q, x) {
      assert MustRead(s, loaded, x) && StillToRead(s, q, x);
      var id :| Pending(q, id, x.part) && id in s.current && s.current[id] == x.hop;
      PendingNeedsName(q, id, x.part);
      EventKeepsNames(c, s, e, id);
    }
  }

  // A hop that loads is covered: if it is a fingerprinted one, its body is asked for.
  lemma LoadIsCovered(c: Config, st: Storage, s: State, loaded: set<nat>, read: set<Spot>, q: Queues, e: Event,
                      post: PostField)
    requires HashedWanted(s, q.want) && (Asks(s, q.want, e) ==> |q.bodies| < QUEUE_SIZE)
    requires var s' := Observe(c, s, e); Covered(s', loaded, read, q) && QueuesFit(s', loaded, q)
    ensures var s', q', loaded' := Observe(c, s, e), QueuesOn(c, st, s, q, e, post), loaded + LoadedBy(s, Saw(e));
            Covered(s', loaded', read, q') && QueuesFit(s', loaded', q')
  {
    var s', q', loaded' := Observe(c, s, e), QueuesOn(c, st, s, q, e, post), loaded + LoadedBy(s, Saw(e));
    assert forall id, part :: Pending(q, id, part) ==> Pending(q', id, part);
    if e.Finished? && Open(s, e.id) {
      EventKeepsNames(c, s, e, e.id);
      EndSameHashed(c, s, e);
      assert s'.records[s.current[e.id]].hashed ==> e.id in q'.bodies;
    }
    forall x | MustRead(s', loaded', x) && x !in read ensures StillToRead(s', q', x) {
      if x.hop in loaded {
        assert MustRead(s', loaded, x) && StillToRead(s', q, x);
      } else {
        assert e.id in q'.bodies && Pending(q', e.id, x.part);
      }
    }
  }

  lemma EventKeepsBook(c: Config, st: Storage, b: Book, e: Event, post: PostField, oracle: nat -> Mark)
    requires BookInv(c, b, oracle) && OrderlyEvent(c, Run(c, b.trace).net, Loaded(c, b.trace), b.queues, e)
    ensures BookInv(c, Book(Then(b.trace, Saw(e)), QueuesOn(c, st, Run(c, b.trace).net, b.queues, e, post)), oracle)
  {
    var s, q, loaded, read := Run(c, b.trace).net, b.queues, Loaded(c, b.trace), WasRead(c, b.trace);
    LoadedHaveEnded(c, b.trace);
    EventKeepsWanted(c, st.mode, s, q.want, e);
    EventKeepsFit(c, s, loaded, q, e);
    EventKeepsCover(c, s, loaded, read, q, e);
    LoadIsCovered(c, st, s, loaded, read, q, e, post);
  }

  // ---------- workers ----------

  // Jobs that still fit, and of which each part is still pending unless it was read.
  lemma CoverFollows(s: State, loaded: set<nat>, read: set<Spot>, q: Queues, read': set<Spot>, q': Queues)
    requires Covered(s, loaded, read, q) && read <= read'
    requires forall id, part :: Pending(q, id, part) && id in s.current ==>
               Pending(q', id, part) || Spot(s.current[id], part) in read'
    ensures Covered(s, loaded, read', q')
  {
    forall x | MustRead(s, loaded, x) && x !in read' ensures StillToRead(s, q', x) {
      assert StillToRead(s, q, x);
      var id :| Pending(q, id, x.part) && id in s.current && s.current[id] == x.hop;
      assert x == Spot(s.current[id], x.part);
      assert Pending(q', id, x.part);
    }
  }

  lemma TakeKeepsFit(c: Config, st: Storage, s: State, loaded: set<nat>, read: set<Spot>, q: Queues)
    requires QueuesFit(s, loaded, q) && Covered(s, loaded, read, q)
    ensures var q' := QueuesNext(c, st, s, q, TakesBody); QueuesFit(s, loaded, q') && Covered(s, loaded, read, q')
  {
    var q' := QueuesNext(c, st, s, q, TakesBody);
    if q.bodies != [] {
      assert NamesLoaded(s, loaded, q.bodies[0]);
      forall id, part | Pending(q, id, part) ensures Pending(q', id, part) {
        if id in q.bodies {
          assert id == q.bodies[0] || id in q.bodies[1..];
          assert q'.jobs[|q.jobs|].id == q.bodies[0] && Owes(q'.jobs[|q.jobs|], part);
        } else {
          var k :| 0 <= k < |q.jobs| && q.jobs[k].id == id && Owes(q.jobs[k], part);
          assert q'.jobs[k] == q.jobs[k];
        }
      }
      CoverFollows(s, loaded, read, q, read, q');
    }
  }

  // A job goes on to its next stage; what it owes no more has been read.
  lemma AdvanceKeepsFit(s: State, loaded: set<nat>, read: set<Spot>, q: Queues, k: nat, j: Job, read': set<Spot>)
    requires QueuesFit(s, loaded, q) && Covered(s, loaded, read, q) && k < |q.jobs|
    requires j == q.jobs[k].(stage := j.stage) && read <= read'
    requires forall part :: Owes(q.jobs[k], part) && q.jobs[k].id in s.current ==>
               Owes(j, part) || Spot(s.current[q.jobs[k].id], part) in read'
    ensures var q' := q.(jobs := q.jobs[k := j]); QueuesFit(s, loaded, q') && Covered(s, loaded, read', q')
  {
    var q' := q.(jobs := q.jobs[k := j]);
    assert JobFits(s, loaded, q.jobs[k]);
    forall id, part | Pending(q, id, part) && id in s.current
      ensures Pending(q', id, part) || Spot(s.current[id], part) in read'
    {
      if id !in q.bodies {
        var m :| 0 <= m < |q.jobs| && q.jobs[m].id == id && Owes(q.jobs[m], part);
        assert q'.jobs[m].id == id;
      }
    }
    CoverFollows(s, loaded, read, q, read', q');
  }

  // A job that is done with leaves all others pending.
  lemma DoneKeepsFit(s: State, loaded: set<nat>, read: set<Spot>, q: Queues, k: nat, read': set<Spot>)
    requires QueuesFit(s, loaded, q) && Covered(s, loaded, read, q) && k < |q.jobs| && read <= read'
    requires forall part :: Owes(q.jobs[k], part) && q.jobs[k].id in s.current ==>
               Spot(s.current[q.jobs[k].id], part) in read'
    ensures var q' := q.(jobs := Without(q.jobs, k)); QueuesFit(s, loaded, q') && Covered(s, loaded, read', q')
  {
    var q' := q.(jobs := Without(q.jobs, k));
    forall id, part | Pending(q, id, part) && id in s.current
      ensures Pending(q', id, part) || Spot(s.current[id], part) in read'
    {
      if id !in q.bodies {
        var m :| 0 <= m < |q.jobs| && q.jobs[m].id == id && Owes(q.jobs[m], part);
        if m != k {
          assert q'.jobs[if m < k then m else m - 1] == q.jobs[m];
        }
      }
    }
    CoverFollows(s, loaded, read, q, read', q');
  }

  // What only changes what is waiting or in hand.
  lemma QuietKeepsBook(c: Config, b: Book, q': Queues, oracle: nat -> Mark)
    requires BookInv(c, b, oracle) && q'.want == b.queues.want
    requires var s, loaded := Run(c, b.trace).net, Loaded(c, b.trace);
             QueuesFit(s, loaded, q') && Covered(s, loaded, WasRead(c, b.trace), q')
    ensures BookInv(c, Book(b.trace, q'), oracle)
  {
  }

  // What also brings a mark.
  lemma ReadKeepsBook(c: Config, b: Book, y: Stimulus, q': Queues, oracle: nat -> Mark)
    requires BookInv(c, b, oracle) && y.Read? && q'.want == b.queues.want
    requires var s, loaded := Run(c, b.trace).net, Loaded(c, b.trace);
             && InTime(c, s, loaded, y) && Gives(s, y, oracle) && QueuesFit(s, loaded, q')
             && Covered(s, loaded, WasRead(c, b.trace) + ReadBy(s, y), q')
    ensures BookInv(c, Book(Then(b.trace, y), q'), oracle)
  {
    var trace := Then(b.trace, y);
    assert Run(c, trace).net == Run(c, b.trace).net && Loaded(c, trace) == Loaded(c, b.trace);
  }

  lemma StageKeepsBook(c: Config, st: Storage, b: Book, input: Input, oracle: nat -> Mark)
    requires BookInv(c, b, oracle) && (input.Concludes? || input.LooksUp?)
    ensures BookInv(c, BookNext(c, st, b, input), oracle)
  {
    var s, q, loaded, read := Run(c, b.trace).net, b.queues, Loaded(c, b.trace), WasRead(c, b.trace);
    var k, jobs := input.k, JobsNext(c, s, q.jobs, input);
    if jobs != q.jobs {
      AdvanceKeepsFit(s, loaded, read, q, k, jobs[k], read);
    }
    QuietKeepsBook(c, b, q.(jobs := jobs), oracle);
  }

  lemma AttachKeepsBook(c: Config, st: Storage, b: Book, input: Input, oracle: nat -> Mark)
    requires BookInv(c, b, oracle) && input.Attaches? && Orderly(c, b, input, oracle)
    ensures BookInv(c, BookNext(c, st, b, input), oracle)
  {
    var s, q, loaded, read := Run(c, b.trace).net, b.queues, Loaded(c, b.trace), WasRead(c, b.trace);
    var k := input.k;
    if k < |q.jobs| && q.jobs[k].stage.Holding? {
      assert JobFits(s, loaded, q.jobs[k]);
      var y := MarkOf(s, q.jobs[k]).value;
      var j := q.jobs[k].(stage := Attached(q.jobs[k].stage.readable));
      AdvanceKeepsFit(s, loaded, read, q, k, j, read + ReadBy(s, y));
      ReadKeepsBook(c, b, y, QueuesNext(c, st, s, q, input), oracle);
    } else {
      assert QueuesNext(c, st, s, q, input) == q;
    }
  }

  lemma NameKeepsBook(c: Config, st: Storage, b: Book, input: Input, oracle: nat -> Mark)
    requires BookInv(c, b, oracle) && input.Names? && Orderly(c, b, input, oracle)
    ensures BookInv(c, BookNext(c, st, b, input), oracle)
  {
    var s, q, loaded, read := Run(c, b.trace).net, b.queues, Loaded(c, b.trace), WasRead(c, b.trace);
    var k := input.k;
    if k < |q.jobs| && q.jobs[k].stage.Named? {
      assert JobFits(s, loaded, q.jobs[k]);
      var y := MarkOf(s, q.jobs[k]).value;
      DoneKeepsFit(s, loaded, read, q, k, read + ReadBy(s, y));
      ReadKeepsBook(c, b, y, QueuesNext(c, st, s, q, input), oracle);
    } else {
      assert QueuesNext(c, st, s, q, input) == q;
    }
  }

  lemma StepKeepsBook(c: Config, st: Storage, b: Book, input: Input, oracle: nat -> Mark)
    requires BookInv(c, b, oracle) && Possible(input) && Orderly(c, b, input, oracle)
    ensures BookInv(c, BookNext(c, st, b, input), oracle)
  {
    match input
    case Happens(e, post, _, _) => EventKeepsBook(c, st, b, e, post, oracle);
    case Interacts(_) => InteractionKeepsBook(c, st, b, input, oracle);
    case TakesBody => TakeKeepsFit(c, st, Run(c, b.trace).net, Loaded(c, b.trace), WasRead(c, b.trace), b.queues);
    case TakesPayload => PayloadKeepsBook(c, st, b, input, oracle);
    case Concludes(_, _, _) => StageKeepsBook(c, st, b, input, oracle);
    case Attaches(_) => AttachKeepsBook(c, st, b, input, oracle);
    case LooksUp(_, _) => StageKeepsBook(c, st, b, input, oracle);
    case Names(_) => NameKeepsBook(c, st, b, input, oracle);
    case Fetched(_, _, _) => PayloadKeepsBook(c, st, b, input, oracle);
    case Delivers(_) => PayloadKeepsBook(c, st, b, input, oracle);
  }

  lemma InteractionKeepsBook(c: Config, st: Storage, b: Book, input: Input, oracle: nat -> Mark)
    requires BookInv(c, b, oracle) && input.Interacts?
    ensures BookInv(c, BookNext(c, st, b, input), oracle)
  {
    EventKeepsBook(c, st, b, Interacted, NoPost, oracle);
    assert QueuesOn(c, st, Run(c, b.trace).net, b.queues, Interacted, NoPost) == b.queues;
  }

  // Payloads are no part of what is read for a digest.
  lemma PayloadKeepsBook(c: Config, st: Storage, b: Book, input: Input, oracle: nat -> Mark)
    requires BookInv(c, b, oracle) && (input.TakesPayload? || input.Fetched? || input.Delivers?)
    ensures BookInv(c, BookNext(c, st, b, input), oracle)
  {
    var s, q, read := Run(c, b.trace).net, b.queues, WasRead(c, b.trace);
    var q' := QueuesNext(c, st, s, q, input);
    assert forall id, part :: Pending(q, id, part) ==> Pending(q', id, part);
    CoverFollows(s, Loaded(c, b.trace), read, q, read, q');
    QuietKeepsBook(c, b, q', oracle);
  }

  lemma {:induction false} OrderlyKeepsBook(c: Config, st: Storage, h: History, oracle: nat -> Mark)
    requires AllOrderly(c, st, h, oracle)
    ensures BookInv(c, BookOf(c, st, h), oracle)
  {
    if h.Onto? {
      OrderlyKeepsBook(c, st, h.before, oracle);
      StepKeepsBook(c, st, BookOf(c, st, h.before), h.input, oracle);
    }
  }

  /** An orderly session that has read every body it asked for, in any storage mode, has found all
      there is to find of every fingerprinted body that loaded, and each in time. */
  lemma OrderlyIsComplete(c: Config, st: Storage, h: History, oracle: nat -> Mark)
    requires AllOrderly(c, st, h, oracle) && Drained(BookOf(c, st, h).queues)
    ensures var trace := BookOf(c, st, h).trace;
            WellTimed(c, trace) && Follows(c, trace, oracle) && Complete(c, trace)
  {
    OrderlyKeepsBook(c, st, h, oracle);
    var b := BookOf(c, st, h);
    var s := Run(c, b.trace).net;
    forall x | MustRead(s, Loaded(c, b.trace), x) ensures x in WasRead(c, b.trace) {
      assert !StillToRead(s, b.queues, x);
    }
  }

  /** Storage does not change what is observed: whatever two scans store, and whatever else they
      read and in whatever order, if they see the same events, are orderly and have read what
      they asked for, they observe the same. */
  lemma StorageIsNotObserved(c: Config, st: Storage, st': Storage, h: History, h': History, oracle: nat -> Mark)
    requires EventsOf(h) == EventsOf(h')
    requires AllOrderly(c, st, h, oracle) && Drained(BookOf(c, st, h).queues)
    requires AllOrderly(c, st', h', oracle) && Drained(BookOf(c, st', h').queues)
    ensures Run(c, BookOf(c, st, h).trace) == Run(c, BookOf(c, st', h').trace)
  {
    OrderlyIsComplete(c, st, h, oracle);
    OrderlyIsComplete(c, st', h', oracle);
    TraceHasTheEvents(c, st, h);
    TraceHasTheEvents(c, st', h');
    SameObservation(c, BookOf(c, st, h).trace, BookOf(c, st', h').trace, oracle);
  }
}
