/** Histories built to order for a given list of events: scans that read each body at once, or hold
    one back, or let them wait. */
module Timelines {
  import opened Wrappers
  import opened Observation
  import opened BodyStorage
  import opened Hops
  import opened Traces
  import opened BodyQueues
  import opened EventLists
  import opened Independence

  const ANY := Stored("")
  const NO_NAME: string -> string := (url: string) => ""

  function Shown(y: Stimulus): Input
    requires y.Saw?
  {
    if y.e.Interacted? then Interacts(0) else Happens(y.e, NoPost, ANY, ANY)
  }

  // The n-th job is finished: its body is found to have this digest, and no identity.
  function ReadOut(h: History, n: nat, digest: string): History {
    Onto(Onto(Onto(Onto(h, Concludes(n, ReadBody(0, digest), ANY)), Attaches(n)), LooksUp(n, NO_NAME)), Names(n))
  }

  // The next body is taken, as the n-th job, and read.
  function ReadNext(h: History, n: nat, digest: string): History { ReadOut(Onto(h, TakesBody), n, digest) }

  function ReadSome(h: History, m: nat, n: nat, digest: string): History {
    if m == 0 then h else ReadNext(ReadSome(h, m - 1, n, digest), n, digest)
  }

  // The events of es after p happen, and nothing is read.
  function Plain(es: Trace, p: Trace, h: History): History
    requires OnlyEvents(es) && Prefix(p, es)
    decreases es
  {
    if es == p then h else Onto(Plain(es.before, p, h), Shown(es.last))
  }

  // One event happens, and the body it asks for is read at once.
  function ShowAndRead(c: Config, st: Storage, h: History, y: Stimulus, n: nat, digest: string): History
    requires y.Saw?
  {
    var h1 := Onto(h, Shown(y));
    if BookOf(c, st, h1).queues.bodies == [] then h1 else ReadNext(h1, n, digest)
  }

  // The events of es after p happen, and each body that is asked for is read at once.
  function Prompt(c: Config, st: Storage, es: Trace, p: Trace, h: History, n: nat, digest: string): History
    requires OnlyEvents(es) && Prefix(p, es)
    decreases es
  {
    if es == p then h else ShowAndRead(c, st, Prompt(c, st, es.before, p, h, n, digest), es.last, n, digest)
  }

  // Every body has this digest and no identity.
  function Always(digest: string): nat -> Mark { (i: nat) => Mark(digest, "") }

  // Nothing impossible happens in this history, what it finds is what the oracle says, and if roomy is
  // asked for, its queue is never too full.
  ghost predicate Fair(c: Config, roomy: bool, st: Storage, h: History, oracle: nat -> Mark) {
    AllPossible(h) && AllGive(c, st, h, oracle) && (roomy ==> Roomy(c, st, h))
  }

  // ---------- the steps of one job ----------

  lemma ConcludeStep(c: Config, st: Storage, b: Book, n: nat, digest: string)
    requires n < |b.queues.jobs| && b.queues.jobs[n].stage.Reading? && c.maxBodyBytes >= 0
    ensures var j := b.queues.jobs[n];
            BookNext(c, st, b, Concludes(n, ReadBody(0, digest), ANY))
            == Book(b.trace, b.queues.(jobs :=
                 b.queues.jobs[n := j.(stage := Holding(if j.hashed then digest else "", true))]))
  {
  }

  lemma AttachStep(c: Config, st: Storage, b: Book, n: nat)
    requires n < |b.queues.jobs| && b.queues.jobs[n].stage.Holding? && b.queues.jobs[n].stage.readable
    ensures var j := b.queues.jobs[n];
            BookNext(c, st, b, Attaches(n))
            == Book(Grown(b.trace, MarkOf(Run(c, b.trace).net, j)),
                    b.queues.(jobs := b.queues.jobs[n := j.(stage := Attached(true))]))
  {
  }

  lemma LookStep(c: Config, st: Storage, b: Book, n: nat)
    requires n < |b.queues.jobs| && b.queues.jobs[n].stage.Attached?
    ensures BookNext(c, st, b, LooksUp(n, NO_NAME))
            == Book(b.trace, b.queues.(jobs := b.queues.jobs[n := b.queues.jobs[n].(stage := Named(""))]))
  {
  }

  lemma NameStep(c: Config, st: Storage, b: Book, n: nat)
    requires n < |b.queues.jobs| && b.queues.jobs[n].stage.Named?
    ensures BookNext(c, st, b, Names(n))
            == Book(Grown(b.trace, MarkOf(Run(c, b.trace).net, b.queues.jobs[n])),
                    b.queues.(jobs := Without(b.queues.jobs, n)))
  {
  }

  // What finishing a job finds.
  function FoundBy(s: State, j: Job): set<Spot> {
    if j.hashed && Live(s, j.id) then {Spot(s.current[j.id], Body), Spot(s.current[j.id], Name)} else {}
  }

  // The book once the job is finished.
  lemma ReadOutBook(c: Config, st: Storage, h: History, n: nat, digest: string)
    requires c.maxBodyBytes >= 0
    requires n < |BookOf(c, st, h).queues.jobs| && BookOf(c, st, h).queues.jobs[n].stage.Reading?
    ensures var b, b' := BookOf(c, st, h), BookOf(c, st, ReadOut(h, n, digest));
            && b'.queues == b.queues.(jobs := Without(b.queues.jobs, n))
            && Run(c, b'.trace).net == Run(c, b.trace).net
            && Digested(c, b'.trace) == Digested(c, b.trace) + FoundBy(Run(c, b.trace).net, b.queues.jobs[n])
  {
    var h1 := Onto(h, Concludes(n, ReadBody(0, digest), ANY));
    var h2 := Onto(h1, Attaches(n));
    var h3 := Onto(h2, LooksUp(n, NO_NAME));
    ConcludeStep(c, st, BookOf(c, st, h), n, digest);
    AttachStep(c, st, BookOf(c, st, h1), n);
    LookStep(c, st, BookOf(c, st, h2), n);
    NameStep(c, st, BookOf(c, st, h3), n);
    StepsFind(c, st, BookOf(c, st, h), BookOf(c, st, h2), BookOf(c, st, Onto(h3, Names(n))), n);
  }

  lemma StepsFind(c: Config, st: Storage, b: Book, b2: Book, b4: Book, n: nat)
    requires n < |b.queues.jobs| && b.queues.jobs[n].stage.Reading?
    requires exists digest: string ::
               var j := b.queues.jobs[n].(stage := Holding(digest, true));
               b2.trace == Grown(b.trace, MarkOf(Run(c, b.trace).net, j))
    requires b4.trace == Grown(b2.trace, MarkOf(Run(c, b2.trace).net, b.queues.jobs[n].(stage := Named(""))))
    ensures Run(c, b4.trace).net == Run(c, b.trace).net
    ensures Digested(c, b4.trace) == Digested(c, b.trace) + FoundBy(Run(c, b.trace).net, b.queues.jobs[n])
  {
    assert Run(c, b2.trace).net == Run(c, b.trace).net;
  }

  // Finishing it is no event, and finds what is there to be found.
  lemma ReadOutIsFair(c: Config, roomy: bool, st: Storage, h: History, n: nat, digest: string)
    requires c.maxBodyBytes >= 0 && Fair(c, roomy, st, h, Always(digest))
    requires n < |BookOf(c, st, h).queues.jobs| && BookOf(c, st, h).queues.jobs[n].stage.Reading?
    ensures Fair(c, roomy, st, ReadOut(h, n, digest), Always(digest)) && EventsOf(ReadOut(h, n, digest)) == EventsOf(h)
  {
    var h1 := Onto(h, Concludes(n, ReadBody(0, digest), ANY));
    var h2 := Onto(h1, Attaches(n));
    var h3 := Onto(h2, LooksUp(n, NO_NAME));
    ConcludeStep(c, st, BookOf(c, st, h), n, digest);
    AttachStep(c, st, BookOf(c, st, h1), n);
    LookStep(c, st, BookOf(c, st, h2), n);
    assert Fair(c, roomy, st, h1, Always(digest)) && EventsOf(h1) == EventsOf(h);
    assert Fair(c, roomy, st, h2, Always(digest)) && EventsOf(h2) == EventsOf(h);
    assert Fair(c, roomy, st, h3, Always(digest)) && EventsOf(h3) == EventsOf(h);
  }

  // ---------- events, and bodies read in turn ----------

  lemma ShowStep(c: Config, st: Storage, es: Trace, h: History)
    requires es.Then? && es.last.Saw? && EventsOf(h) == es.before
    ensures EventsOf(Onto(h, Shown(es.last))) == es
    ensures var b, b' := BookOf(c, st, h), BookOf(c, st, Onto(h, Shown(es.last)));
            && b'.trace == Then(b.trace, es.last) && b'.queues.jobs == b.queues.jobs
            && Digested(c, b'.trace) == Digested(c, b.trace)
            && b'.queues.bodies == if AsksLast(c, st.mode, es) then Queued(b.queues.bodies, es.last.e.id)
                                   else b.queues.bodies
  {
    BookMatches(c, st, h);
  }

  lemma ShowIsFair(c: Config, roomy: bool, st: Storage, es: Trace, h: History, oracle: nat -> Mark)
    requires es.Then? && es.last.Saw? && EventsOf(h) == es.before && Fair(c, roomy, st, h, oracle)
    requires roomy && AsksLast(c, st.mode, es) ==> |BookOf(c, st, h).queues.bodies| < QUEUE_SIZE
    ensures Fair(c, roomy, st, Onto(h, Shown(es.last)), oracle)
  {
    BookMatches(c, st, h);
  }

  lemma ReadNextStep(c: Config, roomy: bool, st: Storage, h: History, digest: string)
    requires c.maxBodyBytes >= 0 && BookOf(c, st, h).queues.bodies != []
    ensures var b := BookOf(c, st, h);
            var s, b' := Run(c, b.trace).net, BookOf(c, st, ReadNext(h, |b.queues.jobs|, digest));
            && b'.queues == b.queues.(bodies := b.queues.bodies[1..]) && Run(c, b'.trace).net == s
            && Digested(c, b'.trace) == Digested(c, b.trace) + FoundBy(s, Planned(st.mode, s, b.queues.bodies[0]))
    ensures EventsOf(ReadNext(h, |BookOf(c, st, h).queues.jobs|, digest)) == EventsOf(h)
    ensures Fair(c, roomy, st, h, Always(digest)) ==>
              Fair(c, roomy, st, ReadNext(h, |BookOf(c, st, h).queues.jobs|, digest), Always(digest))
  {
    var b, h1 := BookOf(c, st, h), Onto(h, TakesBody);
    var n := |b.queues.jobs|;
    var taken := b.queues.jobs + [Planned(st.mode, Run(c, b.trace).net, b.queues.bodies[0])];
    assert BookOf(c, st, h1) == Book(b.trace, b.queues.(bodies := b.queues.bodies[1..], jobs := taken));
    assert Without(taken, n) == b.queues.jobs;
    ReadOutBook(c, st, h1, n, digest);
    if Fair(c, roomy, st, h, Always(digest)) {
      ReadOutIsFair(c, roomy, st, h1, n, digest);
    }
    ReadOutIsNoEvent(h1, n, digest);
  }

  lemma ReadOutIsNoEvent(h: History, n: nat, digest: string)
    ensures EventsOf(ReadOut(h, n, digest)) == EventsOf(h)
  {
    var h2 := Onto(Onto(h, Concludes(n, ReadBody(0, digest), ANY)), Attaches(n));
    assert EventsOf(h2) == EventsOf(h);
  }

  // ---------- what these histories come to ----------

  // What the last event asks for, planned at once, is found if that hop is read in every mode.
  lemma LastIsFound(c: Config, mode: Mode, es: Trace)
    requires es.Then? && es.last.Saw? && AsksLast(c, mode, es)
    ensures var s := Run(c, es).net;
            forall x :: x in FoundBy(s, Planned(mode, s, es.last.e.id)) <==>
                          x.hop in SurelyBy(Run(c, es.before).net, es.last)
  {
    var s, e := Run(c, es.before).net, es.last.e;
    EndSameHashed(c, s, e);
    EndsOnce(c, s, e);
    EventTakesName(c, s, e);
    var k := s.current[e.id];
    forall x: Spot | x.hop == k ensures x in {Spot(k, Body), Spot(k, Name)} {
      assert x.part == Body || x.part == Name;
    }
  }

  lemma ShowAndReadWorks(c: Config, roomy: bool, st: Storage, es: Trace, h: History, digest: string)
    requires es.Then? && es.last.Saw? && EventsOf(h) == es.before && Fair(c, roomy, st, h, Always(digest))
    requires BookOf(c, st, h).queues.bodies == [] && c.maxBodyBytes >= 0
    ensures var b := BookOf(c, st, h);
            var h' := ShowAndRead(c, st, h, es.last, |b.queues.jobs|, digest);
            var b' := BookOf(c, st, h');
            && Fair(c, roomy, st, h', Always(digest)) && EventsOf(h') == es
            && b'.queues.bodies == [] && b'.queues.jobs == b.queues.jobs
            && forall x :: x in Digested(c, b'.trace) <==>
                             x in Digested(c, b.trace) || x.hop in SurelyBy(Run(c, es.before).net, es.last)
  {
    var h1 := Onto(h, Shown(es.last));
    ShowStep(c, st, es, h);
    ShowIsFair(c, roomy, st, es, h, Always(digest));
    SurelyAsks(c, st.mode, es);
    if AsksLast(c, st.mode, es) {
      ReadNextStep(c, roomy, st, h1, digest);
      BookMatches(c, st, h1);
      LastIsFound(c, st.mode, es);
    }
  }

  lemma {:induction false} PromptWorks(c: Config, roomy: bool, st: Storage, es: Trace, p: Trace, h: History,
                                       digest: string)
    requires OnlyEvents(es) && Prefix(p, es) && EventsOf(h) == p && Fair(c, roomy, st, h, Always(digest))
    requires BookOf(c, st, h).queues.bodies == [] && c.maxBodyBytes >= 0
    ensures var b := BookOf(c, st, h);
            var h' := Prompt(c, st, es, p, h, |b.queues.jobs|, digest);
            var b' := BookOf(c, st, h');
            && Fair(c, roomy, st, h', Always(digest)) && EventsOf(h') == es
            && b'.queues.bodies == [] && b'.queues.jobs == b.queues.jobs
            && forall x :: x in Digested(c, b'.trace) <==>
                             x in Digested(c, b.trace) || (x.hop in Surely(c, es) && x.hop !in Surely(c, p))
    decreases es
  {
    if es != p {
      var b := BookOf(c, st, h);
      var h1 := Prompt(c, st, es.before, p, h, |b.queues.jobs|, digest);
      PromptWorks(c, roomy, st, es.before, p, h, digest);
      ShowAndReadWorks(c, roomy, st, es, h1, digest);
      LoadsOnce(c, p, es);
    }
  }

  // A hop loads only once.
  lemma LoadsOnce(c: Config, p: Trace, es: Trace)
    requires es.Then? && Prefix(p, es.before)
    ensures forall k :: k in SurelyBy(Run(c, es.before).net, es.last) ==> k !in Surely(c, p)
  {
    SurelyAre(c, es.before);
    SurelyGrows(c, p, es.before);
  }

  // What is asked for waits, as far as the queue has room.
  lemma {:induction false} PlainWorks(c: Config, roomy: bool, st: Storage, es: Trace, p: Trace, h: History,
                                      oracle: nat -> Mark)
    requires OnlyEvents(es) && Prefix(p, es) && EventsOf(h) == p && Fair(c, roomy, st, h, oracle)
    requires |BookOf(c, st, h).queues.bodies| <= QUEUE_SIZE
    requires roomy ==>
               |BookOf(c, st, h).queues.bodies| + Asked(c, st.mode, es) - Asked(c, st.mode, p) <= QUEUE_SIZE
    ensures var b, h' := BookOf(c, st, h), Plain(es, p, h);
            var b', n := BookOf(c, st, h'), |b.queues.bodies| + Asked(c, st.mode, es) - Asked(c, st.mode, p);
            && Fair(c, roomy, st, h', oracle) && EventsOf(h') == es
            && b'.queues.jobs == b.queues.jobs && Digested(c, b'.trace) == Digested(c, b.trace)
            && b.queues.bodies <= b'.queues.bodies
            && |b'.queues.bodies| == if n <= QUEUE_SIZE then n else QUEUE_SIZE
    decreases es
  {
    if es != p {
      hide BookNext, Fair, AsksLast;
      var h1 := Plain(es.before, p, h);
      PlainWorks(c, roomy, st, es.before, p, h, oracle);
      ShowStep(c, st, es, h1);
      ShowIsFair(c, roomy, st, es, h1, oracle);
    }
  }

  // Some hop that one of these IDs names.
  predicate NamedByOne(s: State, ids: seq<RequestId>, k: nat) {
    exists m :: 0 <= m < |ids| && ids[m] in s.current && s.current[ids[m]] == k
  }

  // The first m bodies of b have been read in b': what the first one names is found, and nothing that
  // none of them names.
  ghost predicate SomeRead(c: Config, st: Storage, b: Book, b': Book, m: nat) {
    && m <= |b.queues.bodies| && b'.queues == b.queues.(bodies := b.queues.bodies[m..])
    && var s, found, found' := Run(c, b.trace).net, Digested(c, b.trace), Digested(c, b'.trace);
       && Run(c, b'.trace).net == s && found <= found'
       && (m > 0 ==> FoundBy(s, Planned(st.mode, s, b.queues.bodies[0])) <= found')
       && forall x :: x in found' ==> x in found || NamedByOne(s, b.queues.bodies, x.hop)
  }

  lemma OneMoreRead(c: Config, st: Storage, b: Book, b1: Book, b2: Book, m: nat)
    requires SomeRead(c, st, b, b1, m) && m < |b.queues.bodies|
    requires b2.queues == b1.queues.(bodies := b1.queues.bodies[1..]) && Run(c, b2.trace).net == Run(c, b1.trace).net
    requires Digested(c, b2.trace)
             == Digested(c, b1.trace)
                + FoundBy(Run(c, b1.trace).net, Planned(st.mode, Run(c, b1.trace).net, b1.queues.bodies[0]))
    ensures SomeRead(c, st, b, b2, m + 1)
  {
    hide NamedByOne, FoundBy, Planned;
    assert b.queues.bodies[m..][1..] == b.queues.bodies[m + 1..] && b.queues.bodies[m..][0] == b.queues.bodies[m];
    FoundIsNamed(st.mode, Run(c, b.trace).net, b.queues.bodies, m);
  }

  lemma FoundIsNamed(mode: Mode, s: State, bodies: seq<RequestId>, m: nat)
    requires m < |bodies|
    ensures forall x :: x in FoundBy(s, Planned(mode, s, bodies[m])) ==> NamedByOne(s, bodies, x.hop)
  {
  }

  lemma {:induction false} ReadSomeWorks(c: Config, roomy: bool, st: Storage, h: History, m: nat, digest: string)
    requires m <= |BookOf(c, st, h).queues.bodies| && Fair(c, roomy, st, h, Always(digest)) && c.maxBodyBytes >= 0
    ensures var b := BookOf(c, st, h);
            var h' := ReadSome(h, m, |b.queues.jobs|, digest);
            && Fair(c, roomy, st, h', Always(digest)) && EventsOf(h') == EventsOf(h)
            && SomeRead(c, st, b, BookOf(c, st, h'), m)
  {
    if m == 0 {
      assert BookOf(c, st, h).queues.bodies[0..] == BookOf(c, st, h).queues.bodies;
    } else {
      hide BookOf, FoundBy, Planned, Fair, ReadNext, SomeRead, EventsOf, Run, Digested;
      var b := BookOf(c, st, h);
      var h1 := ReadSome(h, m - 1, |b.queues.jobs|, digest);
      var b1 := BookOf(c, st, h1);
      ReadSomeWorks(c, roomy, st, h, m - 1, digest);
      ReadNextStep(c, roomy, st, h1, digest);
      OneMoreRead(c, st, b, b1, BookOf(c, st, ReadNext(h1, |b.queues.jobs|, digest)), m - 1);
    }
  }
}
