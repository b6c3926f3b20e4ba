/** What storing bodies does show, each on one page: the very same history - the same events, and the
    same steps of the workers, in the same order - told by a scan that stores nothing and by one
    that stores every body. Both read all they ask for, and they end up observing different things. */
module BodyRaces {
  import opened Wrappers
  import opened Observation
  import opened BodyStorage
  import opened Hops
  import opened Traces
  import opened BodyQueues
  import opened EventLists
  import opened Independence
  import opened Timelines
  import opened Doubts

  const PAGE := Config(2000, 0, {"script"}, 100)
  const STORE_NOTHING := Storage(StoreNone, false, 0, 0, false)
  const STORE_ALL := Storage(StoreAll, false, 0, 100, true)

  ghost predicate ObservedApart(h: History, oracle: nat -> Mark) {
    && ScanOf(PAGE, false, STORE_NOTHING, EventsOf(h), h, oracle)
    && ScanOf(PAGE, false, STORE_ALL, EventsOf(h), h, oracle)
    && Run(PAGE, BookOf(PAGE, STORE_NOTHING, h).trace) != Run(PAGE, BookOf(PAGE, STORE_ALL, h).trace)
  }

  ghost predicate Finds(st: Storage, h: History, k: nat) { Spot(k, Body) in Digested(PAGE, BookOf(PAGE, st, h).trace) }

  // ---------- a request that begins and loads ----------

  function Request(id: RequestId, kind: string): Event { WillBeSent(id, "/", "GET", kind, false, None, NotData, 0) }

  function LoadedAfter(es: Trace, id: RequestId, kind: string): Trace {
    Then(Then(es, Saw(Request(id, kind))), Saw(Finished(id, 1)))
  }

  function Loads(h: History, id: RequestId, kind: string): History {
    Onto(Onto(h, Shown(Saw(Request(id, kind)))), Shown(Saw(Finished(id, 1))))
  }

  // No cap has been hit, nor will the next request hit it.
  predicate Uncapped(es: Trace) {
    Run(PAGE, es).net.exceeded == NoCap && |Run(PAGE, es).net.records| < PAGE.maxRequests
  }

  predicate IsScript(kind: string) { TypeName(kind) == "script" }

  lemma KindsAre()
    ensures IsScript("script") && !IsScript("image") && TypeName("image") != "websocket"
  {
    assert Lower("script") == "script" && Lower("image")[0] == 'i';
  }

  predicate BegunAs(r: Observed, id: RequestId, kind: string) {
    r.id == id && !r.finished && !r.nonNetwork && r.hashed == IsScript(kind)
  }

  lemma BeginsAs(es: Trace, id: RequestId, kind: string, mode: Mode)
    requires Uncapped(es) && (kind == "script" || kind == "image")
    ensures var next, s := Then(es, Saw(Request(id, kind))), Run(PAGE, es).net;
            var s' := Run(PAGE, next).net;
            && s'.exceeded == NoCap && |s'.records| == |s.records| + 1 && s'.current == s.current[id := |s.records|]
            && BegunAs(s'.records[|s.records|], id, kind)
            && WantOf(PAGE, mode, next) == WantOf(PAGE, mode, es) + [mode == StoreAll || IsScript(kind)]
            && !AsksLast(PAGE, mode, next)
  {
    KindsAre();
    assert "/"[..1] == "/" && !IsNonNetwork("/");
  }

  predicate LoadedAs(r: Observed, id: RequestId, kind: string) {
    r.id == id && !r.nonNetwork && r.hashed == IsScript(kind)
  }

  lemma FinishesAs(es: Trace, id: RequestId, mode: Mode)
    requires var s := Run(PAGE, es).net;
             Open(s, id) && s.exceeded == NoCap && |WantOf(PAGE, mode, es)| == |s.records|
    ensures var next, s := Then(es, Saw(Finished(id, 1))), Run(PAGE, es).net;
            var s', k := Run(PAGE, next).net, s.current[id];
            && s'.exceeded == NoCap && |s'.records| == |s.records| && s'.current == s.current
            && s'.records[k] == s.records[k].(transferSize := 1, finished := true)
            && AsksLast(PAGE, mode, next) == WantOf(PAGE, mode, es)[k]
  {
    hide Run;
    assert Run(PAGE, Then(es, Saw(Finished(id, 1)))).net == OnFinished(PAGE, Run(PAGE, es).net, Finished(id, 1)) by {
      TakesFinished(es, id);
    }
  }

  lemma TakesFinished(es: Trace, id: RequestId)
    ensures Run(PAGE, Then(es, Saw(Finished(id, 1)))).net == OnFinished(PAGE, Run(PAGE, es).net, Finished(id, 1))
  {
  }

  // The hop is added, and its body asked for if this mode reads it.
  lemma LoadsAs(es: Trace, id: RequestId, kind: string, mode: Mode)
    requires Uncapped(es) && (kind == "script" || kind == "image")
    ensures var next, s := LoadedAfter(es, id, kind), Run(PAGE, es).net;
            var s' := Run(PAGE, next).net;
            && s'.exceeded == NoCap && |s'.records| == |s.records| + 1 && s'.current == s.current[id := |s.records|]
            && LoadedAs(s'.records[|s.records|], id, kind)
            && AsksLast(PAGE, mode, next) == (mode == StoreAll || IsScript(kind))
  {
    hide Run, IsScript, AsksLast, WantOf;
    BeginsAs(es, id, kind, mode);
    WantedAre(PAGE, mode, es);
    FinishesAs(Then(es, Saw(Request(id, kind))), id, mode);
  }

  lemma LoadsQueued(st: Storage, h: History, id: RequestId, kind: string, oracle: nat -> Mark)
    requires Uncapped(EventsOf(h)) && (kind == "script" || kind == "image") && Fair(PAGE, false, st, h, oracle)
    ensures var h' := Loads(h, id, kind);
            var b, b' := BookOf(PAGE, st, h), BookOf(PAGE, st, h');
            && EventsOf(h') == LoadedAfter(EventsOf(h), id, kind) && Fair(PAGE, false, st, h', oracle)
            && Digested(PAGE, b'.trace) == Digested(PAGE, b.trace) && b'.queues.jobs == b.queues.jobs
            && b'.queues.bodies == if st.mode == StoreAll || IsScript(kind) then Queued(b.queues.bodies, id)
                                   else b.queues.bodies
  {
    hide BookNext, Fair, AsksLast;
    var next := Then(EventsOf(h), Saw(Request(id, kind)));
    var h1 := Onto(h, Shown(next.last));
    BeginsAs(EventsOf(h), id, kind, st.mode);
    LoadsAs(EventsOf(h), id, kind, st.mode);
    ShowStep(PAGE, st, next, h);
    ShowIsFair(PAGE, false, st, next, h, oracle);
    ShowStep(PAGE, st, LoadedAfter(EventsOf(h), id, kind), h1);
    ShowIsFair(PAGE, false, st, LoadedAfter(EventsOf(h), id, kind), h1, oracle);
  }

  // With nothing waiting or in hand, no step of a worker does anything.
  lemma IdleStep(st: Storage, h: History, input: Input, oracle: nat -> Mark)
    requires Drained(BookOf(PAGE, st, h).queues) && Fair(PAGE, false, st, h, oracle)
    requires input.TakesBody? || input.Concludes? || input.Attaches? || input.LooksUp? || input.Names?
    ensures BookOf(PAGE, st, Onto(h, input)) == BookOf(PAGE, st, h) && Fair(PAGE, false, st, Onto(h, input), oracle)
    ensures EventsOf(Onto(h, input)) == EventsOf(h)
  {
  }

  lemma ReadNextIdle(st: Storage, h: History, digest: string)
    requires Drained(BookOf(PAGE, st, h).queues) && Fair(PAGE, false, st, h, Always(digest))
    ensures var h' := ReadNext(h, 0, digest);
            && BookOf(PAGE, st, h') == BookOf(PAGE, st, h) && Fair(PAGE, false, st, h', Always(digest))
            && EventsOf(h') == EventsOf(h)
  {
    hide BookNext, Fair;
    var h1 := Onto(h, TakesBody);
    var h2 := Onto(h1, Concludes(0, ReadBody(0, digest), ANY));
    var h3 := Onto(h2, Attaches(0));
    var h4 := Onto(h3, LooksUp(0, NO_NAME));
    IdleStep(st, h, h1.input, Always(digest));
    IdleStep(st, h1, h2.input, Always(digest));
    IdleStep(st, h2, h3.input, Always(digest));
    IdleStep(st, h3, h4.input, Always(digest));
    IdleStep(st, h4, Names(0), Always(digest));
  }

  // Of the same history, only one scan finds the digest of hop k.
  lemma OneFinds(h: History, k: nat)
    requires var d, es := Always(Unlike(PAGE, EventsOf(h), k)), EventsOf(h);
             ScanOf(PAGE, false, STORE_NOTHING, es, h, d) && ScanOf(PAGE, false, STORE_ALL, es, h, d)
    requires k < |Run(PAGE, EventsOf(h)).net.records| && Finds(STORE_NOTHING, h, k) != Finds(STORE_ALL, h, k)
    ensures ObservedApart(h, Always(Unlike(PAGE, EventsOf(h), k)))
  {
    OnlyOneFound(PAGE, STORE_NOTHING, STORE_ALL, h, h, k);
  }

  // ---------- a response for a hop that has loaded ----------

  // An image loads, and then turns out to be a script.
  function LateScript(): History { Onto(Loads(Begun, "1", "image"), Shown(Saw(Response("1", "script", None)))) }

  lemma TurnsUp(es: Trace)
    requires var s := Run(PAGE, es).net; Live(s, "1") && !s.records[s.current["1"]].nonNetwork
    ensures var s, next := Run(PAGE, es).net, Then(es, Saw(Response("1", "script", None)));
            var s' := Run(PAGE, next).net;
            && s'.current == s.current && Live(s', "1") && s'.records[s.current["1"]].hashed
            && forall mode :: !AsksLast(PAGE, mode, next)
  {
    KindsAre();
  }

  lemma LateScriptLoads(st: Storage, oracle: nat -> Mark)
    requires st == STORE_NOTHING || st == STORE_ALL
    ensures var h := LateScript();
            var b, s := BookOf(PAGE, st, h), Run(PAGE, EventsOf(h)).net;
            && Fair(PAGE, false, st, h, oracle) && Digested(PAGE, b.trace) == {} && b.queues.jobs == []
            && b.queues.bodies == (if st.mode == StoreAll then ["1"] else [])
            && Live(s, "1") && s.current["1"] == 0 && s.records[0].hashed
  {
    hide BookNext, Fair, AsksLast, Observe, WantOf;
    KindsAre();
    BegunIsFair(PAGE, st, oracle);
    var h := Loads(Begun, "1", "image");
    LoadsAs(Start, "1", "image", st.mode);
    LoadsQueued(st, Begun, "1", "image", oracle);
    TurnsUp(EventsOf(h));
    ShowStep(PAGE, st, EventsOf(LateScript()), h);
    ShowIsFair(PAGE, false, st, EventsOf(LateScript()), h, oracle);
  }

  /** A response that makes a hop that has loaded a fingerprinted one shows whether bodies are stored:
      the scan that stores them all has asked for this one already, and finds its digest; the scan
      that stores none never reads it. */
  lemma LateResponseIsObserved()
    ensures exists digest: string :: ObservedApart(ReadNext(LateScript(), 0, digest), Always(digest))
  {
    hide Run, LateScript, ReadNext, BookNext, Fair;
    var d := Unlike(PAGE, EventsOf(LateScript()), 0);
    var h := LateScript();
    LateScriptLoads(STORE_NOTHING, Always(d));
    LateScriptLoads(STORE_ALL, Always(d));
    ReadNextIdle(STORE_NOTHING, h, d);
    ReadNextStep(PAGE, false, STORE_ALL, h, d);
    BookMatches(PAGE, STORE_ALL, h);
    OneFinds(ReadNext(h, 0, d), 0);
  }

  // ---------- an ID that is used again before its body was read ----------

  // An image loads, and then a script; one body is read; the script's ID passes to another image.
  function ReusedId(digest: string): History {
    Onto(ReadNext(Loads(Loads(Begun, "2", "image"), "1", "script"), 0, digest), Shown(Saw(Request("1", "image"))))
  }

  lemma BothLoad(st: Storage, oracle: nat -> Mark)
    requires st == STORE_NOTHING || st == STORE_ALL
    ensures var h := Loads(Loads(Begun, "2", "image"), "1", "script");
            var b, s := BookOf(PAGE, st, h), Run(PAGE, EventsOf(h)).net;
            && Fair(PAGE, false, st, h, oracle) && Digested(PAGE, b.trace) == {} && b.queues.jobs == []
            && b.queues.bodies == (if st.mode == StoreAll then ["2", "1"] else ["1"])
            && |s.records| == 2 && s.current == map["2" := 0, "1" := 1] && Uncapped(EventsOf(h))
            && s.records[1].hashed && !s.records[0].hashed
  {
    hide BookNext, Fair, AsksLast, Observe, WantOf, Uncapped;
    KindsAre();
    BegunIsFair(PAGE, st, oracle);
    StartIsUncapped();
    var h := Loads(Begun, "2", "image");
    var s := Run(PAGE, LoadedAfter(Start, "2", "image")).net;
    LoadsAs(Start, "2", "image", st.mode);
    LoadsQueued(st, Begun, "2", "image", oracle);
    FewAreUncapped(EventsOf(h));
    LoadsAs(EventsOf(h), "1", "script", st.mode);
    LoadsQueued(st, h, "1", "script", oracle);
    FewAreUncapped(LoadedAfter(EventsOf(h), "1", "script"));
    LoadingKeepsHashed(EventsOf(h), "1", "script");
  }

  lemma StartIsUncapped()
    ensures Uncapped(Start) && Run(PAGE, Start).net.records == [] && Run(PAGE, Start).net.current == map[]
    ensures EventsOf(Begun) == Start
  {
  }

  lemma FewAreUncapped(es: Trace)
    requires Run(PAGE, es).net.exceeded == NoCap && |Run(PAGE, es).net.records| < 2000
    ensures Uncapped(es)
  {
  }

  lemma LoadingKeepsHashed(es: Trace, id: RequestId, kind: string)
    ensures SameHashed(Run(PAGE, es).net, Run(PAGE, LoadedAfter(es, id, kind)).net)
  {
    var next := Then(es, Saw(Request(id, kind)));
    HashedStays(PAGE, Run(PAGE, es).net, Request(id, kind));
    HashedStays(PAGE, Run(PAGE, next).net, Finished(id, 1));
  }

  // The ID passes on; the script, found or not, has it no more.
  lemma IdPassesOn(st: Storage, h: History, oracle: nat -> Mark)
    requires var s := Run(PAGE, EventsOf(h)).net; Uncapped(EventsOf(h)) && |s.records| == 2
    requires Fair(PAGE, false, st, h, oracle)
    ensures var h' := Onto(h, Shown(Saw(Request("1", "image"))));
            var b, b', s' := BookOf(PAGE, st, h), BookOf(PAGE, st, h'), Run(PAGE, EventsOf(h')).net;
            && Fair(PAGE, false, st, h', oracle) && b'.queues.bodies == b.queues.bodies
            && b'.queues.jobs == b.queues.jobs && Digested(PAGE, b'.trace) == Digested(PAGE, b.trace)
            && Live(s', "1") && s'.current["1"] == 2 && |s'.records| == 3
  {
    hide BookNext, Fair, AsksLast, Observe, WantOf;
    var next := Then(EventsOf(h), Saw(Request("1", "image")));
    BeginsAs(EventsOf(h), "1", "image", st.mode);
    ShowStep(PAGE, st, next, h);
    ShowIsFair(PAGE, false, st, next, h, oracle);
  }

  // The scan that stores nothing has one body to read, which it reads in time.
  lemma ReadInTime(digest: string)
    ensures var h := ReadNext(ReusedId(digest), 0, digest);
            ScanOf(PAGE, false, STORE_NOTHING, EventsOf(h), h, Always(digest)) && Finds(STORE_NOTHING, h, 1)
            && EventsOf(h) == EventsOf(ReusedId(digest)) && |Run(PAGE, EventsOf(h)).net.records| == 3
  {
    hide BookNext, Fair, Observe, ReadNext, Uncapped;
    var st, h := STORE_NOTHING, Loads(Loads(Begun, "2", "image"), "1", "script");
    BothLoad(st, Always(digest));
    ReadNextStep(PAGE, false, st, h, digest);
    BookMatches(PAGE, st, h);
    IdPassesOn(st, ReadNext(h, 0, digest), Always(digest));
    ReadNextIdle(st, ReusedId(digest), digest);
  }

  // Reading a body that is not, by now, that of a fingerprinted hop k does not find k.
  lemma ReadsAnother(st: Storage, h: History, k: nat, digest: string)
    requires Fair(PAGE, false, st, h, Always(digest)) && !Finds(st, h, k)
    requires BookOf(PAGE, st, h).queues.bodies != [] && BookOf(PAGE, st, h).queues.jobs == []
    requires var s, id := Run(PAGE, EventsOf(h)).net, BookOf(PAGE, st, h).queues.bodies[0];
             !Live(s, id) || s.current[id] != k || !s.records[k].hashed
    ensures var h' := ReadNext(h, 0, digest);
            && Fair(PAGE, false, st, h', Always(digest)) && !Finds(st, h', k) && EventsOf(h') == EventsOf(h)
            && BookOf(PAGE, st, h').queues.bodies == BookOf(PAGE, st, h).queues.bodies[1..]
            && BookOf(PAGE, st, h').queues.jobs == []
  {
    hide BookNext, Fair, ReadNext;
    ReadNextStep(PAGE, false, st, h, digest);
    BookMatches(PAGE, st, h);
  }

  // The other one has the image to read first, and then nothing that is fingerprinted.
  lemma ReadTooLate(digest: string)
    ensures var h := ReadNext(ReusedId(digest), 0, digest);
            ScanOf(PAGE, false, STORE_ALL, EventsOf(h), h, Always(digest)) && !Finds(STORE_ALL, h, 1)
  {
    hide BookNext, Fair, Observe, ReadNext, Uncapped, Run, LoadedAfter;
    var st, h := STORE_ALL, Loads(Loads(Begun, "2", "image"), "1", "script");
    BothLoad(st, Always(digest));
    ReadsAnother(st, h, 1, digest);
    IdPassesOn(st, ReadNext(h, 0, digest), Always(digest));
    ReadsAnother(st, ReusedId(digest), 1, digest);
  }

  /** An ID that is used again before its body was read costs the digest - of the scan that stores every
      body, and so has another one to read first. */
  lemma ReuseIsObserved()
    ensures exists digest: string :: ObservedApart(ReadNext(ReusedId(digest), 0, digest), Always(digest))
  {
    var es := EventsOf(ReusedId(""));
    var d := Unlike(PAGE, es, 1);
    ReadInTime("");
    ReadInTime(d);
    ReadTooLate(d);
    ReadingIsNoEvent(Loads(Loads(Begun, "2", "image"), "1", "script"), "", d);
    OneFinds(ReadNext(ReusedId(d), 0, d), 1);
  }

  lemma ReadingIsNoEvent(h: History, digest: string, digest': string)
    ensures EventsOf(ReadNext(h, 0, digest)) == EventsOf(ReadNext(h, 0, digest'))
  {
    ReadOutIsNoEvent(Onto(h, TakesBody), 0, digest);
    ReadOutIsNoEvent(Onto(h, TakesBody), 0, digest');
  }

  // ---------- a queue that storing fills ----------

  function ImageId(n: nat): RequestId { if n == 0 then "i" else ImageId(n - 1) + "i" }

  lemma {:induction false} ImageIdIs(n: nat)
    ensures |ImageId(n)| == n + 1 && ImageId(n)[0] == 'i'
  {
    if n > 0 {
      ImageIdIs(n - 1);
    }
  }

  // n images load, each under its own ID.
  function Images(n: nat): History { if n == 0 then Begun else Loads(Images(n - 1), ImageId(n - 1), "image") }

  predicate AreImages(ids: seq<RequestId>, n: nat) {
    |ids| == n && forall m :: 0 <= m < n ==> ids[m] == ImageId(m)
  }

  // A scan that has seen n images load, and read none.
  ghost predicate HasImages(st: Storage, h: History, n: nat, oracle: nat -> Mark) {
    var b, s := BookOf(PAGE, st, h), Run(PAGE, EventsOf(h)).net;
    && Fair(PAGE, false, st, h, oracle) && Digested(PAGE, b.trace) == {} && b.queues.jobs == []
    && s.exceeded == NoCap && |s.records| == n
    && if st.mode == StoreAll then AreImages(b.queues.bodies, n) else b.queues.bodies == []
  }

  lemma OneMoreImage(st: Storage, h: History, n: nat, oracle: nat -> Mark)
    requires (st == STORE_NOTHING || st == STORE_ALL) && n < QUEUE_SIZE && HasImages(st, h, n, oracle)
    ensures HasImages(st, Loads(h, ImageId(n), "image"), n + 1, oracle)
  {
    hide BookNext, Fair, AsksLast, Observe, WantOf, Digested, LoadedAfter, Loads, Run, ImageId, LoadedAs, Uncapped;
    KindsAre();
    FewAreUncapped(EventsOf(h));
    LoadsAs(EventsOf(h), ImageId(n), "image", st.mode);
    LoadsQueued(st, h, ImageId(n), "image", oracle);
  }

  lemma {:induction false} ImagesLoad(st: Storage, n: nat, oracle: nat -> Mark)
    requires (st == STORE_NOTHING || st == STORE_ALL) && n <= QUEUE_SIZE
    ensures HasImages(st, Images(n), n, oracle)
  {
    if n == 0 {
      BegunIsFair(PAGE, st, oracle);
      StartIsUncapped();
    } else {
      hide HasImages, Loads;
      ImagesLoad(st, n - 1, oracle);
      OneMoreImage(st, Images(n - 1), n - 1, oracle);
    }
  }

  // As many images as the queue has room for, and then a script.
  function FullQueue(): History { Loads(Images(QUEUE_SIZE), "s", "script") }

  lemma ScriptLoadsLast(st: Storage, oracle: nat -> Mark)
    requires st == STORE_NOTHING || st == STORE_ALL
    ensures var b, s := BookOf(PAGE, st, FullQueue()), Run(PAGE, EventsOf(FullQueue())).net;
            && Fair(PAGE, false, st, FullQueue(), oracle) && Digested(PAGE, b.trace) == {} && b.queues.jobs == []
            && |s.records| == QUEUE_SIZE + 1 && Live(s, "s") && s.current["s"] == QUEUE_SIZE
            && s.records[QUEUE_SIZE].hashed && s.records[QUEUE_SIZE].id == "s"
            && if st.mode == StoreAll then AreImages(b.queues.bodies, QUEUE_SIZE) else b.queues.bodies == ["s"]
  {
    hide BookNext, Fair, AsksLast, Observe, WantOf, Digested, LoadedAfter, Loads, Run, Images, Uncapped;
    KindsAre();
    var h := Images(QUEUE_SIZE);
    ImagesLoad(st, QUEUE_SIZE, oracle);
    FewAreUncapped(EventsOf(h));
    LoadsAs(EventsOf(h), "s", "script", st.mode);
    LoadsQueued(st, h, "s", "script", oracle);
  }

  // No image is the script.
  lemma ImagesAreOthers(es: Trace, ids: seq<RequestId>, n: nat, k: nat)
    requires AreImages(ids, n) && k < |Run(PAGE, es).net.records| && Run(PAGE, es).net.records[k].id == "s"
    ensures !NamedByOne(Run(PAGE, es).net, ids, k)
  {
    TheirNames(PAGE, es);
    forall m | 0 <= m < |ids| && ids[m] in Run(PAGE, es).net.current ensures Run(PAGE, es).net.current[ids[m]] != k {
      ImageIdIs(m);
    }
  }

  // The scan that stores every body has lost the script's.
  lemma ScriptIsLost(digest: string)
    ensures var h := ReadSome(FullQueue(), QUEUE_SIZE, 0, digest);
            ScanOf(PAGE, false, STORE_ALL, EventsOf(FullQueue()), h, Always(digest)) && !Finds(STORE_ALL, h, QUEUE_SIZE)
  {
    hide BookNext, Fair, Run, FullQueue, ReadSome, NamedByOne;
    var st, h := STORE_ALL, FullQueue();
    ScriptLoadsLast(st, Always(digest));
    ReadSomeWorks(PAGE, false, st, h, QUEUE_SIZE, digest);
    BookMatches(PAGE, st, h);
    ImagesAreOthers(EventsOf(h), BookOf(PAGE, st, h).queues.bodies, QUEUE_SIZE, QUEUE_SIZE);
    NotFound(PAGE, st, BookOf(PAGE, st, h), BookOf(PAGE, st, ReadSome(h, QUEUE_SIZE, 0, digest)), QUEUE_SIZE);
  }

  // One that has a single body to read has read it after any number of turns.
  lemma {:induction false} OneIsRead(st: Storage, h: History, m: nat, digest: string)
    requires m > 0 && Fair(PAGE, false, st, h, Always(digest)) && Live(Run(PAGE, EventsOf(h)).net, "s")
    requires BookOf(PAGE, st, h).queues.bodies == ["s"] && BookOf(PAGE, st, h).queues.jobs == []
    requires var s := Run(PAGE, EventsOf(h)).net; s.records[s.current["s"]].hashed
    ensures var h' := ReadSome(h, m, 0, digest);
            ScanOf(PAGE, false, st, EventsOf(h), h', Always(digest))
            && Finds(st, h', Run(PAGE, EventsOf(h)).net.current["s"])
  {
    hide BookNext, Fair, ReadNext, Run;
    if m == 1 {
      BookMatches(PAGE, st, h);
      ReadNextStep(PAGE, false, st, h, digest);
      assert ReadSome(h, 0, 0, digest) == h;
    } else {
      OneIsRead(st, h, m - 1, digest);
      ReadNextIdle(st, ReadSome(h, m - 1, 0, digest), digest);
    }
  }

  /** A queue that storing fills costs a digest that a scan which stores nothing has: as many images as it
      has room for wait in it, and the script's body is not asked for any more. */
  lemma FullQueueIsObserved()
    ensures exists digest: string :: ObservedApart(ReadSome(FullQueue(), QUEUE_SIZE, 0, digest), Always(digest))
  {
    hide Run, FullQueue, ReadSome, BookNext, Fair;
    var d := Unlike(PAGE, EventsOf(FullQueue()), QUEUE_SIZE);
    ScriptIsLost(d);
    ScriptLoadsLast(STORE_NOTHING, Always(d));
    OneIsRead(STORE_NOTHING, FullQueue(), QUEUE_SIZE, d);
    OneFinds(ReadSome(FullQueue(), QUEUE_SIZE, 0, d), QUEUE_SIZE);
  }
}
