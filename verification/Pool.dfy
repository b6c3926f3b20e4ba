/** The browser pool protocol: a slot semaphore, an idle stack, a live counter and a
    generation counter, used by concurrent Acquire, put, Switch, Close and probe calls.

    The pool drops its lock between decisions, so the protocol is an action system: each
    call is a thread with a program counter, every action is one locked section, one
    channel operation or one step outside the lock, and actions of different threads
    interleave freely. */
module BrowserPool {
  type BrowserId = nat
  type ThreadId = nat

  // What a browser is launched from: the container launcher and the identity it carries.
  datatype Source = Source(launcher: nat, identity: nat)

  datatype Options = Options(source: Source, noContexts: bool)

  // The fields guarded by the pool's mutex.
  datatype Shared = Shared(
    idle: seq<BrowserId>, live: int, closed: bool, generation: nat, options: Options, maxScans: int)

  datatype Browser = Browser(generation: nat, options: Options, dead: bool, scans: nat, closed: bool)

  // ---------- the locked sections ----------

  datatype Taken = PoolClosed | Nothing | Candidate(b: BrowserId)

  function TakeLocked(p: Shared): (Shared, Taken) {
    if p.closed then (p, PoolClosed)
    else if |p.idle| == 0 then (p, Nothing)
    else (p.(idle := p.idle[..|p.idle| - 1]), Candidate(p.idle[|p.idle| - 1]))
  }

  // Whether the launched browser was registered.
  function RegisterLocked(p: Shared): (Shared, bool) {
    if p.closed then (p, false) else (p.(live := p.live + 1), true)
  }

  // Whether the returned browser was kept.
  function PutLocked(p: Shared, b: BrowserId, dead: bool, generation: nat): (Shared, bool) {
    if p.closed || dead || generation != p.generation then (p, false)
    else (p.(idle := p.idle + [b]), true)
  }

  function CountDownLocked(p: Shared): Shared { p.(live := p.live - 1) }

  function SwitchLocked(p: Shared, to: Source): (Shared, seq<BrowserId>) {
    (p.(options := p.options.(source := to), generation := p.generation + 1, idle := []), p.idle)
  }

  function IsolateLocked(p: Shared): Shared {
    p.(options := p.options.(noContexts := true), maxScans := 1)
  }

  // Whether this call is the one that closes the pool.
  function CloseLocked(p: Shared): (Shared, bool) { (p.(closed := true), !p.closed) }

  function TakeAllLocked(p: Shared): (Shared, seq<BrowserId>) { (p.(idle := []), p.idle) }

  function NewShared(options: Options, maxScans: int): Shared {
    Shared([], 0, false, 0, options, if options.noContexts then 1 else maxScans)
  }

  /** The pool object. Each method is one section run under the mutex. */
  class Pool {
    var idle: seq<BrowserId>
    var live: int
    var closed: bool
    var generation: nat
    var options: Options
    var maxScans: int

    ghost function Fields(): Shared
      reads this
    {
      Shared(idle, live, closed, generation, options, maxScans)
    }

    constructor (launch: Options, maxScansPerBrowser: int)
      ensures Fields() == NewShared(launch, maxScansPerBrowser)
    {
      idle, live, closed, generation, options := [], 0, false, 0, launch;
      maxScans := maxScansPerBrowser;
      if launch.noContexts {
        maxScans := 1;
      }
    }

    method Take() returns (taken: Taken)
      modifies this`idle
      ensures (Fields(), taken) == TakeLocked(old(Fields()))
    {
      if closed {
        return PoolClosed;
      }
      taken := Nothing;
      var n := |idle|;
      if n > 0 {
        taken := Candidate(idle[n - 1]);
        idle := idle[..n - 1];
      }
    }

    method Stale(browserGeneration: nat) returns (stale: bool)
      ensures stale <==> browserGeneration != Fields().generation
    {
      stale := browserGeneration != generation;
    }

    method Register() returns (registered: bool)
      modifies this`live
      ensures (Fields(), registered) == RegisterLocked(old(Fields()))
    {
      if closed {
        return false;
      }
      live := live + 1;
      registered := true;
    }

    method Put(b: BrowserId, dead: bool, browserGeneration: nat) returns (kept: bool)
      modifies this`idle
      ensures (Fields(), kept) == PutLocked(old(Fields()), b, dead, browserGeneration)
    {
      if closed {
        kept := false;
      } else if dead || browserGeneration != generation {
        kept := false;
      } else {
        idle := idle + [b];
        kept := true;
      }
    }

    method CountDown()
      modifies this`live
      ensures Fields() == CountDownLocked(old(Fields()))
    {
      live := live - 1;
    }

    method SwitchTo(to: Source) returns (taken: seq<BrowserId>)
      modifies this`options, this`generation, this`idle
      ensures (Fields(), taken) == SwitchLocked(old(Fields()), to)
    {
      options := options.(source := to);
      generation := generation + 1;
      taken := idle;
      idle := [];
    }

    method UseProcessIsolation()
      modifies this`options, this`maxScans
      ensures Fields() == IsolateLocked(old(Fields()))
    {
      options := options.(noContexts := true);
      maxScans := 1;
    }

    method BeginClose() returns (first: bool)
      modifies this`closed
      ensures (Fields(), first) == CloseLocked(old(Fields()))
    {
      if closed {
        return false;
      }
      closed := true;
      first := true;
    }

    method TakeAll() returns (taken: seq<BrowserId>)
      modifies this`idle
      ensures (Fields(), taken) == TakeAllLocked(old(Fields()))
    {
      taken := idle;
      idle := [];
    }
  }

  // ---------- the protocol ----------

  // An Acquire in progress: whether it is a probe's, and the generation when it began.
  datatype Call = Call(probe: bool, since: nat)

  datatype Stage =
    | AcqWait | AcqTake | AcqCheck | AcqLimit | AcqAlive | AcqDrop | AcqFail
    | LaunchRead | Launching | LaunchLock | LaunchRaced
    | Leased | ProbeRefused | ProbeUnanswered
    | PutLock | PutDrop | PutReturn
    | SwitchLoop
    | CloseDrain | CloseLoop | CloseReturned
    | Finished

  /** One call of the pool's API: where it is, the browsers in its care (the one it is
      working on first), whether that one's process is already gone, whether its lease has
      opened a scan, and what it read before launching. */
  datatype Thread = Thread(
    at: Stage, call: Call, hand: seq<BrowserId>, down: bool, scanned: bool, options: Options, generation: nat)

  // Where a browser is, for the proofs: idle, in the care of one thread, or closed and uncounted.
  datatype Place = Idle | With(t: ThreadId) | Gone

  datatype State = State(
    size: nat,
    pool: Shared,
    tokens: int,
    // How many tokens Close has taken.
    drained: nat,
    threads: map<ThreadId, Thread>,
    browsers: map<BrowserId, Browser>,
    // History the proofs refer to; no action's outcome depends on these.
    place: map<BrowserId, Place>,
    counted: set<BrowserId>,
    sources: seq<Source>,
    closer: set<ThreadId>)

  function NewState(size: int, options: Options, maxScans: int): State {
    var n := if size < 1 then 1 else size;
    State(n, NewShared(options, maxScans), n, 0, map[], map[], map[], {}, [options.source], {})
  }

  // The calls a program can make at any time.
  datatype Entry = Acquire | Probe | Switch(to: Source) | Close

  // Actions that judge or use the browser in hand and leave it there.
  datatype Judgement =
    | CheckStale | ReadLimit | CheckAlive(alive: bool) | OpenScan | MarkDead | Release | ProbeFails | IsolateAndRetire

  // Actions that settle what becomes of the browser in hand.
  datatype Settlement = Register | CloseRaced | Put | Shut | Uncount

  // Actions on the slot channel, and the one that gives up waiting for it.
  datatype SlotUse = GetSlot | GiveUp | FailReturnsSlot | ReturnSlot | Drain

  datatype Progress =
    | Take | ReadOptions | LaunchFails | LaunchOk(made: BrowserId) | IsolateUnprobed | SwitchEnd | TakeRest | CloseEnd

  datatype Action = Judge(j: Judgement) | Settle(x: Settlement) | Signal(g: SlotUse) | Proceed(p: Progress)

  // What one action does: the thread, the guarded fields and the tokens afterwards, and what
  // happens to the browsers.
  datatype Effect = Effect(
    thread: Thread, pool: Shared, tokens: int, drained: nat, sources: seq<Source>, closer: set<ThreadId>,
    change: Change)

  function Plain(s: State, th: Thread, change: Change): Effect {
    Effect(th, s.pool, s.tokens, s.drained, s.sources, s.closer, change)
  }

  datatype Change =
    | Untouched
    // The browser is written and moved.
    | Write(b: BrowserId, browser: Browser, place: Place)
    // The browser that was last in the idle stack passes into the thread's care.
    | Pop(b: BrowserId)
    // Every idle browser passes into the care of the acting thread.
    | TakeIdle(bs: seq<BrowserId>)

  function Commit(s: State, t: ThreadId, e: Effect): State {
    var s' := s.(threads := s.threads[t := e.thread], pool := e.pool, tokens := e.tokens, drained := e.drained,
                sources := e.sources, closer := e.closer);
    match e.change
    case Untouched => s'
    case Write(b, browser, place) =>
      s'.(browsers := s.browsers[b := browser],
          place := s.place[b := place],
          counted := if Counts(place, e.thread) then s.counted + {b} else s.counted - {b})
    case Pop(b) => s'.(place := s.place[b := With(t)])
    case TakeIdle(bs) =>
      s'.(place := map b | b in s.place :: if b in bs then With(t) else s.place[b])
  }

  // Whether a browser at this place, in this thread's care if in any, is one the pool counts.
  predicate Counts(place: Place, th: Thread) {
    !place.Gone? && (place.With? ==> !Unregistered(th.at))
  }

  // Launched, but not yet registered with the pool.
  predicate Unregistered(at: Stage) { at == LaunchLock || at == LaunchRaced }

  function Fresh(s: State, at: Stage, probe: bool, hand: seq<BrowserId>): Thread {
    Thread(at, Call(probe, s.pool.generation), hand, false, false, s.pool.options, s.pool.generation)
  }

  function Opening(s: State, t: ThreadId, e: Entry): Effect {
    match e
    case Acquire => Plain(s, Fresh(s, AcqWait, false, []), Untouched)
    case Probe => Plain(s, Fresh(s, if s.pool.options.noContexts then Finished else AcqWait, true, []), Untouched)
    case Switch(to) =>
      var (pool, idle) := SwitchLocked(s.pool, to);
      Plain(s, Fresh(s, SwitchLoop, false, idle).(call := Call(false, pool.generation)), TakeIdle(idle)).(
        pool := pool, sources := s.sources + [to])
    case Close =>
      var (pool, first) := CloseLocked(s.pool);
      Plain(s, Fresh(s, if first then CloseDrain else Finished, false, []), Untouched).(
        pool := pool, closer := if first then {t} else s.closer)
  }

  function Begin(s: State, t: ThreadId, e: Entry): State
    requires t !in s.threads
  {
    Commit(s, t, Opening(s, t, e))
  }

  // closeBrowser is called from these four places, and from nowhere else.
  predicate Disposes(at: Stage) { at == AcqDrop || at == PutDrop || at == SwitchLoop || at == CloseLoop }

  predicate MayJudge(s: State, th: Thread, j: Judgement)
    requires th.hand != [] && th.hand[0] in s.browsers
  {
    var x := s.browsers[th.hand[0]];
    match j
    case CheckStale => th.at == AcqCheck
    case ReadLimit => th.at == AcqLimit
    case CheckAlive(alive) => th.at == AcqAlive && (alive ==> !x.dead)
    // A lease opens at most one scan, and never on a browser known to be dead.
    case OpenScan => th.at == Leased && !th.call.probe && !th.scanned && !x.dead
    case MarkDead => th.at == Leased
    case Release => th.at == Leased
    case ProbeFails => th.at == Leased && th.call.probe
    case IsolateAndRetire => th.at == ProbeRefused
  }

  predicate MaySettle(th: Thread, x: Settlement) {
    match x
    case Register => th.at == LaunchLock
    case CloseRaced => th.at == LaunchRaced
    case Put => th.at == PutLock
    case Shut => Disposes(th.at) && !th.down
    case Uncount => Disposes(th.at) && th.down
  }

  predicate MaySignal(s: State, th: Thread, g: SlotUse) {
    match g
    case GetSlot => th.at == AcqWait && s.tokens > 0
    case GiveUp => th.at == AcqWait
    case FailReturnsSlot => th.at == AcqFail
    case ReturnSlot => th.at == PutReturn
    case Drain => th.at == CloseDrain && s.drained < s.size && s.tokens > 0
  }

  predicate MayProceed(s: State, th: Thread, p: Progress) {
    match p
    case Take => th.at == AcqTake
    case ReadOptions => th.at == LaunchRead
    case LaunchFails => th.at == Launching
    case LaunchOk(made) => th.at == Launching && made !in s.browsers
    case IsolateUnprobed => th.at == ProbeUnanswered
    case SwitchEnd => th.at == SwitchLoop && th.hand == []
    case TakeRest => th.at == CloseDrain && s.drained == s.size
    case CloseEnd => th.at == CloseLoop && th.hand == []
  }

  predicate HasBrowser(s: State, t: ThreadId) {
    t in s.threads && s.threads[t].hand != [] && s.threads[t].hand[0] in s.browsers
  }

  predicate Enabled(s: State, t: ThreadId, a: Action) {
    && t in s.threads
    && match a
       case Judge(j) => HasBrowser(s, t) && MayJudge(s, s.threads[t], j)
       case Settle(x) => HasBrowser(s, t) && MaySettle(s.threads[t], x)
       case Signal(g) => MaySignal(s, s.threads[t], g)
       case Proceed(p) => MayProceed(s, s.threads[t], p)
  }

  function AfterFailure(call: Call): Stage { if call.probe then ProbeUnanswered else Finished }

  // Where closeBrowser returns to.
  function AfterDrop(at: Stage): Stage {
    if at == AcqDrop then AcqTake else if at == PutDrop then PutReturn else at
  }

  function Outcome(s: State, t: ThreadId, a: Action): Effect
    requires Enabled(s, t, a)
  {
    match a
    case Judge(j) => JudgeEffect(s, t, j)
    case Settle(x) => SettleEffect(s, t, x)
    case Signal(g) => SignalEffect(s, t, g)
    case Proceed(p) => ProceedEffect(s, t, p)
  }

  function JudgeEffect(s: State, t: ThreadId, j: Judgement): Effect
    requires HasBrowser(s, t)
  {
    var th := s.threads[t];
    var b := th.hand[0];
    var x := s.browsers[b];
    var same := Plain(s, th, Write(b, x, With(t)));
    match j
    case CheckStale => same.(thread := th.(at := if x.generation != s.pool.generation then AcqDrop else AcqLimit))
    case ReadLimit =>
      same.(thread := th.(at := if s.pool.maxScans > 0 && x.scans >= s.pool.maxScans then AcqDrop else AcqAlive))
    case CheckAlive(alive) =>
      if alive then same.(thread := th.(at := Leased, scanned := false))
      else same.(thread := th.(at := AcqDrop), change := Write(b, x.(dead := true), With(t)))
    case OpenScan =>
      same.(thread := th.(scanned := true), change := Write(b, x.(scans := x.scans + 1), With(t)))
    case MarkDead => same.(change := Write(b, x.(dead := true), With(t)))
    case Release => same.(thread := th.(at := PutLock))
    case ProbeFails => same.(thread := th.(at := ProbeRefused))
    case IsolateAndRetire =>
      same.(thread := th.(at := PutLock), pool := IsolateLocked(s.pool), change := Write(b, x.(dead := true), With(t)))
  }

  function SettleEffect(s: State, t: ThreadId, settlement: Settlement): Effect
    requires HasBrowser(s, t)
  {
    var th := s.threads[t];
    var b := th.hand[0];
    var x := s.browsers[b];
    var same := Plain(s, th, Write(b, x, With(t)));
    match settlement
    case Register =>
      var (pool, registered) := RegisterLocked(s.pool);
      if registered then same.(thread := th.(at := Leased, scanned := false), pool := pool)
      else same.(thread := th.(at := LaunchRaced))
    case CloseRaced =>
      same.(thread := th.(at := AcqFail, hand := []), change := Write(b, x.(closed := true, dead := true), Gone))
    case Put =>
      var (pool, kept) := PutLocked(s.pool, b, x.dead, x.generation);
      if kept then same.(thread := th.(at := PutReturn, hand := []), pool := pool, change := Write(b, x, Idle))
      else same.(thread := th.(at := PutDrop))
    // closeBrowser: the process goes, and then the counter.
    case Shut => same.(thread := th.(down := true), change := Write(b, x.(closed := true, dead := true), With(t)))
    case Uncount =>
      same.(thread := th.(at := AfterDrop(th.at), hand := th.hand[1..], down := false),
            pool := CountDownLocked(s.pool), change := Write(b, x, Gone))
  }

  function SignalEffect(s: State, t: ThreadId, g: SlotUse): Effect
    requires t in s.threads
  {
    var th := s.threads[t];
    var same := Plain(s, th, Untouched);
    match g
    case GetSlot => same.(thread := th.(at := AcqTake), tokens := s.tokens - 1)
    case GiveUp => same.(thread := th.(at := AfterFailure(th.call)))
    case FailReturnsSlot => same.(thread := th.(at := AfterFailure(th.call)), tokens := s.tokens + 1)
    case ReturnSlot => same.(thread := th.(at := Finished), tokens := s.tokens + 1)
    case Drain => same.(tokens := s.tokens - 1, drained := s.drained + 1)
  }

  function ProceedEffect(s: State, t: ThreadId, p: Progress): Effect
    requires t in s.threads
  {
    var th := s.threads[t];
    var same := Plain(s, th, Untouched);
    match p
    case Take =>
      var (pool, taken) := TakeLocked(s.pool);
      (match taken
       case PoolClosed => same.(thread := th.(at := AcqFail))
       case Nothing => same.(thread := th.(at := LaunchRead))
       case Candidate(b) => same.(thread := th.(at := AcqCheck, hand := [b]), pool := pool, change := Pop(b)))
    case ReadOptions =>
      same.(thread := th.(at := Launching, options := s.pool.options, generation := s.pool.generation))
    case LaunchFails => same.(thread := th.(at := AcqFail))
    case LaunchOk(made) =>
      same.(thread := th.(at := LaunchLock, hand := [made]),
            change := Write(made, Browser(th.generation, th.options, false, 0, false), With(t)))
    case IsolateUnprobed => same.(thread := th.(at := Finished), pool := IsolateLocked(s.pool))
    case SwitchEnd => same.(thread := th.(at := Finished))
    case TakeRest =>
      var (pool, idle) := TakeAllLocked(s.pool);
      same.(thread := th.(at := CloseLoop, hand := idle), pool := pool, change := TakeIdle(idle))
    case CloseEnd => same.(thread := th.(at := CloseReturned))
  }

  function Apply(s: State, t: ThreadId, a: Action): State
    requires Enabled(s, t, a)
  {
    Commit(s, t, Outcome(s, t, a))
  }
}
