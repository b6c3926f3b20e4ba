/** Event queues between the reader of a browser connection and the listeners of its tabs. The
    reader pushes and never waits; each listener has a pump that delivers in order. */
module EventTap {
  const MAX_QUEUED := 65536

  datatype Decoding = Known | Unknown | Malformed

  // A protocol message and what decoding it gives.
  datatype Message = Message(id: nat, decoding: Decoding)

  // What the listener's function is called with.
  datatype Call = Event(m: Message) | Undecodable(m: Message) | Dropped(n: nat)

  // The fields guarded by the sink's mutex.
  datatype Sink = Sink(queue: seq<Message>, dropped: nat)

  function PushLocked(s: Sink, m: Message): Sink {
    if |s.queue| >= MAX_QUEUED then s.(dropped := s.dropped + 1) else s.(queue := s.queue + [m])
  }

  class EventSink {
    var queue: seq<Message>
    var dropped: nat

    ghost function Fields(): Sink
      reads this
    {
      Sink(queue, dropped)
    }

    constructor ()
      ensures Fields() == Sink([], 0)
    {
      queue, dropped := [], 0;
    }

    method Push(m: Message)
      modifies this
      ensures Fields() == PushLocked(old(Fields()), m)
    {
      if |queue| >= MAX_QUEUED {
        dropped := dropped + 1;
      } else {
        queue := queue + [m];
      }
    }

    // The pump's critical section: it takes everything at once.
    method TakeAll() returns (batch: seq<Message>, lost: nat)
      modifies this
      ensures Sink(batch, lost) == old(Fields()) && Fields() == Sink([], 0)
    {
      batch, lost := queue, dropped;
      queue, dropped := [], 0;
    }
  }

  type SessionId = string

  /** The queues by tab, and what a message read from the connection does to them. */
  class Tap {
    var sinks: map<SessionId, EventSink>

    // No two tabs share a queue.
    ghost predicate Valid()
      reads this
    {
      forall a, b :: a in sinks && b in sinks && a != b ==> sinks[a] != sinks[b]
    }

    // A second listener for a tab is refused.
    method Listen(session: SessionId) returns (sink: EventSink?)
      requires Valid()
      modifies this
      ensures Valid()
      ensures session in old(sinks) ==> sink == null && sinks == old(sinks)
      ensures session !in old(sinks) ==>
                sink != null && fresh(sink) && sink.Fields() == Sink([], 0) && sinks == old(sinks)[session := sink]
    {
      if session in sinks {
        return null;
      }
      var made := new EventSink();
      sinks := sinks[session := made];
      sink := made;
    }

    // The end of a listener's context removes its own queue, never a later listener's.
    method Forget(session: SessionId, sink: EventSink)
      requires Valid()
      modifies this
      ensures Valid()
      ensures sinks == if session in old(sinks) && old(sinks)[session] == sink then old(sinks) - {session}
                       else old(sinks)
    {
      if session in sinks && sinks[session] == sink {
        sinks := sinks - {session};
      }
    }

    // A message reaches the queue of its own tab and no other.
    method Publish(session: SessionId, m: Message)
      requires Valid()
      modifies set a | a in sinks :: sinks[a]
      ensures Valid() && sinks == old(sinks)
      ensures forall a :: a in sinks ==>
                sinks[a].Fields() == if a == session then PushLocked(old(sinks[a].Fields()), m)
                                     else old(sinks[a].Fields())
    {
      if session in sinks {
        sinks[session].Push(m);
      }
    }
  }

  // ---------- the protocol ----------

  datatype Stage = Swapping | Checking | Delivering | Marking | CallingMarker | Waiting | Ended

  /** The pump: the messages of its batch not yet delivered, how many were lost after them,
      and whether the batch had any. */
  datatype Pump = Pump(at: Stage, batch: seq<Message>, lost: nat, had: bool)

  datatype State = State(
    sink: Sink,
    wake: bool,
    // Pushers that have left the critical section and have not yet tried to send a token.
    signals: nat,
    // Whether the listener's context has ended.
    done: bool,
    pump: Pump,
    calls: seq<Call>,
    // History: every message pushed and whether it was kept, what of it the pump has passed
    // on, and what it let go of because the context had ended.
    pushed: seq<Message>,
    kept: seq<bool>,
    told: seq<Entry>,
    abandoned: seq<Entry>)

  const NEW := State(Sink([], 0), false, 0, false, Pump(Swapping, [], 0, false), [], [], [], [], [])

  datatype Action = Push(m: Message) | Signal | EndContext | PumpStep | PumpQuits

  predicate Enabled(s: State, a: Action) {
    match a
    case Push(_) => true
    case Signal => s.signals > 0
    case EndContext => true
    case PumpStep => s.pump.at != Ended && (s.pump.at == Waiting ==> s.wake)
    // Both select cases may be ready; the runtime picks either.
    case PumpQuits => s.pump.at == Waiting && s.done
  }

  function CallsFor(m: Message): seq<Call> {
    match m.decoding
    case Known => [Event(m)]
    case Unknown => []
    case Malformed => [Undecodable(m)]
  }

  function Apply(s: State, a: Action): State
    requires Enabled(s, a)
  {
    match a
    case Push(m) =>
      s.(sink := PushLocked(s.sink, m), signals := s.signals + 1,
         pushed := s.pushed + [m], kept := s.kept + [|s.sink.queue| < MAX_QUEUED])
    case Signal => s.(wake := true, signals := s.signals - 1)
    case EndContext => s.(done := true)
    case PumpStep => StepPump(s)
    case PumpQuits => s.(pump := s.pump.(at := Ended))
  }

  function StepPump(s: State): State {
    var p := s.pump;
    match p.at
    case Swapping =>
      s.(sink := Sink([], 0), pump := Pump(Checking, s.sink.queue, s.sink.dropped, s.sink.queue != []))
    case Checking =>
      if p.batch == [] then s.(pump := p.(at := Marking))
      else if s.done then
        s.(pump := Pump(Ended, [], 0, p.had), abandoned := s.abandoned + Pending(p.batch, p.lost))
      else s.(pump := p.(at := Delivering))
    case Delivering =>
      if p.batch == [] then s else
      s.(calls := s.calls + CallsFor(p.batch[0]), told := s.told + [Kept(p.batch[0])],
         pump := p.(at := Checking, batch := p.batch[1..]))
    case Marking =>
      if p.lost > 0 && !s.done then s.(pump := p.(at := CallingMarker))
      else if p.had || p.lost > 0 then
        s.(pump := Pump(Swapping, [], 0, false), abandoned := s.abandoned + Pending([], p.lost))
      else s.(pump := p.(at := Waiting))
    case CallingMarker =>
      s.(calls := s.calls + [Dropped(p.lost)], told := s.told + [Gap(p.lost)], pump := Pump(Swapping, [], 0, false))
    case Waiting => s.(wake := false, pump := p.(at := Swapping))
    case Ended => s
  }

  // ---------- what the listener should hear ----------

  // The pushed messages with every maximal run of lost ones replaced by its length.
  datatype Entry = Kept(m: Message) | Gap(n: nat)

  function Story(pushed: seq<Message>, kept: seq<bool>): seq<Entry>
    requires |pushed| == |kept|
  {
    if pushed == [] then [] else
    var n := |pushed| - 1;
    Told(Story(pushed[..n], kept[..n]), pushed[n], kept[n])
  }

  // A story with one more message: a lost one lengthens the gap the story ends with.
  function Told(before: seq<Entry>, m: Message, keep: bool): seq<Entry> {
    if keep then before + [Kept(m)]
    else if before != [] && before[|before| - 1].Gap? then
      before[..|before| - 1] + [Gap(before[|before| - 1].n + 1)]
    else before + [Gap(1)]
  }

  function Pending(batch: seq<Message>, lost: nat): seq<Entry> {
    seq(|batch|, i requires 0 <= i < |batch| => Kept(batch[i])) + (if lost > 0 then [Gap(lost)] else [])
  }

  function Heard(entries: seq<Entry>): seq<Call> {
    if entries == [] then [] else
    var n := |entries| - 1;
    Heard(entries[..n]) + (match entries[n] case Kept(m) => CallsFor(m) case Gap(k) => [Dropped(k)])
  }

  // Which messages an entry stands for, one flag per message.
  function Flags(entries: seq<Entry>): seq<bool> {
    if entries == [] then [] else
    var n := |entries| - 1;
    Flags(entries[..n]) + (match entries[n] case Kept(_) => [true] case Gap(k) => seq(k, _ => false))
  }

  function KeptMessages(pushed: seq<Message>, kept: seq<bool>): seq<Message>
    requires |pushed| == |kept|
  {
    if pushed == [] then [] else
    var n := |pushed| - 1;
    KeptMessages(pushed[..n], kept[..n]) + (if kept[n] then [pushed[n]] else [])
  }

  function Messages(entries: seq<Entry>): seq<Message> {
    if entries == [] then [] else
    var n := |entries| - 1;
    Messages(entries[..n]) + (if entries[n].Kept? then [entries[n].m] else [])
  }

  lemma FlagsSnoc(entries: seq<Entry>, e: Entry)
    ensures Flags(entries + [e]) == Flags(entries) + (match e case Kept(_) => [true] case Gap(k) => seq(k, _ => false))
    ensures Messages(entries + [e]) == Messages(entries) + (if e.Kept? then [e.m] else [])
  {
    assert (entries + [e])[..|entries|] == entries;
  }

  lemma ToldIsExact(before: seq<Entry>, m: Message, keep: bool)
    ensures Flags(Told(before, m, keep)) == Flags(before) + [keep]
    ensures Messages(Told(before, m, keep)) == Messages(before) + (if keep then [m] else [])
  {
    if keep {
      FlagsSnoc(before, Kept(m));
    } else if before != [] && before[|before| - 1].Gap? {
      var front, k := before[..|before| - 1], before[|before| - 1].n;
      assert before == front + [Gap(k)];
      FlagsSnoc(front, Gap(k));
      FlagsSnoc(front, Gap(k + 1));
      assert seq(k + 1, _ => false) == seq(k, _ => false) + [false];
    } else {
      FlagsSnoc(before, Gap(1));
      assert seq(1, _ => false) == [false];
    }
  }

  // No gap is empty, and no two are adjacent.
  predicate GapsAreMaximal(e: seq<Entry>) {
    && (forall i :: 0 <= i < |e| && e[i].Gap? ==> e[i].n > 0)
    && (forall i :: 0 < i < |e| ==> !(e[i - 1].Gap? && e[i].Gap?))
  }

  lemma ToldStaysMaximal(before: seq<Entry>, m: Message, keep: bool)
    requires GapsAreMaximal(before)
    ensures GapsAreMaximal(Told(before, m, keep))
  {
  }

  /** The story tells exactly what was pushed: its kept entries are the kept messages in push
      order, its gaps stand at the lost messages' positions with their exact number, no gap is
      empty and no two gaps are adjacent. */
  lemma {:induction false} StoryIsExact(pushed: seq<Message>, kept: seq<bool>)
    requires |pushed| == |kept|
    ensures Flags(Story(pushed, kept)) == kept
    ensures Messages(Story(pushed, kept)) == KeptMessages(pushed, kept)
    ensures GapsAreMaximal(Story(pushed, kept))
  {
    if pushed != [] {
      var n := |pushed| - 1;
      StoryIsExact(pushed[..n], kept[..n]);
      ToldIsExact(Story(pushed[..n], kept[..n]), pushed[n], kept[n]);
      ToldStaysMaximal(Story(pushed[..n], kept[..n]), pushed[n], kept[n]);
      assert kept == kept[..n] + [kept[n]];
    }
  }

  // ---------- the invariant ----------

  ghost predicate StageOk(s: State) {
    (s.pump.batch != [] ==> s.pump.had) &&
    match s.pump.at
    case Swapping => s.pump.batch == [] && s.pump.lost == 0
    case Checking => true
    case Delivering => s.pump.batch != [] && s.abandoned == []
    case Marking => s.pump.batch == []
    case CallingMarker => s.pump.batch == [] && s.pump.lost > 0 && s.abandoned == []
    case Waiting => s.pump.batch == [] && s.pump.lost == 0 && !s.pump.had
    case Ended => s.pump.batch == [] && s.pump.lost == 0
  }

  ghost predicate Bounded(s: State) {
    && |s.sink.queue| <= MAX_QUEUED && |s.pump.batch| <= MAX_QUEUED
    && (s.sink.dropped > 0 ==> |s.sink.queue| == MAX_QUEUED)
  }

  // What has been told, let go of, and not yet reached, in push order.
  function Whole(s: State): seq<Entry> {
    s.told + s.abandoned + Pending(s.pump.batch, s.pump.lost) + Pending(s.sink.queue, s.sink.dropped)
  }

  ghost predicate Faithful(s: State) {
    && |s.kept| == |s.pushed|
    && s.calls == Heard(s.told)
    && Story(s.pushed, s.kept) == Whole(s)
  }

  // Whether the pump found nothing in its last swap and is about to wait or waits.
  predicate FoundNothing(p: Pump) {
    (p.at == Checking || p.at == Marking || p.at == Waiting) && p.batch == [] && p.lost == 0 && !p.had
  }

  ghost predicate Awake(s: State) {
    FoundNothing(s.pump) && (s.sink.queue != [] || s.sink.dropped > 0) ==> s.wake || s.signals > 0
  }

  ghost predicate Inv(s: State) {
    && StageOk(s) && Bounded(s) && Faithful(s) && Awake(s)
    && (s.pump.at == Ended ==> s.done)
    && (s.abandoned != [] ==> s.done)
  }

  lemma StartInv()
    ensures Inv(NEW)
  {
  }

  // A push adds to the end of the queue, or to the gap behind a full queue.
  lemma PushExtendsPending(k: Sink, m: Message)
    requires |k.queue| <= MAX_QUEUED && (k.dropped > 0 ==> |k.queue| == MAX_QUEUED)
    ensures var now := PushLocked(k, m);
            Pending(now.queue, now.dropped) == Told(Pending(k.queue, k.dropped), m, |k.queue| < MAX_QUEUED)
    ensures |k.queue| >= MAX_QUEUED ==> Pending(k.queue, k.dropped) != []
  {
    var was := Pending(k.queue, k.dropped);
    if |k.queue| >= MAX_QUEUED {
      assert was[|k.queue| - 1] == Kept(k.queue[|k.queue| - 1]);
      assert was[|was| - 1] == if k.dropped > 0 then Gap(k.dropped) else Kept(k.queue[|k.queue| - 1]);
    }
  }

  lemma StoryMore(pushed: seq<Message>, kept: seq<bool>, m: Message, keep: bool)
    requires |pushed| == |kept|
    ensures Story(pushed + [m], kept + [keep]) == Told(Story(pushed, kept), m, keep)
  {
    assert (pushed + [m])[..|pushed|] == pushed && (kept + [keep])[..|kept|] == kept;
  }

  // Only the end of a story matters for what it becomes.
  lemma ToldAtEnd(front: seq<Entry>, was: seq<Entry>, m: Message, keep: bool)
    requires keep || was != []
    ensures Told(front + was, m, keep) == front + Told(was, m, keep)
  {
    if !keep {
      assert (front + was)[|front + was| - 1] == was[|was| - 1];
      assert (front + was)[..|front + was| - 1] == front + was[..|was| - 1];
    }
  }

  lemma PushIsFaithful(s: State, m: Message)
    requires Bounded(s) && Faithful(s)
    ensures Faithful(Apply(s, Push(m)))
  {
    var keep := |s.sink.queue| < MAX_QUEUED;
    var front, was := s.told + s.abandoned + Pending(s.pump.batch, s.pump.lost), Pending(s.sink.queue, s.sink.dropped);
    PushExtendsPending(s.sink, m);
    StoryMore(s.pushed, s.kept, m, keep);
    ToldAtEnd(front, was, m, keep);
  }

  lemma HeardSnoc(entries: seq<Entry>, e: Entry)
    ensures Heard(entries + [e]) == Heard(entries) + (match e case Kept(m) => CallsFor(m) case Gap(k) => [Dropped(k)])
  {
    assert (entries + [e])[..|entries|] == entries;
  }

  lemma Deliver(told: seq<Entry>, x: Entry, rest: seq<Entry>, tail: seq<Entry>)
    ensures told + [] + ([x] + rest) + tail == told + [x] + [] + rest + tail
  {
  }

  lemma Abandon(told: seq<Entry>, gone: seq<Entry>, rest: seq<Entry>, tail: seq<Entry>)
    ensures told + gone + rest + tail == told + (gone + rest) + [] + tail
  {
  }

  lemma PendingHead(batch: seq<Message>, lost: nat)
    requires batch != []
    ensures Pending(batch, lost) == [Kept(batch[0])] + Pending(batch[1..], lost)
  {
  }

  lemma PumpKeepsWhole(s: State)
    requires StageOk(s) && Enabled(s, PumpStep)
    ensures Whole(StepPump(s)) == Whole(s)
  {
    var p := s.pump;
    var tail := Pending(s.sink.queue, s.sink.dropped);
    assert Pending([], 0) == [];
    match p.at {
      case Checking => Abandon(s.told, s.abandoned, Pending(p.batch, p.lost), tail);
      case Delivering =>
        PendingHead(p.batch, p.lost);
        Deliver(s.told, Kept(p.batch[0]), Pending(p.batch[1..], p.lost), tail);
      case Marking => Abandon(s.told, s.abandoned, Pending([], p.lost), tail);
      case CallingMarker => Deliver(s.told, Gap(p.lost), [], tail);
      case _ =>
    }
  }

  lemma PumpCallsWhatItTells(s: State)
    requires s.calls == Heard(s.told) && Enabled(s, PumpStep)
    ensures StepPump(s).calls == Heard(StepPump(s).told)
  {
    if s.pump.at == Delivering && s.pump.batch != [] {
      HeardSnoc(s.told, Kept(s.pump.batch[0]));
    } else if s.pump.at == CallingMarker {
      HeardSnoc(s.told, Gap(s.pump.lost));
    }
  }

  lemma StageStays(s: State, a: Action)
    requires Inv(s) && Enabled(s, a)
    ensures var s' := Apply(s, a);
            StageOk(s') && (s'.pump.at == Ended ==> s'.done) && (s'.abandoned != [] ==> s'.done)
  {
    hide Faithful, Awake, Bounded;
  }

  lemma BoundsStay(s: State, a: Action)
    requires Inv(s) && Enabled(s, a)
    ensures Bounded(Apply(s, a))
  {
    hide Faithful, Awake;
  }

  lemma WakeStays(s: State, a: Action)
    requires Inv(s) && Enabled(s, a)
    ensures Awake(Apply(s, a))
  {
    hide Faithful, Bounded;
  }

  lemma StepInv(s: State, a: Action)
    requires Inv(s) && Enabled(s, a)
    ensures Inv(Apply(s, a))
  {
    StageStays(s, a);
    BoundsStay(s, a);
    WakeStays(s, a);
    match a
    case Push(m) => PushIsFaithful(s, m);
    case PumpStep =>
      PumpKeepsWhole(s);
      PumpCallsWhatItTells(s);
    case _ =>
  }

  // ---------- runs ----------

  // Any interleaving of pushers, the pump and the end of the context.
  ghost predicate Legal(run: seq<Action>)
    decreases |run|, 0
  {
    run != [] ==>
      Legal(run[..|run| - 1]) && Enabled(After(run[..|run| - 1]), run[|run| - 1])
  }

  ghost function After(run: seq<Action>): State
    requires Legal(run)
    decreases |run|, 1
  {
    if run == [] then NEW else Apply(After(run[..|run| - 1]), run[|run| - 1])
  }

  function Pushes(run: seq<Action>): seq<Message> {
    if run == [] then [] else
    var last := run[|run| - 1];
    Pushes(run[..|run| - 1]) + (if last.Push? then [last.m] else [])
  }

  lemma {:induction false} Reachable(run: seq<Action>)
    requires Legal(run)
    ensures Inv(After(run)) && After(run).pushed == Pushes(run)
  {
    if run == [] {
      StartInv();
    } else {
      Reachable(run[..|run| - 1]);
      StepInv(After(run[..|run| - 1]), run[|run| - 1]);
    }
  }

  /** Delivery is in push order with exact gaps: what the listener has been called with is a
      prefix of the story of everything pushed, with nothing left out but kept messages this
      build cannot know. */
  lemma DeliveryIsFaithful(run: seq<Action>)
    requires Legal(run)
    ensures var s := After(run);
            && |s.kept| == |s.pushed| && s.pushed == Pushes(run)
            && s.told <= Story(s.pushed, s.kept)
            && s.calls == Heard(s.told)
  {
    Reachable(run);
    ToldIsPrefix(After(run));
  }

  lemma ToldIsPrefix(s: State)
    ensures s.told <= Whole(s)
  {
  }

  /** Once the pump waits with no token left and no pusher on its way to send one, and the
      context has not ended, the listener has heard the whole story. */
  lemma QuietMeansAllTold(run: seq<Action>)
    requires Legal(run)
    requires var s := After(run); s.pump.at == Waiting && !s.wake && s.signals == 0 && !s.done
    ensures var s := After(run);
            && |s.kept| == |s.pushed| && s.sink == Sink([], 0)
            && s.calls == Heard(Story(s.pushed, s.kept))
  {
    Reachable(run);
    assert Pending([], 0) == [] && Whole(After(run)) == After(run).told;
  }

  /** No wakeup is lost: a pump that waits while something is queued or counted as dropped has
      a token to take, or some pusher is about to leave one. */
  lemma NoLostWakeup(run: seq<Action>)
    requires Legal(run)
    requires var s := After(run); s.pump.at == Waiting && s.sink != Sink([], 0)
    ensures Enabled(After(run), PumpStep) || Enabled(After(run), Signal)
  {
    Reachable(run);
  }

  lemma MemoryIsBounded(run: seq<Action>)
    requires Legal(run)
    ensures |After(run).sink.queue| <= MAX_QUEUED
    ensures |After(run).sink.queue| + |After(run).pump.batch| <= 2 * MAX_QUEUED
  {
    Reachable(run);
  }

  /** Nothing is called once the context's end has been noticed, and no step takes back a call. */
  lemma CallsOnlyGrow(run: seq<Action>, a: Action)
    requires Legal(run + [a])
    ensures Legal(run) && After(run).calls <= After(run + [a]).calls
    ensures After(run).abandoned != [] || After(run).pump.at == Ended ==> After(run + [a]).calls == After(run).calls
  {
    assert (run + [a])[..|run|] == run;
    Reachable(run);
  }
}
