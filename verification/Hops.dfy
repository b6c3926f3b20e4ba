/** What becomes of one hop - its observed part, its digest and what is kept of its body - on each
    event and each read, and what it takes for a list of hops to show a scan. */
module Hops {
  import opened Wrappers
  import opened Observation
  import opened BodyStorage

  // The payload of a request, as its event carries it.
  datatype PostField = NoPost | NotIncluded | Included(data: PostData)

  // What storing it at once gave.
  datatype PayloadResult = Unwanted | Fetch | Got(payload: Payload)

  // ---------- the records show the scan ----------

  predicate HopShows(h: Hop, r: Observed, m: Mark) { h.seen == r && h.mark == m && (r.hashed ==> h.kept.wantBody) }

  // The hops are the observed records with their marks, the live ones are the same, and every
  // hop that carries a digest is one whose body is read.
  ghost predicate Shows(hops: seq<Hop>, at: map<RequestId, nat>, x: Scan) {
    && |hops| == |x.net.records| == |x.marks| && at == x.net.current
    && forall i :: 0 <= i < |hops| ==> HopShows(hops[i], x.net.records[i], x.marks[i])
  }

  predicate IsLive(at: map<RequestId, nat>, hops: seq<Hop>, id: RequestId) { id in at && at[id] < |hops| }

  predicate IsOpen(at: map<RequestId, nat>, hops: seq<Hop>, id: RequestId) {
    IsLive(at, hops, id) && !hops[at[id]].seen.finished
  }

  lemma LiveShows(hops: seq<Hop>, at: map<RequestId, nat>, x: Scan, id: RequestId)
    requires Shows(hops, at, x)
    ensures IsOpen(at, hops, id) == Open(x.net, id)
    ensures IsLive(at, hops, id) ==> HopShows(hops[at[id]], x.net.records[at[id]], x.marks[at[id]])
  {
    if IsLive(at, hops, id) {
      assert HopShows(hops[at[id]], x.net.records[at[id]], x.marks[at[id]]);
    }
  }

  lemma ChangeShows(hops: seq<Hop>, at: map<RequestId, nat>, x: Scan, k: nat, h: Hop, x': Scan)
    requires Shows(hops, at, x) && k < |hops|
    requires x'.net.records == x.net.records[k := h.seen] && x'.marks == x.marks[k := h.mark]
    requires x'.net.current == x.net.current && (h.seen.hashed ==> h.kept.wantBody)
    ensures Shows(hops[k := h], at, x')
  {
    forall i | 0 <= i < |hops| ensures HopShows(hops[k := h][i], x'.net.records[i], x'.marks[i]) {
      assert HopShows(hops[i], x.net.records[i], x.marks[i]);
    }
  }

  lemma AddShows(hops: seq<Hop>, at: map<RequestId, nat>, x: Scan, h: Hop, at': map<RequestId, nat>, x': Scan)
    requires Shows(hops, at, x) && HopShows(h, h.seen, h.mark)
    requires x'.net.records == x.net.records + [h.seen] && x'.marks == x.marks + [h.mark] && x'.net.current == at'
    ensures Shows(hops + [h], at', x')
  {
    forall i | 0 <= i < |hops| + 1 ensures HopShows((hops + [h])[i], x'.net.records[i], x'.marks[i]) {
      assert i < |hops| ==> HopShows(hops[i], x.net.records[i], x.marks[i]);
    }
  }

  // ---------- the hop each event leaves ----------

  function PlanHop(c: Config, mode: Mode, h: Hop): Hop {
    Hop(PlanHash(c, h.seen), h.mark, Plan(c, mode, h.seen, h.kept))
  }

  function LoadedHop(h: Hop, length: int): Hop { h.(seen := h.seen.(transferSize := length, finished := true)) }

  // A body that is to be read is queued, or says that the queue was full.
  function QueuedHop(h: Hop, room: bool): Hop {
    if room then h else h.(kept := h.kept.(bodyUnavailable := QueueFull))
  }

  // A payload that still has to be fetched is queued, or says that the queue was full.
  function AskedHop(h: Hop, p: PayloadResult, room: bool): Hop {
    if p.Fetch? && !room then h.(kept := PutPayload(h.kept, NO_PAYLOAD.(unavailable := QueueFull))) else h
  }

  function RedirectedHops(hops: seq<Hop>, at: map<RequestId, nat>, e: Event): seq<Hop>
    requires e.WillBeSent?
  {
    if e.redirected.Some? && IsOpen(at, hops, e.id)
    then hops[at[e.id] := RedirectedHop(hops[at[e.id]], e.redirected.value, e.url)] else hops
  }

  function LoadedHops(hops: seq<Hop>, at: map<RequestId, nat>, e: Event): seq<Hop>
    requires e.Finished?
  {
    if IsOpen(at, hops, e.id) then hops[at[e.id] := LoadedHop(hops[at[e.id]], e.length)] else hops
  }

  // The hop that loads is one whose body is read.
  predicate LoadWanted(hops: seq<Hop>, at: map<RequestId, nat>, e: Event)
    requires e.Finished?
  {
    IsOpen(at, hops, e.id) && hops[at[e.id]].kept.wantBody
  }

  function FailedHop(h: Hop, kind: string): Hop {
    h.(seen := h.seen.(failed := true, resourceType := TypeName(kind), finished := true))
  }

  function RedirectedHop(h: Hop, status: int, to: string): Hop {
    h.(seen := h.seen.(status := status, redirectTo := to, finished := true))
  }

  function RespondedHop(c: Config, mode: Mode, h: Hop, e: Event): Hop
    requires e.Response?
  {
    var h' := PlanHop(c, mode, h.(seen := h.seen.(resourceType := TypeName(e.kind))));
    if e.status.Some? then h'.(seen := h'.seen.(status := e.status.value)) else h'
  }

  function DataKept(c: Config, st: Storage, d: DataUri, sink: SinkResult): Kept {
    if d.NotData? then NOTHING
    else if d.upper > c.maxBodyBytes then NOTHING.(bodyUnavailable := TooLarge(c.maxBodyBytes))
    else if d.decoded.None? then NOTHING
    else NOTHING.(
      bodyRef := if Stores(st.mode) && st.sink && sink.Stored? then sink.ref else "",
      decodedSize := if d.decoded.value.size > 0 then d.decoded.value.size else 0)
  }

  predicate WantsPayload(st: Storage, exceeded: Cap, url: string, post: PostField) {
    !post.NoPost? && !IsNonNetwork(url) && Stores(st.mode) && st.requestBodies && exceeded == NoCap
  }

  // What is charged to the budget when the request begins - whether or not it is recorded.
  function PayloadAsked(st: Storage, exceeded: Cap, url: string, post: PostField): seq<nat> {
    if WantsPayload(st, exceeded, url, post) && post.Included? && PayloadAsks(st, post.data)
    then [post.data.scrubbed] else []
  }

  function PayloadOf(st: Storage, exceeded: Cap, url: string, post: PostField, granted: bool,
                     sink: SinkResult): PayloadResult {
    if !WantsPayload(st, exceeded, url, post) then Unwanted
    else if post.Included? then Got(PayloadOutcome(st, post.data, granted, sink))
    else Fetch
  }

  // The hop of a request that begins.
  function FirstHop(c: Config, st: Storage, phase: Phase, e: Event, dataSink: SinkResult, p: PayloadResult): Hop
    requires e.WillBeSent?
  {
    var k := Plan(c, st.mode, NewRequest(c, phase, e), DataKept(c, st, e.data, dataSink));
    Hop(NewRequest(c, phase, e), FirstMark(c, e),
        if p.Unwanted? then k
        else if p.Got? then PutPayload(k, p.payload)
        else k.(wantPayload := true))
  }

  // ---------- what reading a body shows ----------

  // Chrome gave a body that is not too large.
  predicate Readable(c: Config, read: BodyRead) { read.ReadBody? && read.size <= c.maxBodyBytes }

  function BodyFound(c: Config, read: BodyRead): string { if Readable(c, read) then read.sha256 else "" }

  function MarkedHop(h: Hop, part: Part, value: string): Hop { h.(mark := PutPart(h.mark, part, value)) }

  // Marking the live hop of id is what a read of a fingerprinted body shows.
  lemma MarkIsObserved(hops: seq<Hop>, at: map<RequestId, nat>, x: Scan, id: RequestId, part: Part, value: string)
    requires Shows(hops, at, x)
    ensures if IsLive(at, hops, id)
            then |x.marks| == |hops|
                 && OnRead(x, id, true, part, value)
                    == Scan(x.net, x.marks[at[id] := MarkedHop(hops[at[id]], part, value).mark])
            else OnRead(x, id, true, part, value) == x
  {
    LiveShows(hops, at, x, id);
  }

  function ReadAsks(c: Config, st: Storage, store: bool, read: BodyRead): seq<nat> {
    if BodyAsks(c, st, store, read) then [read.size] else []
  }

  // What Chrome gave for a payload a worker asked for.
  datatype PayloadRead = NoPayload(ended: bool, error: string) | GotPayload(data: PostData)

  function FetchAsks(st: Storage, read: PayloadRead): seq<nat> {
    if read.GotPayload? && PayloadAsks(st, read.data) then [read.data.scrubbed] else []
  }

  function FetchedPayload(st: Storage, read: PayloadRead, granted: bool, sink: SinkResult): Payload {
    match read
    case NoPayload(ended, error) => NO_PAYLOAD.(unavailable := NotReadReason(ended, error))
    case GotPayload(data) => PayloadOutcome(st, data, granted, sink)
  }

  // Saying that the queue was full is attaching a result without a digest.
  lemma QueueFullIsKept(x: Scan, h: Hop, id: RequestId)
    ensures OnRead(x, id, true, Body, "") == x && ReadHop(h, BodyResult("", 0, "", 0, QueueFull)) == QueuedHop(h, false)
  {
    if Live(x.net, id) && x.net.current[id] < |x.marks| {
      assert x.marks[x.net.current[id] := x.marks[x.net.current[id]]] == x.marks;
    }
  }

  lemma FinishShows(hops: seq<Hop>, at: map<RequestId, nat>, x: Scan, mode: Mode, k: nat)
    requires Shows(hops, at, x) && k < |hops|
    ensures Shows(hops[k := FinishHop(mode, hops[k])], at, x)
  {
    assert HopShows(hops[k], x.net.records[k], x.marks[k]);
    ChangeShows(hops, at, x, k, FinishHop(mode, hops[k]), x);
  }

  // ---------- requests that still count towards network idle ----------

  predicate Waits(r: Observed, now: int, stallAfter: int) { Counts(r) && now - r.observedAt < stallAfter }

  function Waiting(records: seq<Observed>, now: int, stallAfter: int): nat {
    if records == [] then 0 else
    Waiting(records[..|records| - 1], now, stallAfter) + One(Waits(records[|records| - 1], now, stallAfter))
  }

  function Active(s: State, now: int, stallAfter: int): int {
    if s.inflight == 0 || stallAfter <= 0 then s.inflight else Waiting(s.records, now, stallAfter)
  }

  /** Neither beacons nor requests that never complete hold the network open: once the newest
      request is stallAfter old nothing is active, and never more than what is in flight. */
  lemma {:induction false} StalledDoNotWait(records: seq<Observed>, now: int, stallAfter: int)
    ensures Waiting(records, now, stallAfter) <= Unfinished(records)
    ensures (forall i :: 0 <= i < |records| && Counts(records[i]) ==> records[i].observedAt + stallAfter <= now)
            <==> Waiting(records, now, stallAfter) == 0
  {
    if records != [] {
      var n := |records| - 1;
      StalledDoNotWait(records[..n], now, stallAfter);
      assert forall i :: 0 <= i < n ==> records[..n][i] == records[i];
    }
  }

  // The last of these requests to the budget was granted.
  predicate GrantedNow(max: int, before: seq<nat>, asked: seq<nat>) { Granted(max, asked) > Granted(max, before) }

  // The recorder's counters, next to its records.
  datatype Tally = Tally(inflight: int, totalBytes: int, exceeded: Cap, phase: Phase, idleSignal: bool)

  function TallyOf(s: State): Tally { Tally(s.inflight, s.totalBytes, s.exceeded, s.phase, s.idleSignal) }

  // Attaches what reading the body of a hop produced.
  function ReadHop(h: Hop, b: BodyResult): Hop {
    Hop(h.seen, PutPart(h.mark, Body, b.digest), PutBody(h.kept, b))
  }

  lemma LoadedShows(c: Config, hops: seq<Hop>, at: map<RequestId, nat>, x: Scan, e: Event)
    requires e.Finished? && Shows(hops, at, x)
    ensures if IsOpen(at, hops, e.id)
            then Open(x.net, e.id) && HopShows(hops[at[e.id]], x.net.records[at[e.id]], x.marks[at[e.id]])
                 && Shows(hops[at[e.id] := LoadedHop(hops[at[e.id]], e.length)], at,
                          Marked(c, x, OnFinished(c, x.net, e), e))
            else Marked(c, x, OnFinished(c, x.net, e), e) == x
  {
    LiveShows(hops, at, x, e.id);
    if IsOpen(at, hops, e.id) {
      ChangeShows(hops, at, x, at[e.id], LoadedHop(hops[at[e.id]], e.length), Marked(c, x, OnFinished(c, x.net, e), e));
    }
  }

  lemma FailedShows(hops: seq<Hop>, at: map<RequestId, nat>, c: Config, x: Scan, e: Event)
    requires e.Failed? && Shows(hops, at, x)
    ensures if IsOpen(at, hops, e.id)
            then Open(x.net, e.id) && HopShows(hops[at[e.id]], x.net.records[at[e.id]], x.marks[at[e.id]])
                 && Shows(hops[at[e.id] := FailedHop(hops[at[e.id]], e.kind)], at, Marked(c, x, OnFailed(x.net, e), e))
            else Marked(c, x, OnFailed(x.net, e), e) == x
  {
    LiveShows(hops, at, x, e.id);
    if IsOpen(at, hops, e.id) {
      ChangeShows(hops, at, x, at[e.id], FailedHop(hops[at[e.id]], e.kind), Marked(c, x, OnFailed(x.net, e), e));
    }
  }

  lemma RespondedShows(hops: seq<Hop>, at: map<RequestId, nat>, c: Config, mode: Mode, x: Scan, e: Event)
    requires e.Response? && Shows(hops, at, x)
    ensures TallyOf(OnResponse(c, x.net, e)) == TallyOf(x.net)
    ensures if IsLive(at, hops, e.id)
            then Shows(hops[at[e.id] := RespondedHop(c, mode, hops[at[e.id]], e)], at,
                       Marked(c, x, OnResponse(c, x.net, e), e))
            else Marked(c, x, OnResponse(c, x.net, e), e) == x
  {
    LiveShows(hops, at, x, e.id);
    if IsLive(at, hops, e.id) {
      ChangeShows(hops, at, x, at[e.id], RespondedHop(c, mode, hops[at[e.id]], e),
                  Marked(c, x, OnResponse(c, x.net, e), e));
    }
  }

  lemma RedirectedShows(hops: seq<Hop>, at: map<RequestId, nat>, x: Scan, id: RequestId, status: int, to: string)
    requires Shows(hops, at, x)
    ensures if IsOpen(at, hops, id)
            then Open(x.net, id) && HopShows(hops[at[id]], x.net.records[at[id]], x.marks[at[id]])
                 && Shows(hops[at[id] := RedirectedHop(hops[at[id]], status, to)], at,
                          Scan(OnRedirect(x.net, id, status, to), x.marks))
            else OnRedirect(x.net, id, status, to) == x.net
    ensures |OnRedirect(x.net, id, status, to).records| == |x.net.records|
  {
    LiveShows(hops, at, x, id);
    if IsOpen(at, hops, id) {
      ChangeShows(hops, at, x, at[id], RedirectedHop(hops[at[id]], status, to),
                  Scan(OnRedirect(x.net, id, status, to), x.marks));
    }
  }

  // Admitting a request appends its hop, when no cap stops it.
  lemma AdmittedShows(hops: seq<Hop>, at: map<RequestId, nat>, c: Config, st: Storage, x: Scan, e: Event,
                      dataSink: SinkResult, p: PayloadResult)
    requires e.WillBeSent? && Shows(hops, at, x)
    ensures var net := Admit(c, x.net, e);
            if x.net.exceeded == NoCap && |hops| < c.maxRequests
            then Shows(hops + [FirstHop(c, st, x.net.phase, e, dataSink, p)], at[e.id := |hops|], Marked(c, x, net, e))
            else Marked(c, x, net, e) == Scan(net, x.marks) && Shows(hops, at, Scan(net, x.marks))
  {
    var net := Admit(c, x.net, e);
    if x.net.exceeded == NoCap && |hops| < c.maxRequests {
      AddShows(hops, at, x, FirstHop(c, st, x.net.phase, e, dataSink, p), at[e.id := |hops|], Marked(c, x, net, e));
    }
  }

  lemma PayloadShows(hops: seq<Hop>, at: map<RequestId, nat>, x: Scan, k: nat, p: Payload)
    requires Shows(hops, at, x) && k < |hops|
    ensures Shows(hops[k := hops[k].(kept := PutPayload(hops[k].kept, p))], at, x)
  {
    assert HopShows(hops[k], x.net.records[k], x.marks[k]);
    ChangeShows(hops, at, x, k, hops[k].(kept := PutPayload(hops[k].kept, p)), x);
  }

  lemma ReplaceLast(hops: seq<Hop>, last: Hop, h: Hop)
    ensures (hops + [last])[|hops|] == last && (hops + [last])[|hops| := h] == hops + [h]
  {
  }

  // No cap stops one more record.
  predicate Admits(c: Config, t: Tally, records: nat) { t.exceeded == NoCap && records < c.maxRequests }

  // ---------- which bodies are read ----------

  // want says of each hop whether its body is read.
  ghost predicate WantShown(hops: seq<Hop>, want: seq<bool>) {
    |hops| == |want| && forall i :: 0 <= i < |hops| ==> hops[i].kept.wantBody == want[i]
  }

  lemma WantMore(hops: seq<Hop>, want: seq<bool>, h: Hop)
    requires WantShown(hops, want)
    ensures WantShown(hops + [h], want + [h.kept.wantBody])
  {
  }

  // The payload of a data: URI is kept with the request that carries it, or is over the cap.
  predicate CarriesItsBody(c: Config, st: Storage, d: DataUri, sink: SinkResult) {
    d.Data? && if d.upper > c.maxBodyBytes then true
               else d.decoded.Some? && st.sink && sink.Stored? && sink.ref != ""
  }
}
