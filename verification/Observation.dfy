/** What a scan observes of a page's network traffic, as a function of the events alone:
    nothing here knows whether or which bodies are stored. The recorder is proved to compute
    exactly this. */
module Observation {
  import opened Wrappers

  type RequestId = string

  datatype Phase = Pre | Post
  datatype Cap = NoCap | CapRequests | CapBytes

  /** The limits and types that decide what is observed. */
  datatype Config = Config(maxRequests: int, maxBytes: int, hashTypes: set<string>, maxBodyBytes: int)

  /** One request hop, as far as a comparison can see it. */
  datatype Observed = Observed(
    id: RequestId, url: string, verb: string, resourceType: string, beacon: bool, nonNetwork: bool, phase: Phase,
    status: int, redirectTo: string, failed: bool, transferSize: int,
    finished: bool, hashed: bool, observedAt: int)

  datatype State = State(
    records: seq<Observed>,
    // The latest hop of each live request ID.
    current: map<RequestId, nat>,
    inflight: int, totalBytes: int, exceeded: Cap, phase: Phase, idleSignal: bool)

  const NEW := State([], map[], 0, 0, NoCap, Pre, false)

  // The payload of a data: URI: an upper bound of its size, the URL shown when that is over the
  // cap, and what decoding it gives.
  datatype DataUri = NotData | Data(upper: int, capped: string, decoded: Option<Decoded>)
  datatype Decoded = Decoded(sha256: string, size: int, shown: string)

  datatype Event =
    | WillBeSent(
        id: RequestId, url: string, verb: string, kind: string, beacon: bool, redirected: Option<int>,
        data: DataUri, at: int)
    | Response(id: RequestId, kind: string, status: Option<int>)
    | Finished(id: RequestId, length: int)
    | Failed(id: RequestId, kind: string)
    | WebSocket(id: RequestId, url: string, at: int)
    | Interacted

  // ---------- pure helpers of the recorder ----------

  function LowerChar(c: char): char {
    if 'A' <= c <= 'Z' then (c as int + 32) as char else c
  }

  function Lower(s: string): string { seq(|s|, i requires 0 <= i < |s| => LowerChar(s[i])) }

  // An unset type becomes "other", so no type name is ever empty.
  function TypeName(kind: string): (name: string)
    ensures name != ""
  {
    if kind == "" then "other" else Lower(kind)
  }

  predicate StartsWith(s: string, prefix: string) { |prefix| <= |s| && Lower(s[..|prefix|]) == prefix }

  predicate IsNonNetwork(url: string) {
    StartsWith(url, "data:") || StartsWith(url, "blob:") || StartsWith(url, "about:")
    || StartsWith(url, "javascript:") || StartsWith(url, "filesystem:")
  }

  function PlanHash(c: Config, r: Observed): Observed {
    if !r.nonNetwork && r.resourceType in c.hashTypes then r.(hashed := true) else r
  }

  // ---------- events ----------

  // The clamp the recorder applies when a request stops being in flight.
  function InflightDone(s: State): State {
    if s.inflight - 1 <= 0 then s.(inflight := 0, idleSignal := true) else s.(inflight := s.inflight - 1)
  }

  // id names a hop, and that hop is still open.
  predicate Live(s: State, id: RequestId) { id in s.current && s.current[id] < |s.records| }

  predicate Open(s: State, id: RequestId) {
    Live(s, id) && !s.records[s.current[id]].finished
  }

  // The hop ends as r, whatever r says about how.
  function End(s: State, k: nat, r: Observed): State
    requires k < |s.records|
  {
    var s' := s.(records := s.records[k := r.(finished := true)]);
    if r.beacon then s' else InflightDone(s')
  }

  function OnRedirect(s: State, id: RequestId, status: int, to: string): State {
    if Open(s, id) then
      var k := s.current[id];
      End(s, k, s.records[k].(status := status, redirectTo := to))
    else s
  }

  // A payload that was lifted out of the URL, or is over the cap, is not shown in it.
  function ShownUrl(c: Config, url: string, d: DataUri): string {
    if d.NotData? then url
    else if d.upper > c.maxBodyBytes then d.capped
    else if d.decoded.Some? then d.decoded.value.shown
    else url
  }

  function NewRequest(c: Config, phase: Phase, e: Event): Observed
    requires e.WillBeSent?
  {
    PlanHash(c, Observed(e.id, ShownUrl(c, e.url, e.data), e.verb, TypeName(e.kind), e.beacon, IsNonNetwork(e.url),
                         phase, 0, "", false, 0, false, false, e.at))
  }

  function Admit(c: Config, s: State, e: Event): State
    requires e.WillBeSent?
  {
    if s.exceeded != NoCap then s
    else if |s.records| >= c.maxRequests then s.(exceeded := CapRequests)
    else
      s.(records := s.records + [NewRequest(c, s.phase, e)],
         current := s.current[e.id := |s.records|],
         inflight := if e.beacon then s.inflight else s.inflight + 1)
  }

  // A redirect ends the previous hop of its ID before the next one is admitted.
  function AfterRedirect(s: State, e: Event): State
    requires e.WillBeSent?
  {
    if e.redirected.Some? then OnRedirect(s, e.id, e.redirected.value, e.url) else s
  }

  function OnWillBeSent(c: Config, s: State, e: Event): State
    requires e.WillBeSent?
  {
    Admit(c, AfterRedirect(s, e), e)
  }

  function OnResponse(c: Config, s: State, e: Event): State
    requires e.Response?
  {
    if Live(s, e.id) then
      var k := s.current[e.id];
      var r := PlanHash(c, s.records[k].(resourceType := TypeName(e.kind)));
      s.(records := s.records[k := if e.status.Some? then r.(status := e.status.value) else r])
    else s
  }

  function OnFinished(c: Config, s: State, e: Event): State
    requires e.Finished?
  {
    if Open(s, e.id) then
      var k := s.current[e.id];
      var total := s.totalBytes + e.length;
      var s' := s.(totalBytes := total,
                   exceeded := if c.maxBytes > 0 && total > c.maxBytes && s.exceeded == NoCap then CapBytes
                               else s.exceeded);
      End(s', k, s.records[k].(transferSize := e.length))
    else s
  }

  function OnFailed(s: State, e: Event): State
    requires e.Failed?
  {
    if Open(s, e.id) then
      var k := s.current[e.id];
      End(s, k, s.records[k].(failed := true, resourceType := TypeName(e.kind)))
    else s
  }

  function OnWebSocket(c: Config, s: State, e: Event): State
    requires e.WebSocket?
  {
    if s.exceeded != NoCap || |s.records| >= c.maxRequests then
      if s.exceeded == NoCap then s.(exceeded := CapRequests) else s
    else
      s.(records := s.records + [Observed(e.id, e.url, "GET", "websocket", false, false, s.phase, 0, "", false, 0,
                                          true, false, e.at)])
  }

  function Observe(c: Config, s: State, e: Event): State {
    match e
    case WillBeSent(_, _, _, _, _, _, _, _) => OnWillBeSent(c, s, e)
    case Response(_, _, _) => OnResponse(c, s, e)
    case Finished(_, _) => OnFinished(c, s, e)
    case Failed(_, _) => OnFailed(s, e)
    case WebSocket(_, _, _) => OnWebSocket(c, s, e)
    case Interacted => s.(phase := Post)
  }

  // ---------- counters agree with a recount ----------

  predicate Counts(r: Observed) { !r.finished && !r.beacon }

  function Unfinished(records: seq<Observed>): nat {
    if records == [] then 0 else
    Unfinished(records[..|records| - 1]) + One(Counts(records[|records| - 1]))
  }

  function Transferred(records: seq<Observed>): int {
    if records == [] then 0 else
    Transferred(records[..|records| - 1]) + records[|records| - 1].transferSize
  }

  predicate Agrees(c: Config, s: State) {
    && s.inflight == Unfinished(s.records)
    && s.totalBytes == Transferred(s.records)
    && |s.records| <= (if c.maxRequests < 0 then 0 else c.maxRequests)
    && (forall id :: id in s.current ==> s.current[id] < |s.records|)
    && (forall i :: 0 <= i < |s.records| && !s.records[i].finished ==> s.records[i].transferSize == 0)
  }

  lemma {:induction false} Recount(records: seq<Observed>, k: nat, r: Observed)
    requires k < |records|
    ensures Unfinished(records[k := r]) == Unfinished(records) - One(Counts(records[k])) + One(Counts(r))
    ensures Transferred(records[k := r]) == Transferred(records) - records[k].transferSize + r.transferSize
  {
    var n := |records| - 1;
    var changed := records[k := r];
    if k == n {
      assert changed[..n] == records[..n];
    } else {
      assert changed[..n] == records[..n][k := r];
      Recount(records[..n], k, r);
    }
  }

  lemma RecountMore(records: seq<Observed>, r: Observed)
    ensures Unfinished(records + [r]) == Unfinished(records) + One(Counts(r))
    ensures Transferred(records + [r]) == Transferred(records) + r.transferSize
  {
    assert (records + [r])[..|records|] == records;
  }

  /** A request that ends is one the recount counts, so the clamp at zero never applies. */
  lemma {:induction false} OpenIsCounted(records: seq<Observed>, k: nat)
    requires k < |records| && Counts(records[k])
    ensures Unfinished(records) >= 1
  {
    var n := |records| - 1;
    if k < n {
      assert records[..n][k] == records[k];
      OpenIsCounted(records[..n], k);
    }
  }

  lemma EndAgrees(c: Config, s: State, k: nat, r: Observed)
    requires k < |s.records| && !s.records[k].finished && r.beacon == s.records[k].beacon
    requires s.inflight == Unfinished(s.records)
    requires s.totalBytes == Transferred(s.records) + r.transferSize - s.records[k].transferSize
    ensures var s' := End(s, k, r);
            && s'.inflight == Unfinished(s'.records) && s'.totalBytes == Transferred(s'.records)
            && s'.inflight == s.inflight - One(!r.beacon)
  {
    Recount(s.records, k, r.(finished := true));
    if !r.beacon {
      OpenIsCounted(s.records, k);
    }
  }

  lemma RedirectAgrees(c: Config, s: State, id: RequestId, status: int, to: string)
    requires Agrees(c, s)
    ensures Agrees(c, OnRedirect(s, id, status, to))
  {
    if Open(s, id) {
      var k := s.current[id];
      EndAgrees(c, s, k, s.records[k].(status := status, redirectTo := to));
    }
  }

  lemma AdmitAgrees(c: Config, s: State, e: Event)
    requires Agrees(c, s) && e.WillBeSent?
    ensures Agrees(c, Admit(c, s, e))
  {
    RecountMore(s.records, NewRequest(c, s.phase, e));
  }

  lemma WillBeSentAgrees(c: Config, s: State, e: Event)
    requires Agrees(c, s) && e.WillBeSent?
    ensures Agrees(c, OnWillBeSent(c, s, e))
  {
    if e.redirected.Some? {
      RedirectAgrees(c, s, e.id, e.redirected.value, e.url);
      AdmitAgrees(c, OnRedirect(s, e.id, e.redirected.value, e.url), e);
    } else {
      AdmitAgrees(c, s, e);
    }
  }

  lemma ResponseAgrees(c: Config, s: State, e: Event)
    requires Agrees(c, s) && e.Response?
    ensures Agrees(c, OnResponse(c, s, e))
  {
    if e.id in s.current {
      Recount(s.records, s.current[e.id], OnResponse(c, s, e).records[s.current[e.id]]);
    }
  }

  lemma FinishedAgrees(c: Config, s: State, e: Event)
    requires Agrees(c, s) && e.Finished?
    ensures Agrees(c, OnFinished(c, s, e))
  {
    if Open(s, e.id) {
      var k := s.current[e.id];
      EndAgrees(c, s.(totalBytes := s.totalBytes + e.length), k, s.records[k].(transferSize := e.length));
    }
  }

  lemma FailedAgrees(c: Config, s: State, e: Event)
    requires Agrees(c, s) && e.Failed?
    ensures Agrees(c, OnFailed(s, e))
  {
    if Open(s, e.id) {
      var k := s.current[e.id];
      EndAgrees(c, s, k, s.records[k].(failed := true, resourceType := TypeName(e.kind)));
    }
  }

  lemma WebSocketAgrees(c: Config, s: State, e: Event)
    requires Agrees(c, s) && e.WebSocket?
    ensures Agrees(c, OnWebSocket(c, s, e))
  {
    if |OnWebSocket(c, s, e).records| > |s.records| {
      RecountMore(s.records, OnWebSocket(c, s, e).records[|s.records|]);
    }
  }

  lemma EventAgrees(c: Config, s: State, e: Event)
    requires Agrees(c, s)
    ensures Agrees(c, Observe(c, s, e))
  {
    match e
    case WillBeSent(_, _, _, _, _, _, _, _) => WillBeSentAgrees(c, s, e);
    case Response(_, _, _) => ResponseAgrees(c, s, e);
    case Finished(_, _) => FinishedAgrees(c, s, e);
    case Failed(_, _) => FailedAgrees(c, s, e);
    case WebSocket(_, _, _) => WebSocketAgrees(c, s, e);
    case Interacted =>
  }

  // ---------- what never changes again ----------

  // How a hop ended.
  datatype Ending = Ending(finished: bool, failed: bool, redirectTo: string, transferSize: int)

  function EndingOf(r: Observed): Ending { Ending(r.finished, r.failed, r.redirectTo, r.transferSize) }

  // Identity, phase and start stay as recorded, and so does the ending once there is one.
  predicate Keeps(r: Observed, r': Observed) {
    && r.id == r'.id && r.url == r'.url && r.verb == r'.verb && r.beacon == r'.beacon
    && r.nonNetwork == r'.nonNetwork && r.phase == r'.phase && r.observedAt == r'.observedAt
    && (r.hashed ==> r'.hashed)
    && (r.finished ==> EndingOf(r') == EndingOf(r))
  }

  // No hop is lost or reordered either, and the cap that was hit first stays.
  predicate Extends(s: State, s': State) {
    && |s.records| <= |s'.records|
    && (forall i :: 0 <= i < |s.records| ==> Keeps(s.records[i], s'.records[i]))
    && (s.exceeded != NoCap ==> s'.exceeded == s.exceeded)
    && (s.phase == Post ==> s'.phase == Post)
  }

  lemma ExtendsTransitive(s: State, t: State, u: State)
    requires Extends(s, t) && Extends(t, u)
    ensures Extends(s, u)
  {
    forall i | 0 <= i < |s.records| ensures Keeps(s.records[i], u.records[i]) {
      assert Keeps(s.records[i], t.records[i]) && Keeps(t.records[i], u.records[i]);
    }
  }

  // The hop at k ends as r; on may have counted it already.
  lemma EndExtends(s: State, on: State, k: nat, r: Observed)
    requires k < |s.records| && Keeps(s.records[k], r.(finished := true))
    requires on.records == s.records && on.phase == s.phase && (s.exceeded != NoCap ==> on.exceeded == s.exceeded)
    ensures Extends(s, End(on, k, r))
  {
    assert End(on, k, r).records == s.records[k := r.(finished := true)];
  }

  lemma RedirectExtends(s: State, id: RequestId, status: int, to: string)
    ensures Extends(s, OnRedirect(s, id, status, to))
  {
    if Open(s, id) {
      EndExtends(s, s, s.current[id], s.records[s.current[id]].(status := status, redirectTo := to));
    }
  }

  lemma AdmitExtends(c: Config, s: State, e: Event)
    requires e.WillBeSent?
    ensures Extends(s, Admit(c, s, e))
  {
  }

  lemma WillBeSentExtends(c: Config, s: State, e: Event)
    requires e.WillBeSent?
    ensures Extends(s, OnWillBeSent(c, s, e))
  {
    if e.redirected.Some? {
      var s1 := OnRedirect(s, e.id, e.redirected.value, e.url);
      RedirectExtends(s, e.id, e.redirected.value, e.url);
      AdmitExtends(c, s1, e);
      ExtendsTransitive(s, s1, Admit(c, s1, e));
    } else {
      AdmitExtends(c, s, e);
    }
  }

  lemma FinishedExtends(c: Config, s: State, e: Event)
    requires e.Finished?
    ensures Extends(s, OnFinished(c, s, e))
  {
    if Open(s, e.id) {
      var k := s.current[e.id];
      var total := s.totalBytes + e.length;
      var on := s.(totalBytes := total,
                   exceeded := if c.maxBytes > 0 && total > c.maxBytes && s.exceeded == NoCap then CapBytes
                               else s.exceeded);
      EndExtends(s, on, k, s.records[k].(transferSize := e.length));
    }
  }

  lemma FailedExtends(s: State, e: Event)
    requires e.Failed?
    ensures Extends(s, OnFailed(s, e))
  {
    if Open(s, e.id) {
      EndExtends(s, s, s.current[e.id], s.records[s.current[e.id]].(failed := true, resourceType := TypeName(e.kind)));
    }
  }

  lemma ResponseExtends(c: Config, s: State, e: Event)
    requires e.Response?
    ensures Extends(s, OnResponse(c, s, e))
  {
  }

  lemma WebSocketExtends(c: Config, s: State, e: Event)
    requires e.WebSocket?
    ensures Extends(s, OnWebSocket(c, s, e))
  {
  }

  /** No hop ends twice: once finished, how it ended and what it transferred never change,
      through redirects, reused IDs and late completions. */
  lemma EndsOnce(c: Config, s: State, e: Event)
    ensures Extends(s, Observe(c, s, e))
  {
    hide OnWillBeSent, OnResponse, OnFinished, OnFailed, OnWebSocket;
    match e
    case WillBeSent(_, _, _, _, _, _, _, _) => WillBeSentExtends(c, s, e);
    case Response(_, _, _) => ResponseExtends(c, s, e);
    case Finished(_, _) => FinishedExtends(c, s, e);
    case Failed(_, _) => FailedExtends(s, e);
    case WebSocket(_, _, _) => WebSocketExtends(c, s, e);
    case Interacted =>
  }

  // Requests seen before the interaction come before those seen after it.
  predicate PhasesInOrder(s: State) {
    && (forall i, j :: 0 <= i < j < |s.records| && s.records[i].phase == Post ==> s.records[j].phase == Post)
    && (s.phase == Pre ==> forall i :: 0 <= i < |s.records| ==> s.records[i].phase == Pre)
  }

  // At most one record is added, and it carries the phase in force.
  predicate Adds(s: State, s': State) {
    && |s'.records| <= |s.records| + 1
    && (|s'.records| == |s.records| + 1 ==> s'.records[|s.records|].phase == s.phase)
    && s'.phase == s.phase
  }

  lemma WillBeSentAdds(c: Config, s: State, e: Event)
    requires e.WillBeSent?
    ensures Adds(s, OnWillBeSent(c, s, e))
  {
  }

  lemma EventAdds(c: Config, s: State, e: Event)
    ensures if e.Interacted? then Observe(c, s, e) == s.(phase := Post) else Adds(s, Observe(c, s, e))
  {
    if e.WillBeSent? {
      WillBeSentAdds(c, s, e);
    }
  }

  lemma AddingKeepsOrder(s: State, s': State)
    requires PhasesInOrder(s) && Extends(s, s') && Adds(s, s')
    ensures PhasesInOrder(s')
  {
    assert forall i :: 0 <= i < |s.records| ==> Keeps(s.records[i], s'.records[i]);
  }

  lemma PhasesStayInOrder(c: Config, s: State, e: Event)
    requires PhasesInOrder(s)
    ensures PhasesInOrder(Observe(c, s, e))
  {
    EndsOnce(c, s, e);
    EventAdds(c, s, e);
    if !e.Interacted? {
      AddingKeepsOrder(s, Observe(c, s, e));
    }
  }

  // ---------- digests ----------

  // The digest of a hop's body, and the identifier lifted out of it.
  datatype Mark = Mark(sha256: string, identity: string)

  // Which of the two is written: they are found one after the other.
  datatype Part = Body | Name

  function PartOf(m: Mark, part: Part): string { match part case Body => m.sha256 case Name => m.identity }

  /** A scan: the traffic, and one mark for each record. */
  datatype Scan = Scan(net: State, marks: seq<Mark>)

  // The digest a data: URI's payload gives the request that carries it.
  function DataDigest(c: Config, d: DataUri): string {
    if d.Data? && d.upper <= c.maxBodyBytes && d.decoded.Some? then d.decoded.value.sha256 else ""
  }

  function FirstMark(c: Config, e: Event): Mark {
    Mark(if e.WillBeSent? then DataDigest(c, e.data) else "", "")
  }

  // The scan whose traffic becomes net on e: a record that e added has its first mark.
  function Marked(c: Config, x: Scan, net: State, e: Event): Scan {
    Scan(net, if |net.records| > |x.net.records| then x.marks + [FirstMark(c, e)] else x.marks)
  }

  function OnEvent(c: Config, x: Scan, e: Event): Scan { Marked(c, x, Observe(c, x.net, e), e) }

  // Nothing found changes nothing.
  function PutPart(m: Mark, part: Part, value: string): Mark {
    if value == "" then m else
    match part case Body => m.(sha256 := value) case Name => m.(identity := value)
  }

  // What was found for a body that was planned to be fingerprinted marks the live hop of id.
  function OnRead(x: Scan, id: RequestId, hashed: bool, part: Part, value: string): Scan {
    if hashed && Live(x.net, id) && x.net.current[id] < |x.marks| then
      var k := x.net.current[id];
      x.(marks := x.marks[k := PutPart(x.marks[k], part, value)])
    else x
  }
}
