/** The recorder: event handlers that update shared records in place, and the reading of bodies.
    Its ghost state is the scan as observed and what is kept of each hop, and every handler is
    proved to move the observed scan exactly as Observation says, in every body-storage mode. */
module Recorder {
  import opened Wrappers
  import opened Observation
  import opened BodyStorage
  import opened Hops

  class Record {
    var hop: Hop

    constructor (hop: Hop)
      ensures this.hop == hop
    {
      this.hop := hop;
    }
  }

  /** The hops in the order they began, and the latest hop of each request ID: two indexes that
      share the same records. */
  class HopLog {
    var records: seq<Record>
    var current: map<RequestId, Record>

    ghost var hops: seq<Hop>
    ghost var at: map<RequestId, nat>

    ghost predicate Valid()
      reads this, records
    {
      && |records| == |hops| && (forall i, j :: 0 <= i < j < |records| ==> records[i] != records[j])
      && (forall i :: 0 <= i < |records| ==> records[i].hop == hops[i])
      && current.Keys == at.Keys
      && (forall id :: id in current ==> at[id] < |records| && records[at[id]] == current[id])
    }

    constructor ()
      ensures Valid() && hops == [] && at == map[]
    {
      records, current, hops, at := [], map[], [], map[];
    }

    method Get(id: RequestId) returns (h: Option<Hop>)
      requires Valid()
      ensures id in at ==> at[id] < |hops| && h == Some(hops[at[id]])
      ensures id !in at ==> h == None
    {
      if id in current {
        h := Some(current[id].hop);
      } else {
        h := None;
      }
    }

    // Writes through the live record of id.
    method Put(id: RequestId, h: Hop)
      requires Valid() && id in current
      modifies current[id], `hops
      ensures Valid() && old(at[id]) < |old(hops)| && hops == old(hops)[at[id] := h]
    {
      current[id].hop := h;
      hops := hops[at[id] := h];
    }

    method PutAt(i: nat, h: Hop)
      requires Valid() && i < |records|
      modifies records[i], `hops
      ensures Valid() && hops == old(hops)[i := h]
    {
      records[i].hop := h;
      hops := hops[i := h];
    }

    method Add(h: Hop)
      requires Valid()
      modifies `records, `hops
      ensures Valid() && hops == old(hops) + [h]
      ensures fresh(Cells() - old(Cells()))
    {
      var rec := new Record(h);
      records := records + [rec];
      hops := hops + [h];
    }

    ghost function Cells(): set<Record>
      reads this
    {
      set r | r in records
    }

    // The record that id names.
    ghost function Target(id: RequestId): set<Record>
      reads this
    {
      if id in current then {current[id]} else {}
    }

    // Appends a hop as the live one of id.
    method AddLive(id: RequestId, h: Hop)
      requires Valid()
      modifies this
      ensures Valid() && hops == old(hops) + [h] && at == old(at)[id := |old(hops)|]
      ensures fresh(Target(id)) && Cells() == old(Cells()) + Target(id)
    {
      var rec := new Record(h);
      records, current := records + [rec], current[id := rec];
      hops, at := hops + [h], at[id := |hops|];
    }
  }

  method RequestDone(t: Tally) returns (t': Tally)
    ensures t' == if t.inflight - 1 <= 0 then t.(inflight := 0, idleSignal := true)
                  else t.(inflight := t.inflight - 1)
  {
    t' := t.(inflight := t.inflight - 1);
    if t'.inflight <= 0 {
      t' := t'.(inflight := 0, idleSignal := true);
    }
  }

  // The counters when the live hop r of id has ended.
  method CountEnd(t: Tally, r: Observed, ghost s: State, ghost k: nat) returns (t': Tally)
    requires t == TallyOf(s) && k < |s.records| && r.beacon == s.records[k].beacon
    ensures t' == TallyOf(End(s, k, r))
  {
    t' := t;
    if !r.beacon {
      t' := RequestDone(t');
    }
  }

  // The counters when the live hop of e's ID has loaded.
  method CountLoaded(c: Config, t: Tally, r: Observed, e: Event, ghost s: State) returns (t': Tally)
    requires t == TallyOf(s) && e.Finished? && Open(s, e.id) && r.beacon == s.records[s.current[e.id]].beacon
    ensures t' == TallyOf(OnFinished(c, s, e))
  {
    t' := t.(totalBytes := t.totalBytes + e.length);
    if c.maxBytes > 0 && t'.totalBytes > c.maxBytes && t'.exceeded == NoCap {
      t' := t'.(exceeded := CapBytes);
    }
    t' := CountEnd(t', r, s.(totalBytes := t'.totalBytes, exceeded := t'.exceeded), s.current[e.id]);
  }

  method AttachBody(h: Hop, b: BodyResult) returns (h': Hop)
    ensures h' == ReadHop(h, b)
  {
    var mark, kept := h.mark, h.kept;
    if b.unavailable != Given {
      kept := kept.(bodyUnavailable := b.unavailable);
    }
    if b.digest != "" {
      mark := mark.(sha256 := b.digest);
    }
    if b.ref != "" {
      kept := kept.(bodyRef := b.ref, bodyStoredSize := b.storedSize);
    }
    if kept.decodedSize == 0 && b.size > 0 {
      kept := kept.(decodedSize := b.size);
    }
    h' := Hop(h.seen, mark, kept);
  }

  // What is planned for the body of a hop of this type.
  method PlanBody(c: Config, mode: Mode, h: Hop) returns (h': Hop)
    ensures h' == PlanHop(c, mode, h)
  {
    h' := h;
    if h.seen.nonNetwork {
      return;
    }
    if h.seen.resourceType in c.hashTypes {
      h' := h'.(seen := h'.seen.(hashed := true), kept := h'.kept.(wantBody := true));
    }
    if mode == StoreAll && h.seen.resourceType != "websocket" {
      h' := h'.(kept := h'.kept.(wantBody := true));
    }
  }

  // Lifts the payload of a data: URI out of the URL, and stores it.
  method ExtractDataUri(c: Config, st: Storage, url: string, d: DataUri, sink: SinkResult)
    returns (shown: string, sha256: string, kept: Kept)
    ensures shown == ShownUrl(c, url, d) && sha256 == DataDigest(c, d) && kept == DataKept(c, st, d, sink)
  {
    shown, sha256, kept := url, "", NOTHING;
    if d.NotData? {
      return;
    }
    if d.upper > c.maxBodyBytes {
      shown, kept := d.capped, kept.(bodyUnavailable := TooLarge(c.maxBodyBytes));
      return;
    }
    if d.decoded.None? {
      return;
    }
    shown, sha256 := d.decoded.value.shown, d.decoded.value.sha256;
    if d.decoded.value.size > 0 {
      kept := kept.(decodedSize := d.decoded.value.size);
    }
    if Stores(st.mode) && st.sink && sink.Stored? {
      kept := kept.(bodyRef := sink.ref);
    }
  }

  // The hop of a request that begins.
  method NewHop(c: Config, st: Storage, phase: Phase, e: Event, dataSink: SinkResult, p: PayloadResult)
    returns (h: Hop)
    requires e.WillBeSent?
    ensures h == FirstHop(c, st, phase, e, dataSink, p)
  {
    var shown, sha256, kept := ExtractDataUri(c, st, e.url, e.data, dataSink);
    var seen := Observed(e.id, shown, e.verb, TypeName(e.kind), e.beacon, IsNonNetwork(e.url), phase, 0, "",
                         false, 0, false, false, e.at);
    h := PlanBody(c, st.mode, Hop(seen, Mark(sha256, ""), kept));
    if !p.Unwanted? {
      h := h.(kept := h.kept.(wantPayload := true));
      if p.Got? {
        h := h.(kept := h.kept.(payload := p.payload));
      }
    }
  }

  class Recorder {
    const config: Config
    const storage: Storage
    const stallAfter: int

    const log: HopLog
    var tally: Tally
    var budget: Budget
    var bodyWanted: seq<RequestId>
    var payloadWanted: seq<RequestId>

    ghost var scan: Scan
    // Every size the budget was asked for, in order.
    ghost var asked: seq<nat>

    ghost predicate Counted()
      reads `tally, `scan
    {
      tally == TallyOf(scan.net)
    }

    ghost predicate Budgeted()
      reads `budget, `asked
    {
      budget == Reserved(storage.maxScanBytes, asked)
    }

    ghost predicate Valid()
      reads this, log, log.records
    {
      log.Valid() && Shows(log.hops, log.at, scan) && Counted() && Budgeted()
    }

    constructor (config: Config, storage: Storage, stallAfter: int)
      ensures Valid() && fresh(log) && scan == Scan(NEW, []) && asked == [] && bodyWanted == payloadWanted == []
      ensures this.config == config && this.storage == storage && this.stallAfter == stallAfter
    {
      this.config, this.storage, this.stallAfter := config, storage, stallAfter;
      log := new HopLog();
      tally, budget := Tally(0, 0, NoCap, Pre, false), Budget(0, false);
      bodyWanted, payloadWanted, scan, asked := [], [], Scan(NEW, []), [];
    }

    // ---------- the budget ----------

    method ReserveBodyBytes(n: nat) returns (granted: bool)
      requires Valid()
      modifies `budget, `asked
      ensures Valid() && asked == old(asked) + [n]
      ensures granted == GrantedNow(storage.maxScanBytes, old(asked), asked)
    {
      assert (asked + [n])[..|asked|] == asked;
      asked := asked + [n];
      if budget.exhausted {
        return false;
      }
      if storage.maxScanBytes > 0 && budget.stored + n > storage.maxScanBytes {
        budget := budget.(exhausted := true);
        return false;
      }
      budget := budget.(stored := budget.stored + n);
      return true;
    }

    // What is kept of a payload at hand: too large, without a store, over budget, or stored.
    method StorePayload(d: PostData, sink: SinkResult) returns (p: Payload)
      requires Valid()
      modifies `budget, `asked
      ensures Valid() && asked == old(asked) + (if PayloadAsks(storage, d) then [d.scrubbed] else [])
      ensures p == PayloadOutcome(storage, d, GrantedNow(storage.maxScanBytes, old(asked), asked), sink)
    {
      if storage.maxBodyBytes > 0 && d.size > storage.maxBodyBytes {
        return Payload("", "", d.size, TooLarge(storage.maxBodyBytes));
      }
      p := Payload("", d.sha256, d.size, Given);
      if !storage.sink {
        return p.(unavailable := StoreFailed("no artifact store"));
      }
      var granted := ReserveBodyBytes(d.scrubbed);
      if !granted {
        return p.(unavailable := OverBudget);
      }
      if sink.SinkFailed? {
        return p.(unavailable := StoreFailed(sink.error));
      }
      return p.(ref := sink.ref);
    }

    // Stores a request's payload when its event carries it.
    method InlinePayload(url: string, post: PostField, sink: SinkResult) returns (p: PayloadResult)
      requires Valid()
      modifies `budget, `asked
      ensures Valid() && asked == old(asked) + PayloadAsked(storage, tally.exceeded, url, post)
      ensures p == PayloadOf(storage, tally.exceeded, url, post,
                             GrantedNow(storage.maxScanBytes, old(asked), asked), sink)
    {
      if post.NoPost? || IsNonNetwork(url) {
        return Unwanted;
      }
      if !(Stores(storage.mode) && storage.requestBodies && tally.exceeded == NoCap) {
        return Unwanted;
      }
      if post.NotIncluded? {
        return Fetch;
      }
      var stored := StorePayload(post.data, sink);
      return Got(stored);
    }

    // ---------- writing records ----------

    // Writes the live hop of id and the counters; the scan becomes x.
    method Write(id: RequestId, h: Hop, t: Tally, ghost x: Scan)
      requires Valid() && id in log.current && t == TallyOf(x.net)
      requires IsLive(log.at, log.hops, id) && Shows(log.hops[log.at[id] := h], log.at, x)
      modifies `tally, `scan, log`hops, log.current[id]
      ensures Valid() && scan == x && log.hops == old(log.hops)[log.at[id] := h]
    {
      log.Put(id, h);
      tally, scan := t, x;
    }

    // Appends a hop that no ID names.
    method Append(h: Hop, t: Tally, ghost x: Scan)
      requires Valid() && t == TallyOf(x.net) && Shows(log.hops + [h], log.at, x)
      modifies `tally, `scan, log`records, log`hops
      ensures Valid() && scan == x && log.hops == old(log.hops) + [h]
      ensures fresh(log.Cells() - old(log.Cells()))
    {
      tally, scan := t, x;
      log.Add(h);
    }

    // Appends a hop as the live one of id.
    method AppendLive(h: Hop, id: RequestId, t: Tally, ghost x: Scan)
      requires Valid() && t == TallyOf(x.net) && Shows(log.hops + [h], log.at[id := |log.hops|], x)
      modifies `tally, `scan, log
      ensures Valid() && scan == x && log.hops == old(log.hops) + [h] && log.at == old(log.at)[id := |old(log.hops)|]
      ensures fresh(log.Target(id))
      ensures fresh(log.Cells() - old(log.Cells()))
    {
      tally, scan := t, x;
      log.AddLive(id, h);
    }

    // ---------- events ----------

    // Hands the live hop of id to the body workers, or says that their queue is full.
    method AskForBody(id: RequestId)
      requires Valid() && IsLive(log.at, log.hops, id)
      modifies `tally, `scan, `bodyWanted, log`hops, log.Target(id)
      ensures Valid() && scan == old(scan)
      ensures var room := |old(bodyWanted)| < QUEUE_SIZE;
              && log.hops == old(log.hops)[log.at[id] := QueuedHop(old(log.hops)[log.at[id]], room)]
              && bodyWanted == old(bodyWanted) + if room then [id] else []
    {
      if |bodyWanted| < QUEUE_SIZE {
        bodyWanted := bodyWanted + [id];
      } else {
        hide OnRead, ReadHop, QueuedHop, Shows;
        QueueFullIsKept(scan, log.hops[log.at[id]], id);
        SetBody(id, BodyResult("", 0, "", 0, QueueFull));
      }
    }

    // Ends the live hop of e's ID, if it is open, and says whether its body is read.
    method EndLoaded(e: Event) returns (wantBody: bool)
      requires Valid() && e.Finished?
      modifies `tally, `scan, log`hops, log.Target(e.id)
      ensures Valid() && scan == Marked(config, old(scan), OnFinished(config, old(scan).net, e), e)
      ensures log.hops == LoadedHops(old(log.hops), log.at, e) && wantBody == LoadWanted(old(log.hops), log.at, e)
    {
      LoadedShows(config, log.hops, log.at, scan, e);
      var got := log.Get(e.id);
      if got.None? || got.value.seen.finished {
        return false;
      }
      var t := CountLoaded(config, tally, got.value.seen, e, scan.net);
      Write(e.id, LoadedHop(got.value, e.length), t, Marked(config, scan, OnFinished(config, scan.net, e), e));
      return got.value.kept.wantBody;
    }

    /** A request has loaded: its live hop ends, and its body is queued to be read if it is
        wanted, or says that the queue was full. */
    method LoadingFinished(e: Event)
      requires Valid() && e.Finished?
      modifies `tally, `scan, `bodyWanted, log`hops, log.Target(e.id)
      ensures Valid() && scan == Marked(config, old(scan), OnFinished(config, old(scan).net, e), e)
      ensures var loaded := LoadedHops(old(log.hops), log.at, e);
              if LoadWanted(old(log.hops), log.at, e)
              then
                var room := |old(bodyWanted)| < QUEUE_SIZE;
                && log.hops == loaded[log.at[e.id] := QueuedHop(loaded[log.at[e.id]], room)]
                && bodyWanted == old(bodyWanted) + if room then [e.id] else []
              else log.hops == loaded && bodyWanted == old(bodyWanted)
    {
      var wantBody := EndLoaded(e);
      if wantBody {
        AskForBody(e.id);
      }
    }

    method LoadingFailed(e: Event)
      requires Valid() && e.Failed?
      modifies `tally, `scan, log`hops, log.Target(e.id)
      ensures Valid() && scan == Marked(config, old(scan), OnFailed(old(scan).net, e), e)
      ensures log.hops == if !IsOpen(log.at, old(log.hops), e.id) then old(log.hops) else
                          old(log.hops)[log.at[e.id] := FailedHop(old(log.hops)[log.at[e.id]], e.kind)]
    {
      FailedShows(log.hops, log.at, config, scan, e);
      var got := log.Get(e.id);
      if got.None? || got.value.seen.finished {
        return;
      }
      var h := FailedHop(got.value, e.kind);
      var t := CountEnd(tally, h.seen, scan.net, log.at[e.id]);
      Write(e.id, h, t, Marked(config, scan, OnFailed(scan.net, e), e));
    }

    method ResponseReceived(e: Event)
      requires Valid() && e.Response?
      modifies `tally, `scan, log`hops, log.Target(e.id)
      ensures Valid() && scan == Marked(config, old(scan), OnResponse(config, old(scan).net, e), e)
      ensures log.hops == if !IsLive(log.at, old(log.hops), e.id) then old(log.hops) else
                          var h := old(log.hops)[log.at[e.id]];
                          old(log.hops)[log.at[e.id] := RespondedHop(config, storage.mode, h, e)]
    {
      RespondedShows(log.hops, log.at, config, storage.mode, scan, e);
      var got := log.Get(e.id);
      if got.None? {
        return;
      }
      var h := got.value;
      h := PlanBody(config, storage.mode, h.(seen := h.seen.(resourceType := TypeName(e.kind))));
      if e.status.Some? {
        h := h.(seen := h.seen.(status := e.status.value));
      }
      Write(e.id, h, tally, Marked(config, scan, OnResponse(config, scan.net, e), e));
    }

    // A redirect ends the previous hop of its ID.
    method EndRedirected(id: RequestId, status: int, to: string)
      requires Valid()
      modifies `tally, `scan, log`hops, log.Target(id)
      ensures Valid() && scan == Scan(OnRedirect(old(scan).net, id, status, to), old(scan).marks)
      ensures log.hops == if !IsOpen(log.at, old(log.hops), id) then old(log.hops) else
                          old(log.hops)[log.at[id] := RedirectedHop(old(log.hops)[log.at[id]], status, to)]
    {
      RedirectedShows(log.hops, log.at, scan, id, status, to);
      var got := log.Get(id);
      if got.None? || got.value.seen.finished {
        return;
      }
      var h := RedirectedHop(got.value, status, to);
      var t := CountEnd(tally, h.seen, scan.net, log.at[id]);
      Write(id, h, t, Scan(OnRedirect(scan.net, id, status, to), scan.marks));
    }

    // Records a request that begins, unless a cap was reached.
    method AdmitRequest(e: Event, dataSink: SinkResult, p: PayloadResult) returns (admitted: bool)
      requires Valid() && e.WillBeSent?
      modifies `tally, `scan, log
      ensures Valid() && scan == Marked(config, old(scan), Admit(config, old(scan).net, e), e)
      ensures admitted == Admits(config, old(tally), |old(log.hops)|)
      ensures !admitted ==> log.hops == old(log.hops) && log.at == old(log.at)
      ensures admitted ==>
                && log.hops == old(log.hops) + [FirstHop(config, storage, old(tally).phase, e, dataSink, p)]
                && log.at == old(log.at)[e.id := |old(log.hops)|]
      ensures admitted ==> fresh(log.Target(e.id))
      ensures fresh(log.Cells() - old(log.Cells()))
    {
      AdmittedShows(log.hops, log.at, config, storage, scan, e, dataSink, p);
      if tally.exceeded != NoCap {
        return false;
      }
      if |log.records| >= config.maxRequests {
        tally := tally.(exceeded := CapRequests);
        scan := Scan(Admit(config, scan.net, e), scan.marks);
        return false;
      }
      var h := NewHop(config, storage, tally.phase, e, dataSink, p);
      var t := tally;
      // Beacons do not hold the network open.
      if !e.beacon {
        t := t.(inflight := t.inflight + 1);
      }
      AppendLive(h, e.id, t, Marked(config, scan, Admit(config, scan.net, e), e));
      return true;
    }

    // Hands the payload of the live hop of id to the workers, or says that their queue is full.
    method AskForPayload(id: RequestId)
      requires Valid() && IsLive(log.at, log.hops, id)
      modifies `tally, `scan, `payloadWanted, log`hops, log.Target(id)
      ensures Valid() && scan == old(scan)
      ensures var room := |old(payloadWanted)| < QUEUE_SIZE;
              && log.hops == old(log.hops)[log.at[id] := AskedHop(old(log.hops)[log.at[id]], Fetch, room)]
              && payloadWanted == old(payloadWanted) + if room then [id] else []
    {
      if |payloadWanted| < QUEUE_SIZE {
        payloadWanted := payloadWanted + [id];
      } else {
        SetPayload(id, NO_PAYLOAD.(unavailable := QueueFull));
      }
    }

    method FinishRedirected(e: Event)
      requires Valid() && e.WillBeSent?
      modifies `tally, `scan, log`hops, log.Target(e.id)
      ensures Valid() && scan == Scan(AfterRedirect(old(scan).net, e), old(scan).marks)
      ensures log.hops == RedirectedHops(old(log.hops), log.at, e)
      ensures tally.exceeded == old(tally).exceeded && tally.phase == old(tally).phase
    {
      if e.redirected.Some? {
        EndRedirected(e.id, e.redirected.value, e.url);
      }
    }

    method BeginRequest(e: Event, dataSink: SinkResult, p: PayloadResult) returns (admitted: bool)
      requires Valid() && e.WillBeSent?
      modifies `tally, `scan, log, log.Target(e.id)
      ensures Valid() && scan == Marked(config, old(scan), OnWillBeSent(config, old(scan).net, e), e)
      ensures admitted == Admits(config, old(tally), |old(log.hops)|)
      ensures admitted ==> IsLive(log.at, log.hops, e.id) && log.at[e.id] == |old(log.hops)|
      ensures log.hops == RedirectedHops(old(log.hops), old(log.at), e)
                          + if admitted then [FirstHop(config, storage, old(tally).phase, e, dataSink, p)] else []
      ensures admitted ==> fresh(log.Target(e.id))
      ensures fresh(log.Cells() - old(log.Cells()))
    {
      FinishRedirected(e);
      admitted := AdmitRequest(e, dataSink, p);
    }

    // Records a request that begins, and asks for its payload if that is still to be fetched.
    method RecordRequest(e: Event, dataSink: SinkResult, p: PayloadResult)
      requires Valid() && e.WillBeSent?
      modifies `tally, `scan, `payloadWanted, log, log.Target(e.id)
      ensures Valid() && scan == Marked(config, old(scan), OnWillBeSent(config, old(scan).net, e), e)
      ensures var room := |old(payloadWanted)| < QUEUE_SIZE;
              if Admits(config, old(tally), |old(log.hops)|)
              then
                && log.hops == RedirectedHops(old(log.hops), old(log.at), e)
                               + [AskedHop(FirstHop(config, storage, old(tally).phase, e, dataSink, p), p, room)]
                && payloadWanted == old(payloadWanted) + if p.Fetch? && room then [e.id] else []
              else log.hops == RedirectedHops(old(log.hops), old(log.at), e) && payloadWanted == old(payloadWanted)
      ensures |log.hops| == |old(log.hops)| + One(Admits(config, old(tally), |old(log.hops)|))
      ensures fresh(log.Cells() - old(log.Cells()))
    {
      var admitted := BeginRequest(e, dataSink, p);
      if admitted && p.Fetch? {
        ghost var h := FirstHop(config, storage, old(tally).phase, e, dataSink, p);
        ReplaceLast(RedirectedHops(old(log.hops), old(log.at), e), h, AskedHop(h, p, |payloadWanted| < QUEUE_SIZE));
        AskForPayload(e.id);
      }
    }

    /** A request begins: its payload is stored when the event carries it, the redirect that led
        to it ends the previous hop of its ID, and it is recorded unless a cap was reached. */
    method RequestWillBeSent(e: Event, post: PostField, dataSink: SinkResult, sink: SinkResult)
      requires Valid() && e.WillBeSent?
      modifies this, log, log.Target(e.id)
      ensures Valid() && scan == Marked(config, old(scan), OnWillBeSent(config, old(scan).net, e), e)
      ensures asked == old(asked) + PayloadAsked(storage, old(tally).exceeded, e.url, post)
      ensures var p := PayloadOf(storage, old(tally).exceeded, e.url, post,
                                 GrantedNow(storage.maxScanBytes, old(asked), asked), sink);
              var room := |old(payloadWanted)| < QUEUE_SIZE;
              if Admits(config, old(tally), |old(log.hops)|)
              then
                && log.hops == RedirectedHops(old(log.hops), old(log.at), e)
                               + [AskedHop(FirstHop(config, storage, old(tally).phase, e, dataSink, p), p, room)]
                && payloadWanted == old(payloadWanted) + if p.Fetch? && room then [e.id] else []
              else log.hops == RedirectedHops(old(log.hops), old(log.at), e) && payloadWanted == old(payloadWanted)
      // What it charges for a request that it does not record is exactly the first past the cap.
      ensures |log.hops| == |old(log.hops)| && |asked| > |old(asked)|
              <==> && |old(log.hops)| >= config.maxRequests
                   && PayloadAsked(storage, old(tally).exceeded, e.url, post) != []
      ensures bodyWanted == old(bodyWanted)
      ensures fresh(log.Cells() - old(log.Cells()))
    {
      var p := InlinePayload(e.url, post, sink);
      RecordRequest(e, dataSink, p);
    }

    // A WebSocket has no further events: that it was opened is the observation.
    method WebSocketCreated(e: Event)
      requires Valid() && e.WebSocket?
      modifies `tally, `scan, log
      ensures Valid() && scan == Marked(config, old(scan), OnWebSocket(config, old(scan).net, e), e)
      ensures log.hops == old(log.hops) + if |scan.net.records| == |old(scan).net.records| then [] else
                          [Hop(scan.net.records[|old(log.hops)|], Mark("", ""), NOTHING)]
      ensures fresh(log.Cells() - old(log.Cells()))
    {
      if tally.exceeded != NoCap || |log.records| >= config.maxRequests {
        if tally.exceeded == NoCap {
          tally := tally.(exceeded := CapRequests);
        }
        scan := Scan(OnWebSocket(config, scan.net, e), scan.marks);
        return;
      }
      var seen := Observed(e.id, e.url, "GET", "websocket", false, false, tally.phase, 0, "", false, 0, true, false,
                           e.at);
      var h := Hop(seen, Mark("", ""), NOTHING);
      ghost var x := Marked(config, scan, OnWebSocket(config, scan.net, e), e);
      AddShows(log.hops, log.at, scan, h, log.at, x);
      Append(h, tally, x);
    }

    method SetPhase(phase: Phase)
      requires Valid()
      modifies `tally, `scan
      ensures Valid() && scan == old(scan).(net := old(scan).net.(phase := phase))
    {
      tally, scan := tally.(phase := phase), scan.(net := scan.net.(phase := phase));
    }

    // ---------- bodies ----------

    /** Attaches a payload a worker fetched to whichever hop the ID names by then. */
    method SetPayload(id: RequestId, p: Payload)
      requires Valid()
      modifies `tally, `scan, log`hops, log.Target(id)
      ensures Valid() && scan == old(scan)
      ensures log.hops == if !IsLive(log.at, old(log.hops), id) then old(log.hops) else
                          var h := old(log.hops)[log.at[id]];
                          old(log.hops)[log.at[id] := h.(kept := PutPayload(h.kept, p))]
    {
      var got := log.Get(id);
      if got.None? {
        return;
      }
      PayloadShows(log.hops, log.at, scan, log.at[id], p);
      Write(id, got.value.(kept := got.value.kept.(wantPayload := true, payload := p)), tally, scan);
    }

    /** Attaches what a read produced to whichever hop the ID names by then. Only its digest is
        observed. */
    method SetBody(id: RequestId, b: BodyResult)
      requires Valid()
      modifies `tally, `scan, log`hops, log.Target(id)
      ensures Valid() && scan == OnRead(old(scan), id, true, Body, b.digest)
      ensures log.hops == if !IsLive(log.at, old(log.hops), id) then old(log.hops) else
                          old(log.hops)[log.at[id] := ReadHop(old(log.hops)[log.at[id]], b)]
    {
      MarkIsObserved(log.hops, log.at, scan, id, Body, b.digest);
      LiveShows(log.hops, log.at, scan, id);
      var got := log.Get(id);
      if got.None? {
        return;
      }
      var h := AttachBody(got.value, b);
      ghost var x := Scan(scan.net, scan.marks[log.at[id] := h.mark]);
      ChangeShows(log.hops, log.at, scan, log.at[id], h, x);
      Write(id, h, tally, x);
    }

    // A worker's plan for the body of id, made before it is read.
    method BodyPlan(id: RequestId) returns (hashed: bool, store: bool)
      requires Valid()
      ensures if !IsLive(log.at, log.hops, id) then !hashed && !store else
              var r := log.hops[log.at[id]].seen;
              hashed == r.hashed && store == BodyStored(storage.mode, r)
    {
      var got := log.Get(id);
      if got.None? {
        return false, false;
      }
      match storage.mode
      case StoreAll => return got.value.seen.hashed, true;
      case StoreHashed => return got.value.seen.hashed, got.value.seen.hashed;
      case StoreNone => return got.value.seen.hashed, false;
    }

    // Tries to store a body that was read, and adds the reference or the reason.
    method StoreBody(b: BodyResult, sink: SinkResult) returns (b': BodyResult)
      requires Valid() && b.size >= 0 && b.ref == "" && b.storedSize == 0 && b.unavailable == Given
      modifies `budget, `asked
      ensures Valid() && asked == old(asked) + (if storage.sink then [b.size] else [])
      ensures b' == if !storage.sink then b.(unavailable := StoreFailed("no artifact store"))
                    else if !GrantedNow(storage.maxScanBytes, old(asked), asked) then b.(unavailable := OverBudget)
                    else if sink.SinkFailed? then b.(unavailable := StoreFailed(sink.error))
                    else b.(ref := sink.ref, storedSize := b.size)
    {
      if !storage.sink {
        return b.(unavailable := StoreFailed("no artifact store"));
      }
      var granted := ReserveBodyBytes(b.size);
      if !granted {
        return b.(unavailable := OverBudget);
      }
      if sink.SinkFailed? {
        return b.(unavailable := StoreFailed(sink.error));
      }
      return b.(ref := sink.ref, storedSize := b.size);
    }

    // The URL of whichever hop the ID names.
    method RequestUrl(id: RequestId) returns (url: string)
      requires Valid()
      ensures url == if IsLive(log.at, log.hops, id) then log.hops[log.at[id]].seen.url else ""
    {
      var got := log.Get(id);
      return if got.Some? then got.value.seen.url else "";
    }

    method SetBodyIdentity(id: RequestId, value: string)
      requires Valid()
      modifies `tally, `scan, log`hops, log.Target(id)
      ensures Valid() && scan == OnRead(old(scan), id, true, Name, value)
      ensures log.hops == if !IsLive(log.at, old(log.hops), id) then old(log.hops) else
                          old(log.hops)[log.at[id] := MarkedHop(old(log.hops)[log.at[id]], Name, value)]
    {
      MarkIsObserved(log.hops, log.at, scan, id, Name, value);
      LiveShows(log.hops, log.at, scan, id);
      if value == "" {
        return;
      }
      var got := log.Get(id);
      if got.None? {
        return;
      }
      var h := got.value.(mark := got.value.mark.(identity := value));
      ghost var x := Scan(scan.net, scan.marks[log.at[id] := h.mark]);
      ChangeShows(log.hops, log.at, scan, log.at[id], h, x);
      Write(id, h, tally, x);
    }

    /** What reading a body produced, once it is stored if it is to be: nothing is attached yet. */
    method ReadBodyOf(hashed: bool, store: bool, read: BodyRead, sink: SinkResult) returns (b: BodyResult)
      requires Valid()
      modifies `budget, `asked
      ensures Valid() && asked == old(asked) + ReadAsks(config, storage, store, read)
      ensures b == BodyOutcome(config, storage, hashed, store, read,
                               GrantedNow(storage.maxScanBytes, old(asked), asked), sink)
    {
      if read.NotRead? {
        return BodyResult("", 0, "", 0, NotReadReason(read.ended, read.error));
      }
      if read.size > config.maxBodyBytes {
        return BodyResult("", 0, "", 0, TooLarge(config.maxBodyBytes));
      }
      b := BodyResult(if hashed then read.sha256 else "", read.size, "", 0, Given);
      if store {
        b := StoreBody(b, sink);
      }
    }

    /** What became of a payload a worker asked Chrome for, stored if it was there: nothing is
        attached yet. */
    method ReadPayloadOf(read: PayloadRead, sink: SinkResult) returns (p: Payload)
      requires Valid()
      modifies `budget, `asked
      ensures Valid() && asked == old(asked) + FetchAsks(storage, read)
      ensures p == FetchedPayload(storage, read, GrantedNow(storage.maxScanBytes, old(asked), asked), sink)
    {
      if read.NoPayload? {
        return NO_PAYLOAD.(unavailable := NotReadReason(read.ended, read.error));
      }
      p := StorePayload(read.data, sink);
    }

    // Gives one request a reason for what it owes and has not got.
    method FinishOne(i: nat)
      requires Valid() && Stores(storage.mode) && i < |log.records|
      modifies log`hops, log.records[i]
      ensures Valid() && i < |old(log.hops)|
      ensures log.hops == old(log.hops)[i := FinishHop(storage.mode, old(log.hops)[i])]
    {
      var h := log.records[i].hop;
      if h.seen.nonNetwork {
        return;
      }
      var kept := h.kept;
      if kept.wantPayload && kept.payload.ref == "" && kept.payload.unavailable == Given {
        kept := kept.(payload := kept.payload.(unavailable := ScanEnded));
      }
      var relevant := storage.mode == StoreAll || h.seen.hashed;
      if relevant && kept.bodyRef == "" && kept.bodyUnavailable == Given {
        kept := kept.(bodyUnavailable := NoBodyReason(h.seen));
      }
      FinishShows(log.hops, log.at, scan, storage.mode, i);
      log.PutAt(i, h.(kept := kept));
    }

    /** At the end of a scan: whatever is still owed gets a reason, and what is observed is left
        alone. */
    method FinishBodies()
      requires Valid()
      modifies log`hops, log.Cells()
      ensures Valid() && scan == old(scan) && AllFinished(storage.mode, old(log.hops), log.hops)
    {
      if !Stores(storage.mode) {
        return;
      }
      for i := 0 to |log.records|
        invariant Valid() && log.records == old(log.records) && |log.hops| == |old(log.hops)|
        invariant forall j :: i <= j < |log.hops| ==> log.hops[j] == old(log.hops)[j]
        invariant forall j :: 0 <= j < i ==> log.hops[j] == FinishHop(storage.mode, old(log.hops)[j])
      {
        FinishOne(i);
      }
    }

    // Summarises what the scan stored.
    method BodyStats() returns (stats: Option<Stats>)
      requires Valid()
      ensures stats == if Stores(storage.mode) then Some(StatsOf(log.hops, |log.hops|)) else None
    {
      if !Stores(storage.mode) {
        return None;
      }
      var out := Stats(0, 0, 0, 0, 0);
      for i := 0 to |log.records|
        invariant out == StatsOf(log.hops, i)
      {
        var kept := log.records[i].hop.kept;
        if kept.bodyRef != "" {
          out := out.(responsesStored := out.responsesStored + 1,
                      responseBytes := out.responseBytes + kept.bodyStoredSize);
        } else if kept.bodyUnavailable != Given && !kept.bodyUnavailable.NoBody? {
          out := out.(unavailable := out.unavailable + 1);
        }
        if kept.payload.ref != "" {
          out := out.(requestsStored := out.requestsStored + 1, requestBytes := out.requestBytes + kept.payload.size);
        } else if kept.payload.unavailable != Given {
          out := out.(unavailable := out.unavailable + 1);
        }
      }
      return Some(out);
    }

    // The requests that still count towards network idle.
    method ActiveInflight(now: int) returns (active: int)
      requires Valid()
      ensures active == Active(scan.net, now, stallAfter)
    {
      if tally.inflight == 0 || stallAfter <= 0 {
        return tally.inflight;
      }
      active := 0;
      for i := 0 to |log.records|
        invariant active == Waiting(scan.net.records[..i], now, stallAfter)
      {
        assert HopShows(log.hops[i], scan.net.records[i], scan.marks[i]);
        assert scan.net.records[..i + 1][..i] == scan.net.records[..i];
        var seen := log.records[i].hop.seen;
        if seen.finished || seen.beacon {
          continue;
        }
        if now - seen.observedAt < stallAfter {
          active := active + 1;
        }
      }
      assert scan.net.records[..|log.records|] == scan.net.records;
    }
  }

  // Records at most one request, and stores every payload.
  const ONE_REQUEST := Config(1, 0, {}, 100)
  const EVERYTHING := Storage(StoreAll, true, 0, 100, true)

  // One more request begins.
  method Request(r: Recorder, id: RequestId, post: PostField)
    requires r.Valid() && r.config == ONE_REQUEST && r.storage == EVERYTHING && !r.budget.exhausted
    requires post.Included? ==> post.data.size <= 100
    modifies r, r.log, r.log.Target(id)
    ensures r.Valid() && fresh(r.log.Cells() - old(r.log.Cells())) && !r.budget.exhausted
    ensures var caps := old(r.tally).exceeded != NoCap;
            && |r.log.hops| == |old(r.log.hops)| + One(!caps && old(r.log.hops) == [])
            && r.tally.exceeded == (if !caps && old(r.log.hops) != [] then CapRequests else old(r.tally).exceeded)
            && r.budget.stored == old(r.budget).stored + if post.Included? && !caps then post.data.scrubbed else 0
  {
    var e := WillBeSent(id, "/", "POST", "xhr", false, None, NotData, 0);
    ghost var asked := r.asked;
    r.RequestWillBeSent(e, post, Stored("ref"), Stored("ref"));
    if |r.asked| > |asked| {
      assert r.asked[..|r.asked| - 1] == asked;
    } else {
      assert r.asked == asked;
    }
  }

  /** The first request past the cap is charged for its payload and not recorded; the one after it
      is neither. */
  method ChargeUnrecorded() returns (r: Recorder, first: int, second: int, third: int)
    ensures r.Valid() && r.config == ONE_REQUEST && r.storage == EVERYTHING && |r.log.hops| == 1
    ensures first == 0 && second == third == 5
  {
    r := new Recorder(ONE_REQUEST, EVERYTHING, 0);
    Request(r, "1", NoPost);
    first := r.budget.stored;
    Request(r, "2", Included(PostData(5, 5, "digest")));
    second := r.budget.stored;
    Request(r, "3", Included(PostData(5, 5, "digest")));
    third := r.budget.stored;
  }
}
