/** What a scan stores of the bodies it reads: who wants a body, the budget, and the rule that
    every request ends up with a body or a reason. None of it is part of what is observed. */
module BodyStorage {
  import opened Wrappers
  import opened Observation

  // How many bodies, and how many payloads, can wait to be read.
  const QUEUE_SIZE := 1024

  datatype Mode = StoreNone | StoreHashed | StoreAll

  datatype Storage = Storage(mode: Mode, requestBodies: bool, maxScanBytes: int, maxBodyBytes: int, sink: bool)

  predicate Stores(mode: Mode) { mode != StoreNone }

  // ---------- reasons ----------

  // Why an exchange carries no body.
  datatype Cause = ByWebSocket | ByRedirect | ByStatus(status: int) | ByHead | ByFailure

  datatype Reason =
    | Given              // no reason recorded
    | NoBody(cause: Cause)
    | NotRetrievable(error: string)
    | TooLarge(cap: int)
    | OverBudget
    | ScanEnded
    | QueueFull
    | StoreFailed(error: string)

  const NO_BODY := "no body"

  function Decimal(n: int): string
    decreases if n < 0 then 1 - n else n
  {
    if n < 0 then "-" + Decimal(-n)
    else (if n < 10 then "" else Decimal(n / 10)) + [(n % 10 + '0' as int) as char]
  }

  function CauseText(cause: Cause): string {
    match cause
    case ByWebSocket => "websocket"
    case ByRedirect => "redirect"
    case ByStatus(status) => "status " + Decimal(status)
    case ByHead => "HEAD request"
    case ByFailure => "the request failed"
  }

  // The text a result carries for a reason.
  function Text(r: Reason): string {
    match r
    case Given => ""
    case NoBody(cause) => NO_BODY + ": " + CauseText(cause)
    case NotRetrievable(error) => "body not retrievable: " + error
    case TooLarge(cap) => "body larger than the " + Decimal(cap) + " byte cap"
    case OverBudget => "scan body budget exhausted"
    case ScanEnded => "scan ended before the body was read"
    case QueueFull => "body queue full"
    case StoreFailed(error) => "storing the body failed: " + error
  }

  /** The prefix the statistics look for picks out exactly the exchanges that carry no body. */
  lemma TextTellsNoBody(r: Reason)
    ensures NO_BODY <= Text(r) <==> r.NoBody?
    ensures Text(r) == "" <==> r.Given?
  {
    if r.NoBody? {
      assert Text(r)[..|NO_BODY|] == NO_BODY;
    } else if !r.Given? {
      assert Text(r)[0] != NO_BODY[0];
    }
  }

  // ---------- what is kept of one hop ----------

  datatype Payload = Payload(ref: string, sha256: string, size: int, unavailable: Reason)

  const NO_PAYLOAD := Payload("", "", 0, Given)

  datatype Kept = Kept(
    wantBody: bool, bodyRef: string, bodyStoredSize: int, decodedSize: int, bodyUnavailable: Reason,
    wantPayload: bool, payload: Payload)

  const NOTHING := Kept(false, "", 0, 0, Given, false, NO_PAYLOAD)

  // Everything recorded of one request hop: what a comparison sees, the digest, and the
  // bookkeeping of its bodies.
  datatype Hop = Hop(seen: Observed, mark: Mark, kept: Kept)

  // The body of a hop of this type is read.
  predicate Wants(c: Config, mode: Mode, r: Observed) {
    !r.nonNetwork && (r.resourceType in c.hashTypes || (mode == StoreAll && r.resourceType != "websocket"))
  }

  function Plan(c: Config, mode: Mode, r: Observed, k: Kept): Kept {
    if Wants(c, mode, r) then k.(wantBody := true) else k
  }

  // What reading one body produced.
  datatype BodyResult = BodyResult(digest: string, size: int, ref: string, storedSize: int, unavailable: Reason)

  function PutBody(k: Kept, b: BodyResult): Kept {
    var k1 := if b.unavailable != Given then k.(bodyUnavailable := b.unavailable) else k;
    var k2 := if b.ref != "" then k1.(bodyRef := b.ref, bodyStoredSize := b.storedSize) else k1;
    if k2.decodedSize == 0 && b.size > 0 then k2.(decodedSize := b.size) else k2
  }

  function PutPayload(k: Kept, p: Payload): Kept { k.(wantPayload := true, payload := p) }

  // What Chrome gave for a body the scan asked for.
  datatype BodyRead = NotRead(ended: bool, error: string) | ReadBody(size: nat, sha256: string)

  function NotReadReason(ended: bool, error: string): Reason { if ended then ScanEnded else NotRetrievable(error) }

  // What writing one artifact gave.
  datatype SinkResult = Stored(ref: string) | SinkFailed(error: string)

  predicate BodyStored(mode: Mode, r: Observed) { mode == StoreAll || (mode == StoreHashed && r.hashed) }

  // A body is charged to the budget when it is stored, there is a store, and it is under the cap.
  predicate BodyAsks(c: Config, st: Storage, store: bool, read: BodyRead) {
    read.ReadBody? && read.size <= c.maxBodyBytes && store && st.sink
  }

  /** What reading a body produced. The digest and the size do not depend on whether it is
      stored; a reference is one the store gave for a body that was to be stored, fits, and was
      granted; and a body that was to be stored has a reference or a reason. */
  function BodyOutcome(c: Config, st: Storage, hashed: bool, store: bool, read: BodyRead, granted: bool,
                       sink: SinkResult): (b: BodyResult)
    ensures b.digest == (if hashed && read.ReadBody? && read.size <= c.maxBodyBytes then read.sha256 else "")
    ensures b.ref != "" ==>
              store && st.sink && granted && sink == Stored(b.ref)
              && read.ReadBody? && b.storedSize == read.size <= c.maxBodyBytes && b.unavailable == Given
    ensures store && sink != Stored("") ==> b.ref != "" || b.unavailable != Given
    ensures !store && read.ReadBody? && read.size <= c.maxBodyBytes ==> b.unavailable == Given
    ensures !b.unavailable.NoBody?
  {
    if read.NotRead? then BodyResult("", 0, "", 0, NotReadReason(read.ended, read.error))
    else if read.size > c.maxBodyBytes then BodyResult("", 0, "", 0, TooLarge(c.maxBodyBytes))
    else
      var b := BodyResult(if hashed then read.sha256 else "", read.size, "", 0, Given);
      if !store then b
      else if !st.sink then b.(unavailable := StoreFailed("no artifact store"))
      else if !granted then b.(unavailable := OverBudget)
      else if sink.SinkFailed? then b.(unavailable := StoreFailed(sink.error))
      else b.(ref := sink.ref, storedSize := read.size)
  }

  // A request payload: its length, and its length and digest once credentials are replaced.
  datatype PostData = PostData(size: nat, scrubbed: nat, sha256: string)

  predicate PayloadTooLarge(st: Storage, d: PostData) { st.maxBodyBytes > 0 && d.size > st.maxBodyBytes }

  predicate PayloadAsks(st: Storage, d: PostData) { !PayloadTooLarge(st, d) && st.sink }

  /** What storing a payload produced: a reference the store gave for one that fits and was
      granted, or else a reason. */
  function PayloadOutcome(st: Storage, d: PostData, granted: bool, sink: SinkResult): (p: Payload)
    ensures p.size == d.size && (p.sha256 == d.sha256 || PayloadTooLarge(st, d))
    ensures p.ref != "" ==> PayloadAsks(st, d) && granted && sink == Stored(p.ref) && p.unavailable == Given
    ensures sink != Stored("") ==> p.ref != "" || p.unavailable != Given
    ensures !p.unavailable.NoBody?
  {
    if PayloadTooLarge(st, d) then Payload("", "", d.size, TooLarge(st.maxBodyBytes))
    else if !st.sink then Payload("", d.sha256, d.size, StoreFailed("no artifact store"))
    else if !granted then Payload("", d.sha256, d.size, OverBudget)
    else if sink.SinkFailed? then Payload("", d.sha256, d.size, StoreFailed(sink.error))
    else Payload(sink.ref, d.sha256, d.size, Given)
  }

  // ---------- every obligation is discharged ----------

  // The hop should have yielded a body.
  predicate OwesBody(mode: Mode, r: Observed) { Stores(mode) && !r.nonNetwork && (mode == StoreAll || r.hashed) }

  predicate OwesPayload(mode: Mode, r: Observed, k: Kept) { Stores(mode) && !r.nonNetwork && k.wantPayload }

  predicate HasBody(k: Kept) { k.bodyRef != "" || k.bodyUnavailable != Given }

  predicate HasPayload(k: Kept) { k.payload.ref != "" || k.payload.unavailable != Given }

  // The reason given for a hop that ends without a body it owed: the most specific one, so a
  // failure comes last.
  function NoBodyReason(r: Observed): Reason {
    if r.resourceType == "websocket" then NoBody(ByWebSocket)
    else if r.redirectTo != "" then NoBody(ByRedirect)
    else if r.status == 204 || r.status == 304 || 100 <= r.status < 200 then NoBody(ByStatus(r.status))
    else if Lower(r.verb) == "head" then NoBody(ByHead)
    else if r.failed then NoBody(ByFailure)
    else ScanEnded
  }

  /** Finishing leaves every obligation with a reference or a reason, overwrites none already
      there, invents no reference, and touches nothing that owes nothing. A reason it gives for
      a body says there is none exactly when the exchange could not carry one. */
  function Finish(mode: Mode, r: Observed, k: Kept): (k': Kept)
    ensures OwesBody(mode, r) ==> HasBody(k')
    ensures OwesPayload(mode, r, k) ==> HasPayload(k')
    ensures HasBody(k) || !OwesBody(mode, r) ==> k'.bodyUnavailable == k.bodyUnavailable
    ensures HasPayload(k) || !OwesPayload(mode, r, k) ==> k'.payload == k.payload
    ensures k' == k.(bodyUnavailable := k'.bodyUnavailable,
                     payload := k.payload.(unavailable := k'.payload.unavailable))
    ensures OwesBody(mode, r) && !HasBody(k) ==> (k'.bodyUnavailable.NoBody? <==> CarriesNone(r))
  {
    if !Stores(mode) || r.nonNetwork then k else
    var k1 := if k.wantPayload && k.payload.ref == "" && k.payload.unavailable == Given
              then k.(payload := k.payload.(unavailable := ScanEnded)) else k;
    if (mode == StoreAll || r.hashed) && k1.bodyRef == "" && k1.bodyUnavailable == Given
    then k1.(bodyUnavailable := NoBodyReason(r)) else k1
  }

  predicate CarriesNone(r: Observed) {
    || r.resourceType == "websocket" || r.redirectTo != "" || r.status in {204, 304} || 100 <= r.status <= 199
    || Lower(r.verb) == "head" || r.failed
  }

  // ---------- the statistics partition the obligations ----------

  datatype Stats = Stats(
    responsesStored: int, responseBytes: int, requestsStored: int, requestBytes: int, unavailable: int)

  function Counted(x: Stats, k: Kept): Stats {
    var x1 := if k.bodyRef != ""
              then x.(responsesStored := x.responsesStored + 1, responseBytes := x.responseBytes + k.bodyStoredSize)
              else if k.bodyUnavailable != Given && !k.bodyUnavailable.NoBody?
              then x.(unavailable := x.unavailable + 1) else x;
    if k.payload.ref != ""
    then x1.(requestsStored := x1.requestsStored + 1, requestBytes := x1.requestBytes + k.payload.size)
    else if k.payload.unavailable != Given then x1.(unavailable := x1.unavailable + 1) else x1
  }

  // The statistics of the first n hops.
  function StatsOf(hops: seq<Hop>, n: nat): Stats
    requires n <= |hops|
  {
    if n == 0 then Stats(0, 0, 0, 0, 0) else Counted(StatsOf(hops, n - 1), hops[n - 1].kept)
  }

  // The record says there was no body to keep.
  function SaysNoBody(k: Kept): nat { One(k.bodyRef == "" && k.bodyUnavailable.NoBody?) }

  function NoBodies(hops: seq<Hop>, n: nat): nat
    requires n <= |hops|
  {
    if n == 0 then 0 else NoBodies(hops, n - 1) + SaysNoBody(hops[n - 1].kept)
  }

  function OwedBy(mode: Mode, h: Hop): nat { One(OwesBody(mode, h.seen)) + One(OwesPayload(mode, h.seen, h.kept)) }

  // The bodies and payloads the scan owes.
  function Owed(mode: Mode, hops: seq<Hop>, n: nat): nat
    requires n <= |hops|
  {
    if n == 0 then 0 else Owed(mode, hops, n - 1) + OwedBy(mode, hops[n - 1])
  }

  function ExtraOf(mode: Mode, h: Hop): nat {
    One(HasBody(h.kept) && !OwesBody(mode, h.seen)) + One(HasPayload(h.kept) && !OwesPayload(mode, h.seen, h.kept))
  }

  // Those it has, or has a reason for, without owing them: a data: URI's payload, or what a
  // read brought to a request that had taken over the ID.
  function Extra(mode: Mode, hops: seq<Hop>, n: nat): nat
    requires n <= |hops|
  {
    if n == 0 then 0 else Extra(mode, hops, n - 1) + ExtraOf(mode, hops[n - 1])
  }

  function FinishHop(mode: Mode, h: Hop): Hop { h.(kept := Finish(mode, h.seen, h.kept)) }

  // hops' is hops after finishing.
  predicate AllFinished(mode: Mode, hops: seq<Hop>, hops': seq<Hop>) {
    |hops| == |hops'| && forall i :: 0 <= i < |hops| ==> hops'[i] == FinishHop(mode, hops[i])
  }

  // How many bodies and payloads the counters say there are.
  function Total(x: Stats): int { x.responsesStored + x.requestsStored + x.unavailable }

  lemma HopPartition(mode: Mode, h: Hop, x: Stats)
    ensures var k := FinishHop(mode, h).kept;
            Total(Counted(x, k)) + SaysNoBody(k) == Total(x) + OwedBy(mode, h) + ExtraOf(mode, h)
  {
  }

  // One more hop, which has been finished.
  lemma StepPartition(mode: Mode, hops: seq<Hop>, hops': seq<Hop>, n: nat)
    requires 0 < n <= |hops| == |hops'| && hops'[n - 1] == FinishHop(mode, hops[n - 1])
    requires Total(StatsOf(hops', n - 1)) + NoBodies(hops', n - 1) == Owed(mode, hops, n - 1) + Extra(mode, hops, n - 1)
    ensures Total(StatsOf(hops', n)) + NoBodies(hops', n) == Owed(mode, hops, n) + Extra(mode, hops, n)
  {
    hide FinishHop, Counted, SaysNoBody, OwedBy, ExtraOf, Total;
    HopPartition(mode, hops[n - 1], StatsOf(hops', n - 1));
  }

  lemma NoneCounted(hops: seq<Hop>)
    ensures Total(StatsOf(hops, 0)) == 0
  {
  }

  lemma FinishedAt(mode: Mode, hops: seq<Hop>, hops': seq<Hop>, n: nat)
    requires AllFinished(mode, hops, hops') && n < |hops|
    ensures |hops| == |hops'| && hops'[n] == FinishHop(mode, hops[n])
  {
    hide FinishHop;
  }

  /** After finishing, the counters and the exchanges that carry no body partition what is owed:
      each body and each payload is counted exactly once. What else they count is exactly what
      the records hold beyond what is owed. */
  lemma {:induction false} StatsPartition(mode: Mode, hops: seq<Hop>, hops': seq<Hop>, n: nat)
    requires AllFinished(mode, hops, hops') && n <= |hops|
    ensures Total(StatsOf(hops', n)) + NoBodies(hops', n) == Owed(mode, hops, n) + Extra(mode, hops, n)
  {
    hide AllFinished, FinishHop, Total, Counted;
    if n == 0 {
      NoneCounted(hops');
    } else {
      FinishedAt(mode, hops, hops', n - 1);
      StatsPartition(mode, hops, hops', n - 1);
      StepPartition(mode, hops, hops', n);
    }
  }

  // ---------- the budget ----------

  function Sum(sizes: seq<nat>): nat {
    if sizes == [] then 0 else Sum(sizes[..|sizes| - 1]) + sizes[|sizes| - 1]
  }

  predicate Fits(max: int, sizes: seq<nat>) { max <= 0 || Sum(sizes) <= max }

  // What the recorder remembers of the budget.
  datatype Budget = Budget(stored: int, exhausted: bool)

  function Reserve(max: int, b: Budget, n: nat): (r: (Budget, bool)) {
    if b.exhausted then (b, false)
    else if max > 0 && b.stored + n > max then (b.(exhausted := true), false)
    else (b.(stored := b.stored + n), true)
  }

  function Reserved(max: int, sizes: seq<nat>): Budget {
    if sizes == [] then Budget(0, false) else Reserve(max, Reserved(max, sizes[..|sizes| - 1]), sizes[|sizes| - 1]).0
  }

  // How many of these requests were granted.
  function Granted(max: int, sizes: seq<nat>): nat {
    if sizes == [] then 0 else
    var before := sizes[..|sizes| - 1];
    Granted(max, before) + One(Reserve(max, Reserved(max, before), sizes[|sizes| - 1]).1)
  }

  /** What is granted is a prefix of what is asked for, and the longest prefix that fits: it
      fits, and with one more request it would not. */
  lemma {:induction false} GrantedIsLongestPrefix(max: int, sizes: seq<nat>)
    ensures var g := Granted(max, sizes);
            && g <= |sizes| && Fits(max, sizes[..g]) && Reserved(max, sizes) == Budget(Sum(sizes[..g]), g < |sizes|)
            && (g < |sizes| ==> !Fits(max, sizes[..g + 1]))
  {
    if sizes != [] {
      var before, n := sizes[..|sizes| - 1], sizes[|sizes| - 1];
      GrantedIsLongestPrefix(max, before);
      var g := Granted(max, before);
      assert before[..g] == sizes[..g];
      if g < |before| {
        assert before[..g + 1] == sizes[..g + 1];
      } else {
        assert sizes[..g] == before && sizes[..g + 1] == sizes;
      }
    } else {
      assert sizes[..0] == [];
    }
  }

  /** A prefix that does not fit has no extension that does, so there is only one longest one. */
  lemma {:induction false} NothingLongerFits(max: int, sizes: seq<nat>, m: nat)
    requires Granted(max, sizes) < m <= |sizes|
    ensures !Fits(max, sizes[..m])
  {
    GrantedIsLongestPrefix(max, sizes);
    if m > Granted(max, sizes) + 1 {
      NothingLongerFits(max, sizes, m - 1);
      assert sizes[..m][..m - 1] == sizes[..m - 1];
    }
  }
}
