/**
 Snapshot reads: streaming the matching events of a store scan in bounded batches with a row
 cap, and reconstructing one state row per scanned entity.
 */
module SnapshotReads {
  import opened Common
  import opened Facts

  datatype Status = Ok | InvalidArgument | Rejected | LimitReached | ReadFailed

  /** The row limit of one batch: the smaller of the batch limit and the cap. */
  function BatchLimit(batchRowLimit: nat, maxRows: Option<nat>): nat {
    if maxRows.Some? && maxRows.value < batchRowLimit then maxRows.value else batchRowLimit
  }

  /** Batches a visitor has accepted, none of them empty or over the limit. */
  ghost predicate Accepted(delivered: seq<seq<Event>>, limit: nat, accepts: nat -> bool) {
    forall k :: 0 <= k < |delivered| ==> 0 < |delivered[k]| <= limit && accepts(k)
  }

  /** Collects rows into batches for a visitor; the visitor accepts batch k when `accepts(k)`. */
  class EventBatcher {
    const limit: nat
    const maxRows: Option<nat>
    const accepts: nat -> bool
    var batch: seq<Event>
    var delivered: seq<seq<Event>>
    var emitted: nat
    var limitReached: bool
    ghost var sent: seq<Event>  // the rows of `delivered`

    constructor (batchRowLimit: nat, maxRows: Option<nat>, accepts: nat -> bool)
      requires batchRowLimit > 0 && (maxRows.Some? ==> maxRows.value > 0)
      ensures Valid() && !limitReached && sent == [] && batch == []
      ensures limit == BatchLimit(batchRowLimit, maxRows) && this.maxRows == maxRows && this.accepts == accepts
    {
      this.limit, this.maxRows, this.accepts := BatchLimit(batchRowLimit, maxRows), maxRows, accepts;
      batch, delivered, emitted, limitReached, sent := [], [], 0, false, [];
    }

    ghost predicate Delivered()
      reads this
    {
      sent == Concat(delivered) && emitted == |sent| && Accepted(delivered, limit, accepts)
    }

    ghost predicate Valid()
      reads this
    {
      && Delivered() && limit > 0
      && (if limitReached then batch == [] && maxRows == Some(emitted)
          else |batch| < limit && (maxRows.Some? ==> emitted + |batch| < maxRows.value))
    }

    /** Hands the current batch to the visitor; a rejected batch is not counted as delivered. */
    method Deliver() returns (ok: bool)
      requires Delivered() && 0 < |batch| <= limit
      modifies `batch, `delivered, `emitted, `sent
      ensures ok == accepts(|old(delivered)|)
      ensures ok ==> Delivered() && sent == old(sent + batch) && batch == []
      ensures !ok ==> unchanged(this)
    {
      ok := accepts(|delivered|);
      if ok {
        ConcatPush(delivered, batch);
        delivered, emitted, sent, batch := delivered + [batch], emitted + |batch|, sent + batch, [];
      }
    }

    method Append(event: Event) returns (status: Status)
      requires Valid() && !limitReached
      modifies this
      ensures status in {Ok, LimitReached, Rejected} && (limitReached <==> status == LimitReached)
      ensures status != Rejected ==> Valid() && sent + batch == old(sent + batch) + [event]
      ensures status == Rejected ==> Delivered() && sent == old(sent) && !accepts(|delivered|)
    {
      batch := batch + [event];
      var reachesLimit := maxRows.Some? && |batch| >= maxRows.value - emitted;
      if !reachesLimit && |batch| < limit { return Ok; }
      var ok := Deliver();
      if !ok { return Rejected; }
      limitReached := reachesLimit;
      status := if reachesLimit then LimitReached else Ok;
    }
  }

  /** Rows a scan may deliver: the matching events up to the row cap. */
  function Expected(spec: ReadSpec, scanned: seq<Event>): seq<Event> {
    Capped(spec.maxRows, Select(spec, scanned))
  }

  /** What the batcher holds once the events `seen` have been offered to it. */
  ghost predicate Holds(out: EventBatcher, spec: ReadSpec, seen: seq<Event>)
    reads out
  {
    out.Valid() && out.maxRows == spec.maxRows && !out.limitReached && out.sent + out.batch == Select(spec, seen)
  }

  /** How a scan over `all` may end: running, stopped at the cap, or stopped by the visitor. */
  ghost predicate Stands(out: EventBatcher, spec: ReadSpec, all: seq<Event>, status: Status)
    reads out
  {
    match status
    case Ok => Holds(out, spec, all)
    case LimitReached =>
      out.Valid() && out.limitReached && out.maxRows == spec.maxRows && out.sent == Expected(spec, all)
    case Rejected => out.Delivered() && out.sent <= Expected(spec, all) && !out.accepts(|out.delivered|)
    case _ => false
  }

  lemma ExpectedPrefix(spec: ReadSpec, a: seq<Event>, b: seq<Event>)
    ensures Expected(spec, a) <= Expected(spec, a + b)
    ensures spec.maxRows == Some(|Expected(spec, a)|) ==> Expected(spec, a + b) == Expected(spec, a)
  {
    SelectConcat(spec, a, b);
  }

  /** Offers one scanned event. */
  method Offer(spec: ReadSpec, out: EventBatcher, event: Event, ghost seen: seq<Event>) returns (status: Status)
    requires Holds(out, spec, seen)
    modifies out
    ensures Stands(out, spec, seen + [event], status)
  {
    SelectPush(spec, seen, event);
    status := Ok;
    if Matches(spec, event) { status := out.Append(event); }
  }

  /** A scan that has stopped stands the same way for everything it did not read. */
  lemma StandsOn(out: EventBatcher, spec: ReadSpec, a: seq<Event>, b: seq<Event>, status: Status)
    requires Stands(out, spec, a, status) && status != Ok
    ensures Stands(out, spec, a + b, status)
  {
    ExpectedPrefix(spec, a, b);
  }

  lemma ScanAt(before: seq<Event>, scan: seq<Event>, i: nat)
    requires i < |scan|
    ensures before + scan[..i + 1] == before + scan[..i] + [scan[i]]
    ensures before + scan == before + scan[..i] + [scan[i]] + scan[i + 1..]
  {
  }

  /** One store scan; stops at the first status that is not Ok. */
  method ScanInto(spec: ReadSpec, out: EventBatcher, scan: seq<Event>, ghost before: seq<Event>)
    returns (status: Status)
    requires Holds(out, spec, before)
    modifies out
    ensures Stands(out, spec, before + scan, status)
  {
    var i := 0;
    assert before + scan[..0] == before;
    while i < |scan|
      invariant 0 <= i <= |scan| && Holds(out, spec, before + scan[..i])
    {
      ghost var seen := before + scan[..i];
      ScanAt(before, scan, i);
      status := Offer(spec, out, scan[i], seen);
      if status != Ok {
        StandsOn(out, spec, seen + [scan[i]], scan[i + 1..], status);
        return;
      }
      i := i + 1;
    }
    assert before + scan[..i] == before + scan;
    status := Ok;
  }

  /** The scans of the requested parts, in order. */
  method ScanParts(spec: ReadSpec, out: EventBatcher, scans: seq<seq<Event>>) returns (status: Status)
    requires Holds(out, spec, [])
    modifies out
    ensures Stands(out, spec, Concat(scans), status)
  {
    var i := 0;
    while i < |scans|
      invariant 0 <= i <= |scans| && Holds(out, spec, Concat(scans[..i]))
    {
      ConcatPush(scans[..i], scans[i]);
      assert scans[..i + 1] == scans[..i] + [scans[i]];
      status := ScanInto(spec, out, scans[i], Concat(scans[..i]));
      if status != Ok {
        ConcatSplit(scans, i + 1);
        StandsOn(out, spec, Concat(scans[..i + 1]), Concat(scans[i + 1..]), status);
        return;
      }
      i := i + 1;
    }
    assert scans[..i] == scans;
    status := Ok;
  }

  /** The rows left at the end of a scan that was not stopped by the cap. */
  lemma HeldWithinCap(out: EventBatcher, spec: ReadSpec, all: seq<Event>)
    requires Holds(out, spec, all)
    ensures out.sent + out.batch == Expected(spec, all)
  {
  }

  /**
   Streams the scans of the requested parts, in order. On success the visitor has received the
   matching events up to the cap; on a rejection everything before the rejected batch.
   */
  method ReadEvents(spec: ReadSpec, scans: seq<seq<Event>>, accepts: nat -> bool)
    returns (status: Status, delivered: seq<seq<Event>>)
    ensures status in {Ok, InvalidArgument, Rejected} && (status == InvalidArgument <==> spec.batchRowLimit == 0)
    ensures status == Ok ==> Concat(delivered) == Expected(spec, Concat(scans))
    ensures status == Rejected ==> Concat(delivered) <= Expected(spec, Concat(scans)) && !accepts(|delivered|)
    ensures Accepted(delivered, BatchLimit(spec.batchRowLimit, spec.maxRows), accepts)
  {
    if spec.batchRowLimit == 0 { return InvalidArgument, []; }
    if spec.maxRows == Some(0) { return Ok, []; }
    var out := new EventBatcher(spec.batchRowLimit, spec.maxRows, accepts);
    status := ScanParts(spec, out, scans);
    if status == Ok {
      HeldWithinCap(out, spec, Concat(scans));
      if out.batch != [] {
        var ok := out.Deliver();
        status := if ok then Ok else Rejected;
      }
    } else if status == LimitReached {
      status := Ok;
    }
    delivered := out.delivered;
  }

  lemma {:induction false} ConcatSplit<T>(batches: seq<seq<T>>, n: nat)
    requires n <= |batches|
    ensures Concat(batches) == Concat(batches[..n]) + Concat(batches[n..])
  {
    if n == |batches| {
      assert batches[..n] == batches;
    } else {
      ConcatSplit(batches[..|batches| - 1], n);
      assert batches[..|batches| - 1][..n] == batches[..n];
      assert batches[..|batches| - 1][n..] == batches[n..][..|batches[n..]| - 1];
    }
  }

  // ---- state reconstruction -----------------------------------------------------------

  datatype ScanSpec = ScanSpec(
    entityMin: Option<nat>, entityMax: Option<nat>, validFromMin: Option<nat>, validFromMax: Option<nat>,
    seqMin: Option<nat>, seqMax: Option<nat>, batchRowLimit: nat)

  predicate InEntityRange(spec: ScanSpec, e: Event) {
    AtLeast(spec.entityMin, e.ref.entity) && AtMost(spec.entityMax, e.ref.entity)
  }

  predicate MatchesScan(spec: ScanSpec, e: Event) {
    && InEntityRange(spec, e)
    && AtLeast(spec.validFromMin, e.validFrom) && AtMost(spec.validFromMax, e.validFrom)
    && AtLeast(spec.seqMin, e.seq_) && AtMost(spec.seqMax, e.seq_)
  }

  /** A point read answers for the reference it was asked about. */
  ghost predicate PointRead(read: FactRef -> Option<Event>) {
    forall ref :: read(ref).Some? ==> read(ref).value.ref == ref
  }

  /** The store scans in key order, so the events of one fact are adjacent. */
  ghost predicate Grouped(scan: seq<Event>) {
    forall i, j, k :: 0 <= i < j < k < |scan| && scan[i].ref == scan[k].ref ==> scan[j].ref == scan[i].ref
  }

  /** The state row of a scanned event, if its fact is present and matches. */
  function RowOf(spec: ScanSpec, read: FactRef -> Option<Event>, e: Event): Option<Event> {
    if InEntityRange(spec, e) && read(e.ref).Some? && MatchesScan(spec, read(e.ref).value) then read(e.ref) else None
  }

  /** Exactly one row for every scanned fact that has one. */
  ghost predicate OneRowPerFact(spec: ScanSpec, read: FactRef -> Option<Event>, scan: seq<Event>, rows: seq<Event>) {
    && (forall r :: r in rows <==> exists i :: 0 <= i < |scan| && RowOf(spec, read, scan[i]) == Some(r))
    && DistinctRefs(rows)
  }

  ghost predicate DistinctRefs(rows: seq<Event>) {
    forall a, b :: 0 <= a < b < |rows| ==> rows[a].ref != rows[b].ref
  }

  /** The fact of the last scanned event inside the entity range. */
  function LastIdentity(spec: ScanSpec, scan: seq<Event>): Option<FactRef> {
    if scan == [] then None else
      var last := scan[|scan| - 1];
      if InEntityRange(spec, last) then Some(last.ref) else LastIdentity(spec, scan[..|scan| - 1])
  }

  /** The rows produced by a scan: one point read whenever the identity changes. */
  function RowsOf(spec: ScanSpec, read: FactRef -> Option<Event>, scan: seq<Event>): seq<Event> {
    if scan == [] then [] else
      var before, last := scan[..|scan| - 1], scan[|scan| - 1];
      var row := RowOf(spec, read, last);
      RowsOf(spec, read, before)
      + (if row.Some? && LastIdentity(spec, before) != Some(last.ref) then [row.value] else [])
  }

  lemma {:induction false} LastIdentityWhere(spec: ScanSpec, scan: seq<Event>, n: nat)
    requires n < |scan| && Grouped(scan) && InEntityRange(spec, scan[n])
    ensures LastIdentity(spec, scan[..n]) == Some(scan[n].ref) <==> exists i :: 0 <= i < n && scan[i].ref == scan[n].ref
  {
    var m := n;
    while m > 0 && !InEntityRange(spec, scan[m - 1])
      invariant 0 <= m <= n && LastIdentity(spec, scan[..n]) == LastIdentity(spec, scan[..m])
      invariant forall i :: m <= i < n ==> scan[i].ref != scan[n].ref
    {
      assert scan[..m][..m - 1] == scan[..m - 1];
      m := m - 1;
    }
    if m > 0 {
      assert scan[..m][m - 1] == scan[m - 1];
      assert LastIdentity(spec, scan[..m]) == Some(scan[m - 1].ref);
    }
  }

  lemma GroupedPrefix(scan: seq<Event>, n: nat)
    requires Grouped(scan) && n <= |scan|
    ensures Grouped(scan[..n])
  {
    var t := scan[..n];
    forall i, j, k | 0 <= i < j < k < |t| && t[i].ref == t[k].ref ensures t[j].ref == t[i].ref {
      assert scan[i].ref == scan[k].ref;
    }
  }

  lemma {:induction false} RowsComeFromScan(spec: ScanSpec, read: FactRef -> Option<Event>, scan: seq<Event>, r: Event)
    requires r in RowsOf(spec, read, scan)
    ensures exists i :: 0 <= i < |scan| && RowOf(spec, read, scan[i]) == Some(r)
  {
    var before, n := scan[..|scan| - 1], |scan| - 1;
    if r in RowsOf(spec, read, before) {
      RowsComeFromScan(spec, read, before, r);
      var i :| 0 <= i < |before| && RowOf(spec, read, before[i]) == Some(r);
      assert scan[i] == before[i];
    } else {
      assert RowOf(spec, read, scan[n]) == Some(r);
    }
  }

  lemma {:induction false} ScanRowsAreProduced(spec: ScanSpec, read: FactRef -> Option<Event>, scan: seq<Event>, i: nat)
    requires PointRead(read) && Grouped(scan) && i < |scan| && RowOf(spec, read, scan[i]).Some?
    ensures RowOf(spec, read, scan[i]).value in RowsOf(spec, read, scan)
  {
    var n := |scan| - 1;
    GroupedPrefix(scan, n);
    if i < n {
      ScanRowsAreProduced(spec, read, scan[..n], i);
    } else {
      LastIdentityWhere(spec, scan, n);
      if LastIdentity(spec, scan[..n]) == Some(scan[n].ref) {
        var j :| 0 <= j < n && scan[j].ref == scan[n].ref;
        assert scan[..n][j] == scan[j];
        ScanRowsAreProduced(spec, read, scan[..n], j);
      }
    }
  }

  /** A fact that was not scanned before has no row yet. */
  lemma NewFactHasNoRow(spec: ScanSpec, read: FactRef -> Option<Event>, scan: seq<Event>, ref: FactRef, a: nat)
    requires PointRead(read) && a < |RowsOf(spec, read, scan)|
    requires forall i :: 0 <= i < |scan| ==> scan[i].ref != ref
    ensures RowsOf(spec, read, scan)[a].ref != ref
  {
    var row := RowsOf(spec, read, scan)[a];
    RowsComeFromScan(spec, read, scan, row);
    var i :| 0 <= i < |scan| && RowOf(spec, read, scan[i]) == Some(row);
  }

  lemma {:induction false} RowsDistinct(spec: ScanSpec, read: FactRef -> Option<Event>, scan: seq<Event>)
    requires PointRead(read) && Grouped(scan)
    ensures DistinctRefs(RowsOf(spec, read, scan))
  {
    if scan != [] {
      var n := |scan| - 1;
      var before, rows := scan[..n], RowsOf(spec, read, scan[..n]);
      GroupedPrefix(scan, n);
      RowsDistinct(spec, read, before);
      if RowOf(spec, read, scan[n]).Some? && LastIdentity(spec, before) != Some(scan[n].ref) {
        LastIdentityWhere(spec, scan, n);
        forall a | 0 <= a < |rows| ensures rows[a].ref != scan[n].ref {
          NewFactHasNoRow(spec, read, before, scan[n].ref, a);
        }
        assert RowsOf(spec, read, scan) == rows + [RowOf(spec, read, scan[n]).value];
      }
    }
  }

  /** A state scan of a grouped store scan reconstructs every matching fact once. */
  lemma StateScanIsExact(spec: ScanSpec, read: FactRef -> Option<Event>, scan: seq<Event>)
    requires PointRead(read) && Grouped(scan)
    ensures OneRowPerFact(spec, read, scan, RowsOf(spec, read, scan))
  {
    var rows := RowsOf(spec, read, scan);
    RowsDistinct(spec, read, scan);
    forall r | r in rows ensures exists i :: 0 <= i < |scan| && RowOf(spec, read, scan[i]) == Some(r) {
      RowsComeFromScan(spec, read, scan, r);
    }
    forall i | 0 <= i < |scan| && RowOf(spec, read, scan[i]).Some? ensures RowOf(spec, read, scan[i]).value in rows {
      ScanRowsAreProduced(spec, read, scan, i);
    }
  }

  lemma {:induction false} RowsGrow(spec: ScanSpec, read: FactRef -> Option<Event>, scan: seq<Event>, n: nat)
    requires n <= |scan|
    ensures RowsOf(spec, read, scan[..n]) <= RowsOf(spec, read, scan)
  {
    if n < |scan| {
      var before := scan[..|scan| - 1];
      RowsGrow(spec, read, before, n);
      assert before[..n] == scan[..n];
    } else {
      assert scan[..n] == scan;
    }
  }

  /** What the batcher holds once the events `seen` have been reconstructed. */
  ghost predicate HoldsRows(out: EventBatcher, spec: ScanSpec, read: FactRef -> Option<Event>, seen: seq<Event>)
    reads out
  {
    out.Valid() && out.maxRows.None? && out.sent + out.batch == RowsOf(spec, read, seen)
  }

  lemma RowsPush(spec: ScanSpec, read: FactRef -> Option<Event>, seen: seq<Event>, e: Event)
    ensures LastIdentity(spec, seen + [e]) == if InEntityRange(spec, e) then Some(e.ref) else LastIdentity(spec, seen)
    ensures RowsOf(spec, read, seen + [e]) == RowsOf(spec, read, seen) +
      (if RowOf(spec, read, e).Some? && LastIdentity(spec, seen) != Some(e.ref)
       then [RowOf(spec, read, e).value] else [])
  {
    assert (seen + [e])[..|seen|] == seen;
  }

  /** One scanned event: a point read, unless the event is out of range or its fact was just read. */
  method Reconstruct(spec: ScanSpec, read: FactRef -> Option<Event>, fails: FactRef -> bool, out: EventBatcher,
                     event: Event, last: Option<FactRef>, ghost seen: seq<Event>)
    returns (status: Status, identity: Option<FactRef>)
    requires HoldsRows(out, spec, read, seen) && last == LastIdentity(spec, seen)
    modifies out
    ensures identity == LastIdentity(spec, seen + [event])
    ensures status in {Ok, Rejected, ReadFailed}
    ensures status == Ok ==> HoldsRows(out, spec, read, seen + [event])
    ensures status != Ok ==> out.Delivered() && out.sent <= RowsOf(spec, read, seen)
    ensures status == Rejected ==> !out.accepts(|out.delivered|)
    ensures status == ReadFailed ==> InEntityRange(spec, event) && fails(event.ref)
  {
    RowsPush(spec, read, seen, event);
    status, identity := Ok, last;
    if !InEntityRange(spec, event) || last == Some(event.ref) { return; }
    identity := Some(event.ref);
    if fails(event.ref) { return ReadFailed, identity; }
    var row := read(event.ref);
    if row.Some? && MatchesScan(spec, row.value) {
      status := out.Append(row.value);
    }
  }

  /** `fails` says which point reads end in an error, which ends the scan. */
  method StateScan(spec: ScanSpec, read: FactRef -> Option<Event>, fails: FactRef -> bool, scan: seq<Event>,
                   accepts: nat -> bool)
    returns (status: Status, delivered: seq<seq<Event>>)
    ensures status in {Ok, InvalidArgument, Rejected, ReadFailed}
    ensures status == InvalidArgument <==> spec.batchRowLimit == 0
    ensures status == Ok ==> Concat(delivered) == RowsOf(spec, read, scan)
    ensures status != InvalidArgument ==> Concat(delivered) <= RowsOf(spec, read, scan)
    ensures status == Rejected ==> !accepts(|delivered|)
    ensures status == ReadFailed ==> exists i :: 0 <= i < |scan| && InEntityRange(spec, scan[i]) && fails(scan[i].ref)
    ensures Accepted(delivered, spec.batchRowLimit, accepts)
  {
    if spec.batchRowLimit == 0 { return InvalidArgument, []; }
    var out := new EventBatcher(spec.batchRowLimit, None, accepts);
    var last: Option<FactRef> := None;
    var i := 0;
    while i < |scan|
      invariant 0 <= i <= |scan| && fresh(out) && out.accepts == accepts && out.limit == spec.batchRowLimit
      invariant last == LastIdentity(spec, scan[..i]) && HoldsRows(out, spec, read, scan[..i])
    {
      assert scan[..i + 1] == scan[..i] + [scan[i]];
      status, last := Reconstruct(spec, read, fails, out, scan[i], last, scan[..i]);
      if status != Ok {
        RowsGrow(spec, read, scan, i);
        return status, out.delivered;
      }
      i := i + 1;
    }
    assert scan[..i] == scan;
    status := Ok;
    if out.batch != [] {
      var ok := out.Deliver();
      if !ok { status := Rejected; }
    }
    delivered := out.delivered;
  }
}
