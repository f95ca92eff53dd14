/**
 Read-your-writes: a transaction's overlay reader merges its staged mutations, stamped with
 the next commit sequence, into the committed history at its base snapshot.
 */
module Overlay {
  import opened Common
  import opened Facts
  import SnapshotReads

  // ---- staging ------------------------------------------------------------------------

  /** `wellFormed` is the outcome of the field checks that do not look at the fact family. */
  datatype Mutation = Mutation(ref: FactRef, validFrom: nat, op: Operation, payload: nat, wellFormed: bool)

  /** An edge identity; `payload` stands for its endpoints and type. */
  datatype Identity = Identity(part: nat, edge: U64, payload: nat, wellFormed: bool)

  datatype Status = Ok | InvalidArgument | IdentityConflict

  predicate ValidMutation(m: Mutation) { m.wellFormed && m.ref.family != EDGE_IDENTITY }

  predicate SameEdge(a: Identity, b: Identity) { a.part == b.part && a.edge == b.edge }

  ghost predicate IsStaged(mutations: seq<Mutation>, ref: FactRef, validFrom: nat) {
    exists i :: 0 <= i < |mutations| && mutations[i].ref == ref && mutations[i].validFrom == validFrom
  }

  /** A different identity is already staged for the same edge. */
  ghost predicate Conflicts(identities: seq<Identity>, identity: Identity) {
    exists i :: 0 <= i < |identities| && SameEdge(identities[i], identity) && identities[i] != identity
  }

  /** At most one mutation per fact and boundary, at most one identity per edge. */
  ghost predicate StagedOnce(mutations: seq<Mutation>, identities: seq<Identity>) {
    && (forall i :: 0 <= i < |mutations| ==> mutations[i].ref.family != EDGE_IDENTITY)
    && (forall i, j :: 0 <= i < j < |mutations| ==>
          mutations[i].ref != mutations[j].ref || mutations[i].validFrom != mutations[j].validFrom)
    && (forall i, j :: 0 <= i < j < |identities| ==> !SameEdge(identities[i], identities[j]))
  }

  class Transaction {
    var mutationKeys: set<(FactRef, nat)>
    var mutations: seq<Mutation>
    var identities: seq<Identity>

    constructor ()
      ensures Valid() && mutations == [] && identities == []
    {
      mutationKeys, mutations, identities := {}, [], [];
    }

    ghost predicate Valid()
      reads this
    {
      && (forall i :: 0 <= i < |mutations| ==> (mutations[i].ref, mutations[i].validFrom) in mutationKeys)
      && (forall k :: k in mutationKeys ==> IsStaged(mutations, k.0, k.1))
      && StagedOnce(mutations, identities)
    }

    /** Accepts a valid mutation exactly when no mutation of the same fact and boundary is staged. */
    method Stage(m: Mutation) returns (status: Status)
      requires Valid()
      modifies `mutationKeys, `mutations
      ensures Valid()
      ensures status == Ok <==> ValidMutation(m) && !IsStaged(old(mutations), m.ref, m.validFrom)
      ensures status in {Ok, InvalidArgument} && mutations == old(mutations) + (if status == Ok then [m] else [])
    {
      if !ValidMutation(m) || (m.ref, m.validFrom) in mutationKeys { return InvalidArgument; }
      mutationKeys := mutationKeys + {(m.ref, m.validFrom)};
      mutations := mutations + [m];
      assert mutations[|mutations| - 1] == m;
      assert forall i :: 0 <= i < |old(mutations)| ==> mutations[i] == old(mutations)[i];
      status := Ok;
    }

    /** Stages the edge state at a boundary and remembers the identity of the edge. */
    method StageEdge(identity: Identity, validTime: nat) returns (status: Status)
      requires Valid()
      modifies this
      ensures Valid()
      ensures status != Ok ==> mutations == old(mutations) && identities == old(identities)
      ensures status == Ok ==>
                && identity in identities
                && identities == old(identities) + (if identity in old(identities) then [] else [identity])
                && mutations == old(mutations) +
                     [Mutation(FactRef(identity.part, EDGE_STATE, 0, identity.edge), validTime, Put, 0, true)]
      ensures status == IdentityConflict <==> identity.wellFormed && Conflicts(old(identities), identity)
    {
      if !identity.wellFormed { return InvalidArgument; }
      var existing := 0;
      while existing < |identities| && !SameEdge(identities[existing], identity)
        invariant 0 <= existing <= |identities|
        invariant forall i :: 0 <= i < existing ==> !SameEdge(identities[i], identity)
      {
        existing := existing + 1;
      }
      if existing < |identities| && identities[existing] != identity { return IdentityConflict; }
      status := Stage(Mutation(FactRef(identity.part, EDGE_STATE, 0, identity.edge), validTime, Put, 0, true));
      if status == Ok && existing == |identities| { identities := identities + [identity]; }
    }
  }

  // ---- staged events ------------------------------------------------------------------

  function MutationEvent(m: Mutation, overlaySeq: nat): Event {
    Event(m.ref, m.validFrom, overlaySeq, m.op, m.payload)
  }

  function IdentityEvent(i: Identity, overlaySeq: nat): Event {
    Event(FactRef(i.part, EDGE_IDENTITY, 0, i.edge), 0, overlaySeq, Put, i.payload)
  }

  /** The events that committing the transaction alone would add at sequence `seq_`. */
  function StagedEvents(mutations: seq<Mutation>, identities: seq<Identity>, seq_: nat): seq<Event> {
    seq(|mutations|, i requires 0 <= i < |mutations| => MutationEvent(mutations[i], seq_)) +
    seq(|identities|, i requires 0 <= i < |identities| => IdentityEvent(identities[i], seq_))
  }

  predicate SameKey(a: Event, b: Event) { a.ref == b.ref && a.validFrom == b.validFrom && a.seq_ == b.seq_ }

  ghost predicate DistinctKeys(events: seq<Event>) {
    forall i, j :: 0 <= i < j < |events| ==> !SameKey(events[i], events[j])
  }

  lemma StagedDistinct(mutations: seq<Mutation>, identities: seq<Identity>, seq_: nat)
    requires StagedOnce(mutations, identities)
    ensures DistinctKeys(StagedEvents(mutations, identities, seq_))
  {
  }

  /** The matching events of a list, collected one at a time. */
  method Visit(spec: ReadSpec, events: seq<Event>) returns (visited: seq<Event>)
    ensures visited == Select(spec, events)
  {
    visited := [];
    var i := 0;
    while i < |events|
      invariant 0 <= i <= |events| && visited == Select(spec, events[..i])
    {
      assert events[..i + 1] == events[..i] + [events[i]];
      SelectPush(spec, events[..i], events[i]);
      if Matches(spec, events[i]) { visited := visited + [events[i]]; }
      i := i + 1;
    }
    assert events[..i] == events;
  }

  /** Streams the staged events that match, in staging order. */
  method VisitStaged(spec: ReadSpec, mutations: seq<Mutation>, identities: seq<Identity>, overlaySeq: nat)
    returns (visited: seq<Event>)
    ensures visited == Select(spec, StagedEvents(mutations, identities, overlaySeq))
  {
    var facts := seq(|mutations|, i requires 0 <= i < |mutations| => MutationEvent(mutations[i], overlaySeq));
    var edges := seq(|identities|, i requires 0 <= i < |identities| => IdentityEvent(identities[i], overlaySeq));
    SelectConcat(spec, facts, edges);
    visited := Visit(spec, facts);
    if spec.family == EDGE_IDENTITY {
      var more := Visit(spec, edges);
      visited := visited + more;
    } else {
      SelectNone(spec, edges);
    }
  }

  lemma {:induction false} SelectNone(spec: ReadSpec, events: seq<Event>)
    requires forall e :: e in events ==> !Matches(spec, e)
    ensures Select(spec, events) == []
  {
    if events != [] { SelectNone(spec, events[..|events| - 1]); }
  }

  // ---- canonical order ----------------------------------------------------------------

  predicate RefBefore(a: FactRef, b: FactRef) {
    if a.part != b.part then a.part < b.part
    else if a.family != b.family then a.family < b.family
    else if a.property != b.property then a.property < b.property
    else a.entity < b.entity
  }

  predicate Before(a: Event, b: Event) {
    if a.ref != b.ref then RefBefore(a.ref, b.ref)
    else if a.validFrom != b.validFrom then a.validFrom < b.validFrom
    else a.seq_ < b.seq_
  }

  ghost predicate Sorted(events: seq<Event>) {
    forall i, j :: 0 <= i < j < |events| ==> Before(events[i], events[j])
  }

  ghost predicate SameEvents(a: seq<Event>, b: seq<Event>) {
    forall e :: e in a <==> e in b
  }

  function Insert(events: seq<Event>, e: Event): seq<Event> {
    if events == [] || !Before(e, events[|events| - 1]) then events + [e]
    else Insert(events[..|events| - 1], e) + [events[|events| - 1]]
  }

  /** Sorting by the canonical order; equal keys keep their order. */
  function StableSort(events: seq<Event>): seq<Event> {
    if events == [] then [] else Insert(StableSort(events[..|events| - 1]), events[|events| - 1])
  }

  lemma {:induction false} InsertSorted(events: seq<Event>, e: Event)
    requires Sorted(events) && forall x :: x in events ==> !SameKey(x, e)
    ensures Sorted(Insert(events, e)) && |Insert(events, e)| == |events| + 1
    ensures forall x :: x in Insert(events, e) <==> x in events || x == e
  {
    if events != [] {
      var front, last := events[..|events| - 1], events[|events| - 1];
      assert events == front + [last];
      if Before(e, last) {
        InsertSorted(front, e);
        var inserted := Insert(front, e);
        forall i | 0 <= i < |inserted| ensures Before(inserted[i], last) {
          assert inserted[i] in inserted;
          assert inserted[i] in front ==> exists k :: 0 <= k < |front| && events[k] == inserted[i];
        }
      } else {
        assert forall i :: 0 <= i < |front| ==> Before(front[i], last);
        assert last in events;
      }
    }
  }

  lemma {:induction false} StableSortSorts(events: seq<Event>)
    requires DistinctKeys(events)
    ensures Sorted(StableSort(events)) && SameEvents(StableSort(events), events) && |StableSort(events)| == |events|
  {
    if events != [] {
      var front, last := events[..|events| - 1], events[|events| - 1];
      assert events == front + [last];
      StableSortSorts(front);
      InsertSorted(StableSort(front), last);
    }
  }

  lemma LastIsGreatest(events: seq<Event>)
    requires Sorted(events) && events != []
    ensures var m := |events| - 1;
            && Sorted(events[..m]) && events[m] !in events[..m]
            && (forall e :: e in events <==> e in events[..m] || e == events[m])
            && (forall e :: e in events[..m] ==> Before(e, events[m]))
  {
    var m := |events| - 1;
    assert events == events[..m] + [events[m]];
  }

  /** A set of events has one sorted arrangement. */
  lemma {:induction false} SortedUnique(a: seq<Event>, b: seq<Event>)
    requires Sorted(a) && Sorted(b) && SameEvents(a, b)
    ensures a == b
  {
    assert a == [] || a[0] in b;
    assert b == [] || b[0] in a;
    if a != [] && b != [] {
      var m, n := |a| - 1, |b| - 1;
      LastIsGreatest(a);
      LastIsGreatest(b);
      assert a[m] in b && b[n] in a;
      assert a[m] == b[n];
      SortedUnique(a[..m], b[..n]);
      assert a == a[..m] + [a[m]] && b == b[..n] + [b[n]];
    }
  }

  // ---- event reads --------------------------------------------------------------------

  /** Hands a list to a visitor in consecutive batches of at most `limit` rows, until it rejects one. */
  method InBatches(events: seq<Event>, limit: nat, accepts: nat -> bool)
    returns (status: SnapshotReads.Status, delivered: seq<seq<Event>>)
    requires limit > 0
    ensures status in {SnapshotReads.Ok, SnapshotReads.Rejected}
    ensures status == SnapshotReads.Ok ==> Concat(delivered) == events
    ensures status == SnapshotReads.Rejected ==> Concat(delivered) <= events && !accepts(|delivered|)
    ensures SnapshotReads.Accepted(delivered, limit, accepts)
  {
    delivered := [];
    var offset := 0;
    while offset < |events|
      invariant 0 <= offset <= |events| && Concat(delivered) == events[..offset]
      invariant SnapshotReads.Accepted(delivered, limit, accepts)
    {
      if !accepts(|delivered|) { return SnapshotReads.Rejected, delivered; }
      var count := if limit < |events| - offset then limit else |events| - offset;
      var batch := events[offset..offset + count];
      ConcatPush(delivered, batch);
      assert events[..offset] + batch == events[..offset + count];
      delivered := delivered + [batch];
      offset := offset + count;
    }
    assert events[..offset] == events;
    status := SnapshotReads.Ok;
  }

  /** The rows the merge gets to see: the base cut in scan order, and every matching staged event. */
  function Reached(spec: ReadSpec, scanned: seq<Event>, staged: seq<Event>): seq<Event> {
    SnapshotReads.Expected(spec, scanned) + Select(spec, staged)
  }

  /** What the overlay reader delivers over a base scan, before batching. */
  function OverlayRows(spec: ReadSpec, scanned: seq<Event>, staged: seq<Event>): seq<Event> {
    Capped(spec.maxRows, StableSort(Reached(spec, scanned, staged)))
  }

  method ReadEvents(spec: ReadSpec, scans: seq<seq<Event>>, mutations: seq<Mutation>, identities: seq<Identity>,
                    overlaySeq: nat, accepts: nat -> bool)
    returns (status: SnapshotReads.Status, delivered: seq<seq<Event>>)
    ensures status == SnapshotReads.InvalidArgument <==> spec.batchRowLimit == 0
    ensures status in {SnapshotReads.Ok, SnapshotReads.InvalidArgument, SnapshotReads.Rejected}
    ensures var rows := OverlayRows(spec, Concat(scans), StagedEvents(mutations, identities, overlaySeq));
            && (status == SnapshotReads.Ok ==> Concat(delivered) == rows)
            && (status == SnapshotReads.Rejected ==> Concat(delivered) <= rows && !accepts(|delivered|))
    ensures SnapshotReads.Accepted(delivered, spec.batchRowLimit, accepts)
  {
    if spec.batchRowLimit == 0 { return SnapshotReads.InvalidArgument, []; }
    if spec.maxRows == Some(0) { return SnapshotReads.Ok, []; }
    var _, base := SnapshotReads.ReadEvents(spec, scans, _ => true);
    var visited := VisitStaged(spec, mutations, identities, overlaySeq);
    var events := StableSort(Concat(base) + visited);
    status, delivered := InBatches(Capped(spec.maxRows, events), spec.batchRowLimit, accepts);
  }

  /** The history a reader would see had the transaction committed alone at the next sequence. */
  ghost predicate CommittedAlone(history: seq<Event>, base: nat, staged: seq<Event>, committed: seq<Event>) {
    && DistinctKeys(history) && (forall e :: e in history ==> e.seq_ <= base)
    && DistinctKeys(committed) && (forall e :: e in committed <==> e in history || e in staged)
  }

  lemma {:induction false} SelectDistinct(spec: ReadSpec, events: seq<Event>)
    requires DistinctKeys(events)
    ensures DistinctKeys(Select(spec, events))
  {
    if events != [] {
      var front, last := events[..|events| - 1], events[|events| - 1];
      SelectDistinct(spec, front);
      SelectMembers(spec, front);
      var kept := Select(spec, front);
      forall i | 0 <= i < |kept| ensures !SameKey(kept[i], last) {
        assert kept[i] in front;
      }
    }
  }

  lemma MergedDistinct(base: nat, a: seq<Event>, b: seq<Event>)
    requires DistinctKeys(a) && DistinctKeys(b)
    requires forall e :: e in a ==> e.seq_ <= base
    requires forall e :: e in b ==> e.seq_ == base + 1
    ensures DistinctKeys(a + b)
  {
    forall i, j | 0 <= i < |a| && 0 <= j < |b| ensures !SameKey(a[i], b[j]) {
      assert a[i] in a && b[j] in b;
    }
  }

  /**
   An uncapped overlay read delivers, in canonical order, exactly what a reader at base + 1
   would select had the transaction committed alone, whatever order that reader scans in.
   */
  lemma ReadYourWrites(spec: ReadSpec, history: seq<Event>, base: nat,
                       mutations: seq<Mutation>, identities: seq<Identity>, committed: seq<Event>)
    requires StagedOnce(mutations, identities) && spec.maxRows.None?
    requires CommittedAlone(history, base, StagedEvents(mutations, identities, base + 1), committed)
    ensures var rows := OverlayRows(spec, history, StagedEvents(mutations, identities, base + 1));
            && rows == StableSort(Select(spec, committed)) && Sorted(rows)
            && forall e :: e in rows <==> e in committed && Matches(spec, e)
  {
    var staged := StagedEvents(mutations, identities, base + 1);
    StagedDistinct(mutations, identities, base + 1);
    MergedRows(spec, history, base, staged, committed);
  }

  lemma MergedRows(spec: ReadSpec, history: seq<Event>, base: nat, staged: seq<Event>, committed: seq<Event>)
    requires CommittedAlone(history, base, staged, committed)
    requires DistinctKeys(staged) && forall e :: e in staged ==> e.seq_ == base + 1
    ensures var rows := StableSort(Select(spec, history) + Select(spec, staged));
            && rows == StableSort(Select(spec, committed)) && Sorted(rows)
            && forall e :: e in rows <==> e in committed && Matches(spec, e)
  {
    var left, right := Select(spec, history), Select(spec, staged);
    SelectMembers(spec, history); SelectMembers(spec, staged); SelectMembers(spec, committed);
    SelectDistinct(spec, history); SelectDistinct(spec, staged); SelectDistinct(spec, committed);
    MergedDistinct(base, left, right);
    StableSortSorts(left + right);
    StableSortSorts(Select(spec, committed));
    SortedUnique(StableSort(left + right), StableSort(Select(spec, committed)));
  }

  // ---- capped event reads ---------------------------------------------------------------

  /** The order of encoded fact keys, in which the store scans: facts ascending, newest event first. */
  predicate KeyBefore(a: Event, b: Event) {
    if a.ref != b.ref then RefBefore(a.ref, b.ref)
    else if a.validFrom != b.validFrom then a.validFrom > b.validFrom
    else a.seq_ > b.seq_
  }

  /** The scan order or the canonical order. */
  predicate Precedes(scan: bool, a: Event, b: Event) { if scan then KeyBefore(a, b) else Before(a, b) }

  ghost predicate SortedBy(scan: bool, events: seq<Event>) {
    forall i, j :: 0 <= i < j < |events| ==> Precedes(scan, events[i], events[j])
  }

  ghost function Elements(events: seq<Event>): set<Event> { set e | e in events }

  ghost function Preceding(scan: bool, rows: set<Event>, e: Event): set<Event> {
    set x | x in rows && Precedes(scan, x, e)
  }

  ghost function Below(rows: set<Event>, ref: FactRef): set<Event> { set e | e in rows && RefBefore(e.ref, ref) }

  ghost function UpTo(rows: set<Event>, ref: FactRef): set<Event> {
    set e | e in rows && (e.ref == ref || RefBefore(e.ref, ref))
  }

  /** The cap falls strictly inside the rows of this fact. */
  ghost predicate CutsFact(rows: set<Event>, cap: nat, ref: FactRef) { |Below(rows, ref)| < cap < |UpTo(rows, ref)| }

  lemma ElementsPush(events: seq<Event>, e: Event)
    requires e !in events
    ensures |Elements(events + [e])| == |Elements(events)| + 1
  {
    assert Elements(events + [e]) == Elements(events) + {e};
  }

  lemma {:induction false} ElementsCount(scan: bool, events: seq<Event>, n: nat)
    requires SortedBy(scan, events) && n <= |events|
    ensures |Elements(events[..n])| == n
  {
    if n > 0 {
      var front, last := events[..n - 1], events[n - 1];
      ElementsCount(scan, events, n - 1);
      forall k | 0 <= k < |front| ensures front[k] != last {
        assert Precedes(scan, events[k], last);
      }
      ElementsPush(front, last);
      assert events[..n] == front + [last];
    }
  }

  /** In a sorted list the elements before position `i` are those that precede the one there. */
  lemma PrecedingAt(scan: bool, events: seq<Event>, i: nat)
    requires SortedBy(scan, events) && i < |events|
    ensures |Preceding(scan, Elements(events), events[i])| == i
  {
    assert Preceding(scan, Elements(events), events[i]) == Elements(events[..i]);
    ElementsCount(scan, events, i);
  }

  /** Being within the cap of a sorted list is having fewer than `cap` elements before. */
  lemma CappedByRank(scan: bool, events: seq<Event>, cap: nat, e: Event)
    requires SortedBy(scan, events) && e in events
    ensures e in Capped(Some(cap), events) <==> |Preceding(scan, Elements(events), e)| < cap
  {
    var i :| 0 <= i < |events| && events[i] == e;
    var kept := Capped(Some(cap), events);
    PrecedingAt(scan, events, i);
    forall k | 0 <= k < |kept| && k < i ensures kept[k] != e {
      assert Precedes(scan, events[k], events[i]);
    }
    assert i < |kept| ==> kept[i] == e;
  }

  lemma SubsetCount<T>(a: set<T>, b: set<T>)
    requires a <= b
    ensures |a| <= |b|
  {
    assert b == a + (b - a);
  }

  lemma Extra<T>(a: set<T>, b: set<T>) returns (x: T)
    requires a <= b && |a| < |b|
    ensures x in b && x !in a
  {
    assert b == a + (b - a);
    x :| x in b - a;
  }

  /** Both orders rank a row between the facts before its own and its whole fact. */
  lemma RankInFact(scan: bool, rows: set<Event>, e: Event)
    requires e in rows
    ensures |Below(rows, e.ref)| <= |Preceding(scan, rows, e)| < |UpTo(rows, e.ref)|
  {
    SubsetCount(Below(rows, e.ref), Preceding(scan, rows, e));
    SubsetCount(Preceding(scan, rows, e), UpTo(rows, e.ref) - {e});
    assert |UpTo(rows, e.ref) - {e}| == |UpTo(rows, e.ref)| - 1;
  }

  lemma {:induction false} SelectSorted(scan: bool, spec: ReadSpec, events: seq<Event>)
    requires SortedBy(scan, events)
    ensures SortedBy(scan, Select(spec, events))
  {
    if events != [] {
      var front, last := events[..|events| - 1], events[|events| - 1];
      SelectSorted(scan, spec, front);
      SelectMembers(spec, front);
      var kept := Select(spec, front);
      forall i | 0 <= i < |kept| ensures Precedes(scan, kept[i], last) {
        assert kept[i] in front;
      }
    }
  }

  /** A durable row beyond the cap of the base scan has `cap` reached rows before it. */
  lemma BeyondBase(cap: nat, scanned: seq<Event>, e: Event, rows: set<Event>)
    requires SortedBy(true, scanned) && e in scanned && e !in Capped(Some(cap), scanned)
    requires Elements(Capped(Some(cap), scanned)) <= rows
    ensures |Preceding(true, rows, e)| >= cap
  {
    var i :| 0 <= i < |scanned| && scanned[i] == e;
    var kept := Capped(Some(cap), scanned);
    assert forall k :: 0 <= k < |kept| ==> kept[k] == scanned[k] && kept[k] in kept;
    ElementsCount(true, scanned, cap);
    SubsetCount(Elements(scanned[..cap]), Preceding(true, rows, e));
  }

  /** Leaving out durable rows beyond the base's cap does not move a rank across the cap. */
  lemma RankWithoutBeyond(cap: nat, scanned: seq<Event>, rows: set<Event>, full: set<Event>, e: Event)
    requires SortedBy(true, scanned) && Elements(Capped(Some(cap), scanned)) <= rows <= full
    requires forall x :: x in full ==> x in rows || x in scanned
    ensures |Preceding(true, rows, e)| < cap <==> |Preceding(true, full, e)| < cap
  {
    SubsetCount(Preceding(true, rows, e), Preceding(true, full, e));
    if Preceding(true, full, e) <= rows {
      assert Preceding(true, full, e) == Preceding(true, rows, e);
    } else {
      var x :| x in Preceding(true, full, e) && x !in rows;
      BeyondBase(cap, scanned, x, rows);
      SubsetCount(Preceding(true, rows, x), Preceding(true, rows, e));
    }
  }

  /** The capped committed read consists of the reached rows that rank within the cap in scan order. */
  lemma CommittedByRank(cap: nat, scanned: seq<Event>, right: seq<Event>, all: seq<Event>, e: Event)
    requires SortedBy(true, scanned) && SortedBy(true, all)
    requires forall x :: x in all <==> x in scanned || x in right
    ensures var rows := Elements(Capped(Some(cap), scanned) + right);
            e in Capped(Some(cap), all) <==> e in rows && |Preceding(true, rows, e)| < cap
  {
    var base, full := Capped(Some(cap), scanned), Elements(all);
    var rows := Elements(base + right);
    assert forall x :: x in base ==> x in scanned;
    assert Elements(base) <= rows <= full;
    if e in all {
      CappedByRank(true, all, cap, e);
      RankWithoutBeyond(cap, scanned, rows, full, e);
      if e !in rows { BeyondBase(cap, scanned, e, rows); }
    } else {
      assert forall x :: x in Capped(Some(cap), all) ==> x in all;
    }
  }

  /** If no fact is cut, both orders keep the same rows. */
  lemma UncutAgrees(rows: set<Event>, cap: nat, e: Event)
    requires e in rows && !CutsFact(rows, cap, e.ref)
    ensures |Preceding(true, rows, e)| < cap <==> |Preceding(false, rows, e)| < cap
  {
    RankInFact(true, rows, e);
    RankInFact(false, rows, e);
  }

  /** The first row of a fact in canonical order is its oldest, and the last of the fact in scan order. */
  lemma OldestOfFact(sorted: seq<Event>, i: nat, rows: set<Event>)
    requires SortedBy(false, sorted) && i < |sorted| && rows == Elements(sorted)
    requires forall k :: 0 <= k < i ==> sorted[k].ref != sorted[i].ref
    ensures |Preceding(false, rows, sorted[i])| == |Below(rows, sorted[i].ref)|
    ensures |Preceding(true, rows, sorted[i])| == |UpTo(rows, sorted[i].ref)| - 1
  {
    var e := sorted[i];
    forall x | x in rows && x.ref == e.ref && x != e ensures Before(e, x) {
      var k :| 0 <= k < |sorted| && sorted[k] == x;
    }
    assert Preceding(false, rows, e) == Below(rows, e.ref);
    assert Preceding(true, rows, e) == UpTo(rows, e.ref) - {e};
  }

  /** The oldest row of a cut fact is kept by the canonical order and dropped by the scan order. */
  lemma CutDisagrees(sorted: seq<Event>, rows: set<Event>, cap: nat, ref: FactRef) returns (e: Event)
    requires SortedBy(false, sorted) && rows == Elements(sorted) && CutsFact(rows, cap, ref)
    ensures e in sorted && |Preceding(false, rows, e)| < cap <= |Preceding(true, rows, e)|
  {
    var member := Extra(Below(rows, ref), UpTo(rows, ref));
    var p :| 0 <= p < |sorted| && sorted[p] == member;
    var i := 0;
    while sorted[i].ref != ref
      invariant 0 <= i <= p && forall k :: 0 <= k < i ==> sorted[k].ref != ref
      decreases p - i
    {
      i := i + 1;
    }
    OldestOfFact(sorted, i, rows);
    e := sorted[i];
  }

  /**
   A capped overlay read delivers the rows of the capped committed read, which cuts in scan
   order, exactly when the cap does not fall inside one fact of the rows the merge sees.
   */
  lemma CappedReadAgrees(spec: ReadSpec, cap: nat, history: seq<Event>, base: nat,
                         mutations: seq<Mutation>, identities: seq<Identity>, committed: seq<Event>)
    requires StagedOnce(mutations, identities) && spec.maxRows == Some(cap)
    requires CommittedAlone(history, base, StagedEvents(mutations, identities, base + 1), committed)
    requires SortedBy(true, history) && SortedBy(true, committed)
    ensures var staged := StagedEvents(mutations, identities, base + 1);
            SameEvents(OverlayRows(spec, history, staged), SnapshotReads.Expected(spec, committed)) <==>
              forall ref :: !CutsFact(Elements(Reached(spec, history, staged)), cap, ref)
  {
    var staged := StagedEvents(mutations, identities, base + 1);
    StagedDistinct(mutations, identities, base + 1);
    ReachedDistinct(spec, history, base, staged);
    CappedRowsAgree(spec, cap, history, staged, committed);
  }

  lemma ReachedDistinct(spec: ReadSpec, history: seq<Event>, base: nat, staged: seq<Event>)
    requires DistinctKeys(history) && DistinctKeys(staged)
    requires forall e :: e in history ==> e.seq_ <= base
    requires forall e :: e in staged ==> e.seq_ == base + 1
    ensures DistinctKeys(Reached(spec, history, staged))
  {
    SelectMembers(spec, history); SelectMembers(spec, staged);
    SelectDistinct(spec, history); SelectDistinct(spec, staged);
    var scanned := SnapshotReads.Expected(spec, history);
    assert forall e :: e in scanned ==> e in Select(spec, history);
    MergedDistinct(base, scanned, Select(spec, staged));
  }

  lemma CappedRowsAgree(spec: ReadSpec, cap: nat, history: seq<Event>, staged: seq<Event>, committed: seq<Event>)
    requires spec.maxRows == Some(cap) && DistinctKeys(Reached(spec, history, staged))
    requires SortedBy(true, history) && SortedBy(true, committed)
    requires forall e :: e in committed <==> e in history || e in staged
    ensures SameEvents(OverlayRows(spec, history, staged), SnapshotReads.Expected(spec, committed)) <==>
              forall ref :: !CutsFact(Elements(Reached(spec, history, staged)), cap, ref)
  {
    var reached := Reached(spec, history, staged);
    var rows, sorted := Elements(reached), StableSort(reached);
    StableSortSorts(reached);
    assert SortedBy(false, sorted) && Elements(sorted) == rows;
    forall e ensures e in OverlayRows(spec, history, staged) <==> e in rows && |Preceding(false, rows, e)| < cap {
      if e in sorted { CappedByRank(false, sorted, cap, e); }
    }
    SelectMembers(spec, history); SelectMembers(spec, staged); SelectMembers(spec, committed);
    SelectSorted(true, spec, history);
    SelectSorted(true, spec, committed);
    forall e
      ensures e in SnapshotReads.Expected(spec, committed) <==> e in rows && |Preceding(true, rows, e)| < cap
    {
      CommittedByRank(cap, Select(spec, history), Select(spec, staged), Select(spec, committed), e);
    }
    if ref :| CutsFact(rows, cap, ref) {
      var e := CutDisagrees(sorted, rows, cap, ref);
    } else {
      forall e | e in rows ensures |Preceding(true, rows, e)| < cap <==> |Preceding(false, rows, e)| < cap {
        UncutAgrees(rows, cap, e);
      }
    }
  }

  lemma SortedPair(a: Event, b: Event)
    requires Before(b, a)
    ensures StableSort([a, b]) == [b, a]
  {
    assert [a, b][..1] == [a] && [a][..0] == [];
    assert StableSort([a]) == [a] && Insert([], b) == [b];
  }

  lemma SelectBoth(spec: ReadSpec, a: Event, b: Event)
    requires Matches(spec, a) && Matches(spec, b)
    ensures Select(spec, [a]) == [a] && Select(spec, [b]) == [b] && Select(spec, [a, b]) == [a, b]
  {
    SelectPush(spec, [], a);
    SelectPush(spec, [], b);
    SelectPush(spec, [a], b);
    assert [] + [a] == [a] && [] + [b] == [b] && [a] + [b] == [a, b];
  }

  /** A durable boundary and an earlier staged one of the same fact, with room for one row. */
  lemma CappedReadCanDisagree(later: Event, earlier: Event)
    requires later.ref == earlier.ref == FactRef(0, 1, 0, 7) && earlier.validFrom < later.validFrom
    ensures var spec := ReadSpec(AllParts, 1, 0, None, None, None, None, None, None, 1, Some(1));
            && SortedBy(true, [later, earlier])
            && OverlayRows(spec, [later], [earlier]) == [earlier]
            && SnapshotReads.Expected(spec, [later, earlier]) == [later]
  {
    var spec := ReadSpec(AllParts, 1, 0, None, None, None, None, None, None, 1, Some(1));
    SelectBoth(spec, later, earlier);
    SortedPair(later, earlier);
    assert Reached(spec, [later], [earlier]) == [later, earlier];
    assert [later, earlier][..1] == [later] && [earlier, later][..1] == [earlier];
  }

  // ---- point reads --------------------------------------------------------------------

  predicate Later(a: Event, b: Event) {
    a.validFrom > b.validFrom || (a.validFrom == b.validFrom && a.seq_ >= b.seq_)
  }

  /** The event in force at a time: latest boundary not after it, then latest sequence. */
  function Winner(events: seq<Event>, ref: FactRef, time: nat): Option<Event> {
    if events == [] then None else
      var best, e := Winner(events[..|events| - 1], ref, time), events[|events| - 1];
      if e.ref == ref && e.validFrom <= time && (best.None? || Later(e, best.value)) then Some(e) else best
  }

  ghost predicate Candidate(e: Event, ref: FactRef, time: nat) { e.ref == ref && e.validFrom <= time }

  /** The winner is a candidate that no other candidate comes after. */
  lemma {:induction false} WinnerIsLatest(events: seq<Event>, ref: FactRef, time: nat)
    ensures var w := Winner(events, ref, time);
            && (w.Some? ==> w.value in events && Candidate(w.value, ref, time))
            && (forall e :: e in events && Candidate(e, ref, time) ==> w.Some? && Later(w.value, e))
  {
    if events != [] {
      WinnerIsLatest(events[..|events| - 1], ref, time);
      assert events == events[..|events| - 1] + [events[|events| - 1]];
    }
  }

  /** What a state is to a reader: a deleted fact is absent. */
  function Present(e: Option<Event>): Option<Event> {
    if e.Some? && e.value.op == Put then e else None
  }

  /** The store's point read. */
  function StoreRead(history: seq<Event>, ref: FactRef, time: nat): Option<Event> {
    Present(Winner(history, ref, time))
  }

  /** The staged event that replaces the durable state, if any. */
  function StagedWinner(durable: Option<Event>, staged: seq<Event>, time: nat): Option<Event> {
    if staged == [] then None else
      var best, e := StagedWinner(durable, staged[..|staged| - 1], time), staged[|staged| - 1];
      var candidate := if best.Some? then best else durable;
      if e.validFrom <= time && (candidate.None? || Later(e, candidate.value)) then Some(e) else best
  }

  /** The overlay point read over the store's answer and the matching staged events. */
  function OverlayState(durable: Option<Event>, staged: seq<Event>, time: nat): Option<Event> {
    var best := StagedWinner(durable, staged, time);
    if best.Some? then best else durable
  }

  method ReadStateAt(durable: Option<Event>, spec: ReadSpec, mutations: seq<Mutation>, identities: seq<Identity>,
                     overlaySeq: nat, time: nat)
    returns (winner: Option<Event>)
    ensures winner == OverlayState(durable, Select(spec, StagedEvents(mutations, identities, overlaySeq)), time)
  {
    var visited := VisitStaged(spec, mutations, identities, overlaySeq);
    var best: Option<Event> := None;
    var i := 0;
    while i < |visited|
      invariant 0 <= i <= |visited| && best == StagedWinner(durable, visited[..i], time)
    {
      var e := visited[i];
      var candidate := if best.Some? then best else durable;
      assert visited[..i + 1][..i] == visited[..i];
      if e.validFrom <= time && (candidate.None? || Later(e, candidate.value)) { best := Some(e); }
      i := i + 1;
    }
    assert visited[..i] == visited;
    winner := if best.Some? then best else durable;
  }

  /** A staged event replaces the durable state exactly when it is the staged winner and comes later. */
  lemma {:induction false} StagedWinnerIs(durable: Option<Event>, staged: seq<Event>, ref: FactRef, time: nat)
    requires forall e :: e in staged ==> e.ref == ref
    ensures var w := Winner(staged, ref, time);
            StagedWinner(durable, staged, time) ==
              if w.Some? && (durable.None? || Later(w.value, durable.value)) then w else None
  {
    if staged != [] {
      StagedWinnerIs(durable, staged[..|staged| - 1], ref, time);
      assert staged[|staged| - 1] in staged;
    }
  }

  /** The later of a durable and a staged state; a staged event at the same boundary wins. */
  function Latest(durable: Option<Event>, staged: Option<Event>): Option<Event> {
    if staged.Some? && (durable.None? || Later(staged.value, durable.value)) then staged else durable
  }

  /** Committing first and reading the store resolves to the later of the two winners. */
  lemma {:induction false} WinnerOfConcat(history: seq<Event>, staged: seq<Event>, ref: FactRef, time: nat)
    ensures Winner(history + staged, ref, time) == Latest(Winner(history, ref, time), Winner(staged, ref, time))
  {
    if staged == [] {
      assert history + staged == history;
    } else {
      WinnerOfConcat(history, staged[..|staged| - 1], ref, time);
      assert (history + staged)[..|history + staged| - 1] == history + staged[..|staged| - 1];
      WinnerIsLatest(staged[..|staged| - 1], ref, time);
    }
  }

  /** A point read names one fact; it may still filter that fact's events. */
  ghost predicate ExactOn(spec: ReadSpec, ref: FactRef) { forall r :: Covers(spec, r) <==> r == ref }

  /** What the point reader accepts: one part and one entity, where the largest id needs no upper bound. */
  predicate NamesOneFact(spec: ReadSpec, part: nat, entity: U64) {
    && spec.scope == Parts([part]) && spec.entityMin == Some(entity)
    && (spec.entityMaxExclusive == Some(entity + 1) || (entity == U64_MAX && spec.entityMaxExclusive == None))
  }

  /** Every accepted specification, the largest id included, names exactly one fact. */
  lemma AcceptedIsExact(spec: ReadSpec, part: nat, entity: U64)
    requires NamesOneFact(spec, part, entity)
    ensures ExactOn(spec, FactRef(part, spec.family, spec.property, entity))
  {
    assert forall p :: p in [part] <==> p == part;
  }

  predicate Unfiltered(spec: ReadSpec) {
    spec.validFromMin.None? && spec.validFromMax.None? && spec.seqMin.None? && spec.seqMax.None?
  }

  /** What the overlay's point read answers, given the durable winner and the visible staged winner. */
  function Overlaid(durable: Option<Event>, visible: Option<Event>): Option<Event> { Latest(Present(durable), visible) }

  /** The overlay's loop takes the later of the store's answer and the staged winner the filter lets through. */
  lemma OverlayStateIs(spec: ReadSpec, history: seq<Event>, staged: seq<Event>, ref: FactRef, time: nat)
    requires ExactOn(spec, ref)
    ensures OverlayState(StoreRead(history, ref, time), Select(spec, staged), time)
         == Overlaid(Winner(history, ref, time), Winner(Select(spec, staged), ref, time))
  {
    SelectMembers(spec, staged);
    StagedWinnerIs(StoreRead(history, ref, time), Select(spec, staged), ref, time);
  }

  /** A durable deletion is in force, and the overlay shows an earlier staged assertion instead. */
  predicate HiddenByDeletion(durable: Option<Event>, staged: Option<Event>, visible: Option<Event>) {
    && durable.Some? && durable.value.op == Delete && visible.Some? && visible.value.op == Put
    && Latest(durable, staged) == durable
  }

  /** One of the two winners is an assertion that the other neither replaces nor ends. */
  predicate AssertionLeft(durable: Option<Event>, visible: Option<Event>) {
    || (visible.Some? && visible.value.op == Put
        && (durable.None? || durable.value.op == Delete || Later(visible.value, durable.value)))
    || (durable.Some? && durable.value.op == Put && (visible.None? || !Later(visible.value, durable.value)))
  }

  /** The staged event in force is filtered out, and it is an assertion or it ends one that is left. */
  predicate HiddenByFilter(durable: Option<Event>, staged: Option<Event>, visible: Option<Event>) {
    && staged.Some? && Latest(durable, staged) == staged && visible != staged
    && (staged.value.op == Put || AssertionLeft(durable, visible))
  }

  /** The agreement of the two winners, by cases on the three states. */
  lemma WinnersAgree(durable: Option<Event>, staged: Option<Event>, visible: Option<Event>, base: nat)
    requires durable.Some? ==> durable.value.seq_ <= base
    requires staged.Some? ==> staged.value.seq_ == base + 1
    requires visible.Some? ==> visible.value.seq_ == base + 1 && staged.Some? && Later(staged.value, visible.value)
    ensures Present(Overlaid(durable, visible)) == Present(Latest(durable, staged)) <==>
              !HiddenByDeletion(durable, staged, visible) && !HiddenByFilter(durable, staged, visible)
  {
  }

  /** Winners come from the lists they are taken from; what a filter lets through is no later. */
  lemma WinnersBySequence(spec: ReadSpec, history: seq<Event>, base: nat, staged: seq<Event>, ref: FactRef, time: nat)
    requires forall e :: e in history ==> e.seq_ <= base
    requires forall e :: e in staged ==> e.seq_ == base + 1
    ensures var d, s := Winner(history, ref, time), Winner(staged, ref, time);
            var v := Winner(Select(spec, staged), ref, time);
            && (d.Some? ==> d.value.seq_ <= base) && (s.Some? ==> s.value.seq_ == base + 1)
            && (v.Some? ==> v.value.seq_ == base + 1 && s.Some? && Later(s.value, v.value))
  {
    WinnerIsLatest(history, ref, time);
    WinnerIsLatest(staged, ref, time);
    WinnerIsLatest(Select(spec, staged), ref, time);
    SelectMembers(spec, staged);
  }

  /**
   For every specification that names one fact, the overlay's point read shows the state that
   a reader at base + 1 would see had the transaction committed alone, exactly when neither a
   durable deletion nor the specification's own filter hides the event in force. Both sides
   are compared as states: the overlay answers a staged deletion with the deletion itself.
   */
  lemma OverlayStateAgrees(spec: ReadSpec, history: seq<Event>, base: nat, mutations: seq<Mutation>,
                           identities: seq<Identity>, ref: FactRef, time: nat)
    requires ExactOn(spec, ref) && forall e :: e in history ==> e.seq_ <= base
    ensures var staged := StagedEvents(mutations, identities, base + 1);
            var d, s := Winner(history, ref, time), Winner(staged, ref, time);
            var v := Winner(Select(spec, staged), ref, time);
            Present(OverlayState(StoreRead(history, ref, time), Select(spec, staged), time))
              == StoreRead(history + staged, ref, time)
            <==> !HiddenByDeletion(d, s, v) && !HiddenByFilter(d, s, v)
  {
    var staged := StagedEvents(mutations, identities, base + 1);
    OverlayStateIs(spec, history, staged, ref, time);
    WinnerOfConcat(history, staged, ref, time);
    WinnersBySequence(spec, history, base, staged, ref, time);
    WinnersAgree(Winner(history, ref, time), Winner(staged, ref, time), Winner(Select(spec, staged), ref, time), base);
  }

  lemma WinnerPush(events: seq<Event>, e: Event, ref: FactRef, time: nat)
    ensures Winner(events + [e], ref, time) ==
              if Candidate(e, ref, time) then Latest(Winner(events, ref, time), Some(e)) else Winner(events, ref, time)
  {
    assert (events + [e])[..|events|] == events;
  }

  /** Without filters the overlay sees the staged winner itself. */
  lemma {:induction false} UnfilteredWinner(spec: ReadSpec, events: seq<Event>, ref: FactRef, time: nat)
    requires ExactOn(spec, ref) && Unfiltered(spec)
    ensures Winner(Select(spec, events), ref, time) == Winner(events, ref, time)
  {
    if events != [] {
      var front, last := events[..|events| - 1], events[|events| - 1];
      assert events == front + [last];
      UnfilteredWinner(spec, front, ref, time);
      WinnerPush(front, last, ref, time);
      assert Matches(spec, last) <==> last.ref == ref;
      if Matches(spec, last) {
        WinnerPush(Select(spec, front), last, ref, time);
      } else {
        assert Select(spec, events) == Select(spec, front);
      }
    }
  }

  /**
   Where the specification does not filter, and the durable state is present or has no boundary
   yet, the overlay picks the very event a committed reader resolves to.
   */
  lemma OverlayPicksTheWinner(spec: ReadSpec, history: seq<Event>, base: nat, mutations: seq<Mutation>,
                              identities: seq<Identity>, ref: FactRef, time: nat)
    requires ExactOn(spec, ref) && Unfiltered(spec)
    requires StoreRead(history, ref, time).Some? || Winner(history, ref, time).None?
    ensures var staged := StagedEvents(mutations, identities, base + 1);
            OverlayState(StoreRead(history, ref, time), Select(spec, staged), time) ==
            Winner(history + staged, ref, time)
  {
    var staged := StagedEvents(mutations, identities, base + 1);
    OverlayStateIs(spec, history, staged, ref, time);
    UnfilteredWinner(spec, staged, ref, time);
    WinnerOfConcat(history, staged, ref, time);
  }

  /** A point read of fact (0, 1, 0, 7). */
  function PointSpec(validFromMin: Option<nat>, validFromMax: Option<nat>): ReadSpec {
    ReadSpec(Parts([0]), 1, 0, Some(7), Some(8), validFromMin, validFromMax, None, None, 1, None)
  }

  lemma OneEvent(spec: ReadSpec, e: Event, time: nat)
    ensures Select(spec, [e]) == if Matches(spec, e) then [e] else []
    ensures Winner([e], e.ref, time) == if e.validFrom <= time then Some(e) else None
  {
    SelectPush(spec, [], e);
    assert [] + [e] == [e] && [e][..0] == [];
  }

  /** A fact deleted at 10 and staged again from 5: the overlay shows it at 20, a committed reader does not. */
  lemma OverlayCanDisagree()
    ensures var ref := FactRef(0, 1, 0, 7);
            var history, staged := [Event(ref, 10, 3, Delete, 0)], [Event(ref, 5, 4, Put, 1)];
            && OverlayState(StoreRead(history, ref, 20), Select(PointSpec(None, None), staged), 20) == Some(staged[0])
            && StoreRead(history + staged, ref, 20) == None
  {
    var ref := FactRef(0, 1, 0, 7);
    var history, staged := [Event(ref, 10, 3, Delete, 0)], [Event(ref, 5, 4, Put, 1)];
    AcceptedIsExact(PointSpec(None, None), 0, 7);
    OverlayStateIs(PointSpec(None, None), history, staged, ref, 20);
    WinnerOfConcat(history, staged, ref, 20);
    OneEvent(PointSpec(None, None), history[0], 20);
    OneEvent(PointSpec(None, None), staged[0], 20);
  }

  /** A fact staged from 10 and read at 20 with a lower bound of 15 on boundaries: the overlay shows nothing. */
  lemma FilteredReadCanDisagree()
    ensures var ref := FactRef(0, 1, 0, 7);
            var staged := [Event(ref, 10, 4, Put, 1)];
            && OverlayState(StoreRead([], ref, 20), Select(PointSpec(Some(15), None), staged), 20) == None
            && StoreRead([] + staged, ref, 20) == Some(staged[0])
  {
    var ref := FactRef(0, 1, 0, 7);
    var staged := [Event(ref, 10, 4, Put, 1)];
    OneEvent(PointSpec(Some(15), None), staged[0], 20);
    assert [] + staged == staged;
  }

  /** A fact asserted at 5 and deleted by a staged event at 10, read at 20 with boundaries up to 7: it still shows. */
  lemma FilteredDeletionCanDisagree()
    ensures var ref := FactRef(0, 1, 0, 7);
            var history, staged := [Event(ref, 5, 3, Put, 1)], [Event(ref, 10, 4, Delete, 0)];
            && OverlayState(StoreRead(history, ref, 20), Select(PointSpec(None, Some(7)), staged), 20)
               == Some(history[0])
            && StoreRead(history + staged, ref, 20) == None
  {
    var ref, spec := FactRef(0, 1, 0, 7), PointSpec(None, Some(7));
    var history, staged := [Event(ref, 5, 3, Put, 1)], [Event(ref, 10, 4, Delete, 0)];
    WinnerOfConcat(history, staged, ref, 20);
    OneEvent(spec, history[0], 20);
    OneEvent(spec, staged[0], 20);
  }
}
