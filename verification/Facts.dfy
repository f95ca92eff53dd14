/** Temporal facts: references, events, read specifications and the canonical event order. */
module Facts {
  import opened Common

  datatype FactRef = FactRef(part: nat, family: nat, property: nat, entity: U64)

  const EDGE_IDENTITY := 3  // the family of edge identity facts
  const EDGE_STATE := 4

  datatype Operation = Put | Delete

  /** `payload` stands for the schema epoch, the value and the edge identity of the event. */
  datatype Event = Event(ref: FactRef, validFrom: nat, seq_: nat, op: Operation, payload: nat)

  datatype PartScope = AllParts | Parts(parts: seq<nat>)

  datatype ReadSpec = ReadSpec(
    scope: PartScope, family: nat, property: nat,
    entityMin: Option<nat>, entityMaxExclusive: Option<nat>,
    validFromMin: Option<nat>, validFromMax: Option<nat>, seqMin: Option<nat>, seqMax: Option<nat>,
    batchRowLimit: nat, maxRows: Option<nat>)

  predicate AtLeast(bound: Option<nat>, x: nat) { bound.Some? ==> bound.value <= x }

  predicate AtMost(bound: Option<nat>, x: nat) { bound.Some? ==> x <= bound.value }

  /** The part of a specification that names facts. */
  predicate Covers(spec: ReadSpec, ref: FactRef) {
    && (spec.scope.AllParts? || ref.part in spec.scope.parts)
    && ref.family == spec.family && ref.property == spec.property
    && AtLeast(spec.entityMin, ref.entity)
    && (spec.entityMaxExclusive.Some? ==> ref.entity < spec.entityMaxExclusive.value)
  }

  /** The part of a specification that filters the events of a fact. */
  predicate WithinBounds(spec: ReadSpec, e: Event) {
    && AtLeast(spec.validFromMin, e.validFrom) && AtMost(spec.validFromMax, e.validFrom)
    && AtLeast(spec.seqMin, e.seq_) && AtMost(spec.seqMax, e.seq_)
  }

  predicate Matches(spec: ReadSpec, e: Event) { Covers(spec, e.ref) && WithinBounds(spec, e) }

  /** The matching events, in their original order. */
  function Select(spec: ReadSpec, events: seq<Event>): seq<Event> {
    if events == [] then [] else
      var last := events[|events| - 1];
      Select(spec, events[..|events| - 1]) + (if Matches(spec, last) then [last] else [])
  }

  lemma {:induction false} SelectConcat(spec: ReadSpec, a: seq<Event>, b: seq<Event>)
    ensures Select(spec, a + b) == Select(spec, a) + Select(spec, b)
  {
    if b == [] {
      assert a + b == a;
    } else {
      SelectConcat(spec, a, b[..|b| - 1]);
      assert (a + b)[..|a + b| - 1] == a + b[..|b| - 1];
    }
  }

  lemma SelectPush(spec: ReadSpec, events: seq<Event>, e: Event)
    ensures Select(spec, events + [e]) == Select(spec, events) + (if Matches(spec, e) then [e] else [])
  {
    assert (events + [e])[..|events|] == events;
  }

  lemma {:induction false} SelectMembers(spec: ReadSpec, events: seq<Event>)
    ensures forall e :: e in Select(spec, events) <==> e in events && Matches(spec, e)
  {
    if events != [] {
      SelectMembers(spec, events[..|events| - 1]);
      assert events == events[..|events| - 1] + [events[|events| - 1]];
    }
  }

  function Concat<T>(batches: seq<seq<T>>): seq<T> {
    if batches == [] then [] else Concat(batches[..|batches| - 1]) + batches[|batches| - 1]
  }

  lemma ConcatPush<T>(batches: seq<seq<T>>, batch: seq<T>)
    ensures Concat(batches + [batch]) == Concat(batches) + batch
  {
    assert (batches + [batch])[..|batches|] == batches;
  }

  /** The first `cap` elements, or all of them when there is no cap. */
  function Capped<T>(cap: Option<nat>, s: seq<T>): seq<T> {
    if cap.Some? && cap.value < |s| then s[..cap.value] else s
  }
}
