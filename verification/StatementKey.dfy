/**
 The bound statement and the key under which a prepared plan is cached. Source spans are not
 part of the model: they do not take part in binding and are not written to the key.
 */
module StatementKey {
  import opened Common
  import opened SemanticKey

  datatype TimeScope = TimeScope(from: Word, to: Option<Word>, asOf: Option<Word>)

  datatype Parameter = Parameter(name: Text, id: Word)

  datatype PathPattern = PathPattern(
    source: Text, sourceLabel: Text, edge: Text, relationship: Text, destination: Text, destinationLabel: Text,
    minHops: Word, maxHops: Word, trail: bool,
    sourcePart: Option<Word>, sourceVertex: Option<Word>,
    destinationPart: Option<Word>, destinationVertex: Option<Word>)

  datatype Predicate = Predicate(
    variable: Text, property: Word, physicalType: Byte, op: Byte, literal: Option<Text>, parameter: Option<Parameter>)

  datatype Projection = Projection(expression: Text, func: Text)

  datatype Assignment = Assignment(target: Text, property: Word, parameter: Word)

  datatype Demand = Demand(
    vertexFamilies: Word, edgeFamilies: Word, properties: List<Word>, eventHistory: bool, systemMetadata: bool)

  datatype Options = Options(graph: Text, part: Word, explicitPart: bool, maxHops: Word, securityDigest: Text)

  datatype Routing = Routing(kind: Byte, graph: Text, part: Word, scopeKind: Byte, scopeParts: List<Word>,
                             validTime: Option<TimeScope>, systemTime: Option<TimeScope>, changes: bool)

  datatype Clauses = Clauses(
    patterns: List<PathPattern>, predicates: List<Predicate>, relationshipTypes: List<Option<Word>>,
    projections: List<Projection>, limit: Option<Word>, parameters: List<Parameter>,
    assignments: List<Assignment>, deletions: List<Text>)

  datatype BoundStatement = BoundStatement(routing: Routing, clauses: Clauses, demand: Demand)

  /** Everything a prepared plan is compiled from. */
  datatype Prepared = Prepared(schemaFingerprint: Text, options: Options, statement: BoundStatement)

  /** The bytes of "cypher-bound-v1". */
  const VERSION: Text := [99, 121, 112, 104, 101, 114, 45, 98, 111, 117, 110, 100, 45, 118, 49]

  // ---- record encoders ----------------------------------------------------------------

  function EmitFlag(flag: bool, rest: Bytes): Bytes {
    EmitInteger(if flag then 1 else 0, rest)
  }

  function EmitOptionalWord(value: Option<Word>, rest: Bytes): Bytes {
    EmitOptional(value, EmitInteger, rest)
  }

  function EmitScope(scope: TimeScope, rest: Bytes): Bytes {
    EmitInteger(scope.from, EmitOptionalWord(scope.to, EmitOptionalWord(scope.asOf, rest)))
  }

  function EmitParameter(p: Parameter, rest: Bytes): Bytes {
    EmitText(p.name, EmitInteger(p.id, rest))
  }

  function EmitPattern(p: PathPattern, rest: Bytes): Bytes {
    EmitText(p.source, EmitText(p.sourceLabel, EmitText(p.edge,
    EmitText(p.relationship, EmitText(p.destination, EmitText(p.destinationLabel,
    EmitInteger(p.minHops, EmitInteger(p.maxHops, EmitFlag(p.trail,
    EmitOptionalWord(p.sourcePart, EmitOptionalWord(p.sourceVertex,
    EmitOptionalWord(p.destinationPart, EmitOptionalWord(p.destinationVertex, rest)))))))))))))
  }

  function EmitPredicate(p: Predicate, rest: Bytes): Bytes {
    EmitText(p.variable, EmitInteger(p.property, EmitInteger(p.physicalType, EmitInteger(p.op,
    EmitOptional(p.literal, EmitText, EmitOptional(p.parameter, EmitParameter, rest))))))
  }

  function EmitProjection(p: Projection, rest: Bytes): Bytes {
    EmitText(p.expression, EmitText(p.func, rest))
  }

  function EmitAssignment(a: Assignment, rest: Bytes): Bytes {
    EmitText(a.target, EmitInteger(a.property, EmitInteger(a.parameter, rest)))
  }

  function EmitOptions(o: Options, rest: Bytes): Bytes {
    EmitText(o.graph, EmitInteger(o.part, EmitFlag(o.explicitPart,
    EmitInteger(o.maxHops, EmitText(o.securityDigest, rest)))))
  }

  function EmitRouting(r: Routing, rest: Bytes): Bytes {
    EmitInteger(r.kind, EmitText(r.graph, EmitInteger(r.part, EmitInteger(r.scopeKind,
    EmitSequence(r.scopeParts, EmitInteger,
    EmitOptional(r.validTime, EmitScope, EmitOptional(r.systemTime, EmitScope, EmitFlag(r.changes, rest))))))))
  }

  function EmitClauses(c: Clauses, rest: Bytes): Bytes {
    EmitSequence(c.patterns, EmitPattern, EmitSequence(c.predicates, EmitPredicate,
    EmitSequence(c.relationshipTypes, EmitOptionalWord, EmitSequence(c.projections, EmitProjection,
    EmitOptionalWord(c.limit, EmitSequence(c.parameters, EmitParameter,
    EmitSequence(c.assignments, EmitAssignment, EmitSequence(c.deletions, EmitText, rest))))))))
  }

  function EmitDemand(d: Demand, rest: Bytes): Bytes {
    EmitInteger(d.vertexFamilies, EmitInteger(d.edgeFamilies, EmitSequence(d.properties, EmitInteger,
    EmitFlag(d.eventHistory, EmitFlag(d.systemMetadata, rest)))))
  }

  function Key(p: Prepared): Bytes {
    EmitText(VERSION, EmitText(p.schemaFingerprint, EmitOptions(p.options,
    EmitRouting(p.statement.routing, EmitClauses(p.statement.clauses, EmitDemand(p.statement.demand, []))))))
  }

  // ---- every record encoder is unambiguous --------------------------------------------

  lemma PrimitivesSound()
    ensures Sound(EmitInteger) && Sound(EmitText)
  {
    PrimitivesUnambiguous();
    PrimitivesTailed();
  }

  lemma OptionalWordSound()
    ensures forall a, b, x, y :: EmitOptionalWord(a, x) == EmitOptionalWord(b, y) ==> a == b && x == y
    ensures forall a, x, y :: EmitOptionalWord(a, x + y) == EmitOptionalWord(a, x) + y
    ensures Sound(EmitOptionalWord)
  {
    PrimitivesSound();
    OptionalUnambiguous(EmitInteger);
    OptionalTailed(EmitInteger);
  }

  lemma ScopeSound()
    ensures Sound(EmitScope)
  {
    PrimitivesUnambiguous();
    PrimitivesTailed();
    OptionalWordSound();
  }

  lemma ParameterSound()
    ensures Sound(EmitParameter)
  {
    PrimitivesUnambiguous();
    PrimitivesTailed();
  }

  lemma PatternPeel(a: PathPattern, b: PathPattern, x: Bytes, y: Bytes)
    requires EmitPattern(a, x) == EmitPattern(b, y)
    ensures a == b && x == y
  {
    PrimitivesUnambiguous();
    OptionalWordSound();
  }

  lemma PatternTail(a: PathPattern, x: Bytes, y: Bytes)
    ensures EmitPattern(a, x + y) == EmitPattern(a, x) + y
  {
    PrimitivesTailed();
    OptionalWordSound();
  }

  lemma PatternSound()
    ensures Sound(EmitPattern)
  {
    forall a, b, x, y | EmitPattern(a, x) == EmitPattern(b, y) ensures a == b && x == y { PatternPeel(a, b, x, y); }
    forall a, x, y ensures EmitPattern(a, x + y) == EmitPattern(a, x) + y { PatternTail(a, x, y); }
  }

  lemma PredicatePeel(a: Predicate, b: Predicate, x: Bytes, y: Bytes)
    requires EmitPredicate(a, x) == EmitPredicate(b, y)
    ensures a == b && x == y
  {
    PrimitivesUnambiguous();
    PrimitivesSound();
    ParameterSound();
    OptionalUnambiguous(EmitText);
    OptionalUnambiguous(EmitParameter);
  }

  lemma PredicateTail(a: Predicate, x: Bytes, y: Bytes)
    ensures EmitPredicate(a, x + y) == EmitPredicate(a, x) + y
  {
    PrimitivesTailed();
    PrimitivesSound();
    ParameterSound();
    OptionalTailed(EmitText);
    OptionalTailed(EmitParameter);
  }

  lemma PredicateSound()
    ensures Sound(EmitPredicate)
  {
    forall a, b, x, y | EmitPredicate(a, x) == EmitPredicate(b, y) ensures a == b && x == y {
      PredicatePeel(a, b, x, y);
    }
    forall a, x, y ensures EmitPredicate(a, x + y) == EmitPredicate(a, x) + y { PredicateTail(a, x, y); }
  }

  lemma ProjectionSound()
    ensures Sound(EmitProjection)
  {
    PrimitivesUnambiguous();
    PrimitivesTailed();
  }

  lemma AssignmentSound()
    ensures Sound(EmitAssignment)
  {
    PrimitivesUnambiguous();
    PrimitivesTailed();
  }

  lemma OptionsPeel(a: Options, b: Options, x: Bytes, y: Bytes)
    requires EmitOptions(a, x) == EmitOptions(b, y)
    ensures a == b && x == y
  {
    PrimitivesUnambiguous();
  }

  lemma RoutingPeel(a: Routing, b: Routing, x: Bytes, y: Bytes)
    requires EmitRouting(a, x) == EmitRouting(b, y)
    ensures a == b && x == y
  {
    PrimitivesUnambiguous();
    PrimitivesSound();
    ScopeSound();
    SequenceUnambiguous(EmitInteger);
    OptionalUnambiguous(EmitScope);
  }

  lemma ClausesPeel(a: Clauses, b: Clauses, x: Bytes, y: Bytes)
    requires EmitClauses(a, x) == EmitClauses(b, y)
    ensures a == b && x == y
  {
    PrimitivesSound(); OptionalWordSound(); PatternSound(); PredicateSound();
    ProjectionSound(); ParameterSound(); AssignmentSound();
    SequenceUnambiguous(EmitPattern);
    SequenceUnambiguous(EmitPredicate);
    SequenceUnambiguous(EmitOptionalWord);
    SequenceUnambiguous(EmitProjection);
    SequenceUnambiguous(EmitParameter);
    SequenceUnambiguous(EmitAssignment);
    SequenceUnambiguous(EmitText);
  }

  lemma DemandPeel(a: Demand, b: Demand, x: Bytes, y: Bytes)
    requires EmitDemand(a, x) == EmitDemand(b, y)
    ensures a == b && x == y
  {
    PrimitivesUnambiguous();
    PrimitivesSound();
    SequenceUnambiguous(EmitInteger);
  }

  /** Two statements share a cache key exactly when every encoded field agrees. */
  lemma KeyDecidesStatement(a: Prepared, b: Prepared)
    ensures Key(a) == Key(b) <==> a == b
  {
    if Key(a) == Key(b) {
      var da, db := EmitDemand(a.statement.demand, []), EmitDemand(b.statement.demand, []);
      var ca, cb := EmitClauses(a.statement.clauses, da), EmitClauses(b.statement.clauses, db);
      var ra, rb := EmitRouting(a.statement.routing, ca), EmitRouting(b.statement.routing, cb);
      PrimitivesUnambiguous();
      OptionsPeel(a.options, b.options, ra, rb);
      RoutingPeel(a.statement.routing, b.statement.routing, ca, cb);
      ClausesPeel(a.statement.clauses, b.statement.clauses, da, db);
      DemandPeel(a.statement.demand, b.statement.demand, [], []);
    }
  }

  // ---- the imperative encoder ---------------------------------------------------------

  method AppendOptions(out: SemanticKeyWriter, o: Options)
    modifies out
    ensures forall rest :: out.key + rest == old(out.key) + EmitOptions(o, rest)
  {
    out.AppendText(o.graph);
    out.Integer(o.part);
    out.Integer(if o.explicitPart then 1 else 0);
    out.Integer(o.maxHops);
    out.AppendText(o.securityDigest);
  }

  method AppendRouting(out: SemanticKeyWriter, r: Routing)
    modifies out
    ensures forall rest :: out.key + rest == old(out.key) + EmitRouting(r, rest)
  {
    PrimitivesSound();
    ScopeSound();
    out.Integer(r.kind);
    out.AppendText(r.graph);
    out.Integer(r.part);
    out.Integer(r.scopeKind);
    out.Sequence(r.scopeParts, EmitInteger);
    out.Optional(r.validTime, EmitScope);
    out.Optional(r.systemTime, EmitScope);
    out.Integer(if r.changes then 1 else 0);
  }

  method AppendClauses(out: SemanticKeyWriter, c: Clauses)
    modifies out
    ensures forall rest :: out.key + rest == old(out.key) + EmitClauses(c, rest)
  {
    PrimitivesSound(); OptionalWordSound(); PatternSound(); PredicateSound();
    ProjectionSound(); ParameterSound(); AssignmentSound();
    out.Sequence(c.patterns, EmitPattern);
    out.Sequence(c.predicates, EmitPredicate);
    out.Sequence(c.relationshipTypes, EmitOptionalWord);
    out.Sequence(c.projections, EmitProjection);
    out.Optional(c.limit, EmitInteger);
    out.Sequence(c.parameters, EmitParameter);
    out.Sequence(c.assignments, EmitAssignment);
    out.Sequence(c.deletions, EmitText);
  }

  method AppendDemand(out: SemanticKeyWriter, d: Demand)
    modifies out
    ensures forall rest :: out.key + rest == old(out.key) + EmitDemand(d, rest)
  {
    PrimitivesSound();
    out.Integer(d.vertexFamilies);
    out.Integer(d.edgeFamilies);
    out.Sequence(d.properties, EmitInteger);
    out.Integer(if d.eventHistory then 1 else 0);
    out.Integer(if d.systemMetadata then 1 else 0);
  }

  method PreparedSemanticKey(p: Prepared) returns (key: Bytes)
    ensures key == Key(p)
  {
    var out := new SemanticKeyWriter();
    // What each append still leaves to be written.
    ghost var demand := EmitDemand(p.statement.demand, []);
    ghost var clauses := EmitClauses(p.statement.clauses, demand);
    ghost var routing := EmitRouting(p.statement.routing, clauses);
    ghost var options := EmitOptions(p.options, routing);
    ghost var fingerprint := EmitText(p.schemaFingerprint, options);
    out.AppendText(VERSION);
    assert out.key + fingerprint == [] + Key(p) == Key(p);
    out.AppendText(p.schemaFingerprint);
    assert out.key + options == Key(p);
    AppendOptions(out, p.options);
    assert out.key + routing == Key(p);
    AppendRouting(out, p.statement.routing);
    assert out.key + clauses == Key(p);
    AppendClauses(out, p.statement.clauses);
    assert out.key + demand == Key(p);
    AppendDemand(out, p.statement.demand);
    key := out.key;
    assert key == key + [];
  }
}
