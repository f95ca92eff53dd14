/**
 The prepared-plan cache of a Cypher session: a map bounded to 64 entries, a recency list and
 the list positions of its keys, shared by concurrent preparations.
 */
module PreparedCache {
  import opened Common
  import opened SemanticKey
  import opened StatementKey

  const MAX_PREPARED := 64

  /** A compiled plan and the statement it was compiled from. */
  datatype Plan = Plan(program: nat, statement: Prepared)

  // ---- bounded recency lists ----------------------------------------------------------

  function First<T>(n: nat, s: seq<T>): seq<T> {
    if |s| <= n then s else s[..n]
  }

  function Without<T(==)>(s: seq<T>, x: T): seq<T> {
    if s == [] then [] else (if s[0] == x then [] else [s[0]]) + Without(s[1..], x)
  }

  function MoveToFront<T(==)>(s: seq<T>, x: T): seq<T> {
    [x] + Without(s, x)
  }

  ghost predicate NoDuplicates<T>(s: seq<T>) {
    forall i, j :: 0 <= i < j < |s| ==> s[i] != s[j]
  }

  lemma {:induction false} WithoutMembers<T>(s: seq<T>, x: T)
    ensures forall y :: y in Without(s, x) <==> y in s && y != x
    ensures x !in s ==> Without(s, x) == s
  {
    if s != [] {
      WithoutMembers(s[1..], x);
      assert s == [s[0]] + s[1..];
    }
  }

  lemma {:induction false} WithoutDuplicates<T>(s: seq<T>, x: T)
    requires NoDuplicates(s)
    ensures NoDuplicates(Without(s, x)) && |Without(s, x)| <= |s|
  {
    if s != [] {
      WithoutDuplicates(s[1..], x);
      WithoutMembers(s[1..], x);
      assert s[0] !in s[1..];
    }
  }

  /** Truncating before a move to the front loses nothing that survives the next truncation. */
  lemma {:induction false} TruncatedTouch<T>(n: nat, s: seq<T>, x: T)
    requires NoDuplicates(s) && n >= 1
    ensures First(n, MoveToFront(First(n, s), x)) == First(n, MoveToFront(s, x))
  {
    TruncatedWithout(n, s, x);
    var left, right := Without(First(n, s), x), Without(s, x);
    assert First(n, [x] + left) == [x] + First(n - 1, left);
    assert First(n, [x] + right) == [x] + First(n - 1, right);
  }

  lemma {:induction false} TruncatedWithout<T>(n: nat, s: seq<T>, x: T)
    requires NoDuplicates(s) && n >= 1
    ensures First(n - 1, Without(First(n, s), x)) == First(n - 1, Without(s, x))
  {
    if |s| > n > 1 {
      var head, tail := s[0], s[1..];
      assert s[..n][1..] == tail[..n - 1];
      if head == x {
        WithoutMembers(tail, x);
        WithoutMembers(tail[..n - 1], x);
        assert Without(s, x) == tail && Without(s[..n], x) == tail[..n - 1];
      } else {
        TruncatedWithout(n - 1, tail, x);
        FirstOfCons(n - 1, head, Without(tail, x));
        FirstOfCons(n - 1, head, Without(tail[..n - 1], x));
      }
    }
  }

  lemma FirstOfCons<T>(n: nat, head: T, tail: seq<T>)
    requires n >= 1
    ensures First(n, [head] + tail) == [head] + First(n - 1, tail)
  {
  }

  lemma {:induction false} WithoutAt<T>(s: seq<T>, i: nat)
    requires i < |s| && NoDuplicates(s)
    ensures Without(s, s[i]) == s[..i] + s[i + 1..]
  {
    if i == 0 {
      WithoutMembers(s[1..], s[0]);
    } else {
      WithoutAt(s[1..], i - 1);
      assert s[..i] + s[i + 1..] == [s[0]] + (s[1..][..i - 1] + s[1..][i..]);
    }
  }

  // ---- the session --------------------------------------------------------------------

  /**
   The recency list as its keys and the identities of its nodes (the list iterators).
   `positions` maps exactly the listed keys, each to its own node; identities are below `next`.
   */
  ghost predicate Linked<K(!new)>(keys: seq<K>, nodes: seq<nat>, positions: map<K, nat>, next: nat) {
    && |keys| == |nodes|
    && (forall k :: k in positions ==> k in keys)
    && (forall i :: 0 <= i < |keys| ==> keys[i] in positions && positions[keys[i]] == nodes[i] < next)
    && NoDuplicates(nodes)
  }

  /** `kept` holds entries of `cache`, unchanged. */
  ghost predicate Retained<K, V>(kept: map<K, V>, cache: map<K, V>) {
    forall k :: k in kept ==> k in cache && kept[k] == cache[k]
  }

  ghost predicate SameKeys<K(!new), V>(cache: map<K, V>, keys: seq<K>) {
    forall k :: k in cache <==> k in keys
  }

  function Restrict<K, V>(cache: map<K, V>, keys: seq<K>): map<K, V> {
    map k | k in cache && k in keys :: cache[k]
  }

  function Emplaced<K, V>(cache: map<K, V>, key: K, value: V): map<K, V> {
    if key in cache then cache else cache[key := value]
  }

  lemma LinkedKeys<K(!new)>(keys: seq<K>, nodes: seq<nat>, positions: map<K, nat>, next: nat)
    requires Linked(keys, nodes, positions, next)
    ensures NoDuplicates(keys) && forall k :: k in positions <==> k in keys
  {
    forall i, j | 0 <= i < j < |keys| ensures keys[i] != keys[j] {
      assert nodes[i] != nodes[j];
    }
  }

  /** A listed key is found at its position. */
  lemma LinkedFind<K(!new)>(keys: seq<K>, nodes: seq<nat>, positions: map<K, nat>, next: nat, key: K)
    requires Linked(keys, nodes, positions, next) && key in positions
    ensures positions[key] in nodes
    ensures forall i :: 0 <= i < |nodes| && nodes[i] == positions[key] ==> keys[i] == key
  {
    var j :| 0 <= j < |keys| && keys[j] == key;
    assert nodes[j] == positions[key];
  }

  /** Removing one node and its position unlinks exactly that key. */
  lemma LinkedErase<K(!new)>(keys: seq<K>, nodes: seq<nat>, positions: map<K, nat>, next: nat, i: nat)
    requires Linked(keys, nodes, positions, next) && i < |nodes|
    ensures Linked(keys[..i] + keys[i + 1..], nodes[..i] + nodes[i + 1..], positions - {keys[i]}, next)
  {
    LinkedKeys(keys, nodes, positions, next);
    var left := keys[..i] + keys[i + 1..];
    forall k | k in positions - {keys[i]} ensures k in left {
      var j :| 0 <= j < |keys| && keys[j] == k;
      assert left[if j < i then j else j - 1] == k;
    }
  }

  /** A key that is not listed goes to the front under a fresh node. */
  lemma LinkedPush<K(!new)>(keys: seq<K>, nodes: seq<nat>, positions: map<K, nat>, next: nat, key: K)
    requires Linked(keys, nodes, positions, next) && key !in positions
    ensures Linked([key] + keys, [next] + nodes, positions[key := next], next + 1)
  {
  }

  /** Evicting the last key keeps the list, its positions and the cache in step. */
  lemma EvictLast<K(!new), V>(keys: seq<K>, nodes: seq<nat>, positions: map<K, nat>, next: nat, cache: map<K, V>)
    requires Linked(keys, nodes, positions, next) && keys != [] && SameKeys(cache, keys)
    ensures var last := |keys| - 1;
            && Linked(keys[..last], nodes[..last], positions - {keys[last]}, next)
            && SameKeys(cache - {keys[last]}, keys[..last])
  {
    var last := |keys| - 1;
    LinkedKeys(keys, nodes, positions, next);
    LinkedErase(keys, nodes, positions, next, last);
    assert keys[..last] + keys[last + 1..] == keys[..last] && nodes[..last] + nodes[last + 1..] == nodes[..last];
    assert keys == keys[..last] + [keys[last]];
    assert keys[last] !in keys[..last];
  }

  class CypherSession<K(==,!new), V> {
    var cache: map<K, V>
    var lru: seq<K>
    var lruNodes: seq<nat>
    var positions: map<K, nat>
    var nextNode: nat

    constructor ()
      ensures Valid() && cache == map[] && lru == []
    {
      cache, lru, lruNodes, positions, nextNode := map[], [], [], map[], 0;
    }

    ghost predicate Valid()
      reads this
    {
      Linked(lru, lruNodes, positions, nextNode) && |lru| <= MAX_PREPARED && SameKeys(cache, lru)
    }

    /** Unlinks the key if it is listed and links it again at the front. */
    method MoveKeyToFront(key: K)
      requires Linked(lru, lruNodes, positions, nextNode)
      modifies `lru, `lruNodes, `positions, `nextNode
      ensures Linked(lru, lruNodes, positions, nextNode) && lru == MoveToFront(old(lru), key)
    {
      LinkedKeys(lru, lruNodes, positions, nextNode);
      if key in positions {
        LinkedFind(lru, lruNodes, positions, nextNode, key);
        var i :| 0 <= i < |lruNodes| && lruNodes[i] == positions[key];
        LinkedErase(lru, lruNodes, positions, nextNode, i);
        WithoutAt(lru, i);
        lru, lruNodes, positions := lru[..i] + lru[i + 1..], lruNodes[..i] + lruNodes[i + 1..], positions - {key};
      } else {
        WithoutMembers(lru, key);
      }
      LinkedPush(lru, lruNodes, positions, nextNode, key);
      lru, lruNodes, positions := [key] + lru, [nextNode] + lruNodes, positions[key := nextNode];
      nextNode := nextNode + 1;
    }

    /** Drops the least recent key from all containers. */
    method EvictOne()
      requires Linked(lru, lruNodes, positions, nextNode) && SameKeys(cache, lru) && lru != []
      modifies `cache, `lru, `lruNodes, `positions
      ensures Linked(lru, lruNodes, positions, nextNode) && SameKeys(cache, lru)
      ensures cache == old(cache) - {old(lru)[|old(lru)| - 1]} && lru == old(lru)[..|old(lru)| - 1]
    {
      var last := |lru| - 1;
      EvictLast(lru, lruNodes, positions, nextNode, cache);
      cache, positions := cache - {lru[last]}, positions - {lru[last]};
      lru, lruNodes := lru[..last], lruNodes[..last];
    }

    method EvictToBound()
      requires Linked(lru, lruNodes, positions, nextNode) && SameKeys(cache, lru)
      modifies `cache, `lru, `lruNodes, `positions
      ensures Valid() && Retained(cache, old(cache)) && lru == First(MAX_PREPARED, old(lru))
    {
      ghost var target := First(MAX_PREPARED, lru);
      while |lru| > MAX_PREPARED
        invariant Linked(lru, lruNodes, positions, nextNode) && SameKeys(cache, lru) && Retained(cache, old(cache))
        invariant First(MAX_PREPARED, lru) == target
        decreases |lru|
      {
        EvictOne();
      }
    }

    /** Marks a cached key as most recent and evicts from the back down to the bound. */
    method Touch(key: K)
      requires Linked(lru, lruNodes, positions, nextNode)
      requires forall k :: k in cache <==> k in lru || k == key
      modifies this
      ensures Valid() && key in cache && cache == Restrict(old(cache), lru)
      ensures lru == First(MAX_PREPARED, MoveToFront(old(lru), key))
    {
      WithoutMembers(lru, key);
      MoveKeyToFront(key);
      EvictToBound();
      assert lru[0] == key;
    }

    /** First critical section of a preparation. */
    method Lookup(key: K) returns (found: Option<V>)
      requires Valid()
      modifies this
      ensures Valid() && found == if key in old(cache) then Some(old(cache)[key]) else None
      ensures found.None? ==> cache == old(cache) && lru == old(lru)
      ensures found.Some? ==> cache == Restrict(old(cache), lru)
      ensures found.Some? ==> lru == First(MAX_PREPARED, MoveToFront(old(lru), key))
    {
      found := None;
      if key in cache {
        found := Some(cache[key]);
        Touch(key);
      }
    }

    /** Second critical section: another preparation may have published the key meanwhile. */
    method Insert(key: K, plan: V) returns (published: V)
      requires Valid()
      modifies this
      ensures Valid() && key in cache && published == cache[key]
      ensures cache == Restrict(Emplaced(old(cache), key, plan), lru)
      ensures lru == First(MAX_PREPARED, MoveToFront(old(lru), key))
    {
      cache := Emplaced(cache, key, plan);
      published := cache[key];
      Touch(key);
    }
  }

  // ---- concurrent preparations --------------------------------------------------------

  /** `touched` logs every touched key; `answers` logs what each preparation was given. */
  datatype State = State(
    cache: map<Bytes, Plan>, lru: seq<Bytes>, compiling: map<nat, Prepared>,
    touched: seq<Bytes>, answers: seq<(Prepared, Plan)>)

  datatype Step =
    | Begin(thread: nat, statement: Prepared)
    | Finish(thread: nat, compiled: bool)

  /** How statements are keyed and compiled. */
  datatype Binding = Binding(key: Prepared -> Bytes, compile: Prepared -> nat)

  ghost predicate Injective(key: Prepared -> Bytes) {
    forall p, q :: key(p) == key(q) ==> p == q
  }

  function PlanOf(b: Binding, p: Prepared): Plan {
    Plan(b.compile(p), p)
  }

  /** The effect of `Touch` and of returning the cached entry. */
  function Answer(s: State, cache: map<Bytes, Plan>, p: Prepared, key: Bytes): State
    requires key in cache
  {
    var lru := First(MAX_PREPARED, MoveToFront(s.lru, key));
    s.(cache := Restrict(cache, lru), lru := lru, touched := s.touched + [key],
       answers := s.answers + [(p, cache[key])])
  }

  ghost predicate Enabled(s: State, step: Step) {
    if step.Begin? then step.thread !in s.compiling else step.thread in s.compiling
  }

  function Apply(b: Binding, s: State, step: Step): State
    requires step.Finish? ==> step.thread in s.compiling
  {
    match step
    case Begin(t, p) =>
      if b.key(p) in s.cache then Answer(s, s.cache, p, b.key(p)) else s.(compiling := s.compiling[t := p])
    case Finish(t, ok) =>
      var p := s.compiling[t];
      var s1 := s.(compiling := s.compiling - {t});
      if ok then Answer(s1, Emplaced(s.cache, b.key(p), PlanOf(b, p)), p, b.key(p)) else s1
  }

  ghost predicate Run(b: Binding, trace: seq<State>, steps: seq<Step>) {
    && |trace| == |steps| + 1 && trace[0] == State(map[], [], map[], [], [])
    && forall i :: 0 <= i < |steps| ==>
         Enabled(trace[i], steps[i]) && trace[i + 1] == Apply(b, trace[i], steps[i])
  }

  /** The unbounded recency order of a log of touches. */
  function Recency(touched: seq<Bytes>): seq<Bytes> {
    if touched == [] then [] else MoveToFront(Recency(touched[..|touched| - 1]), touched[|touched| - 1])
  }

  lemma {:induction false} RecencyDistinct(touched: seq<Bytes>)
    ensures NoDuplicates(Recency(touched))
  {
    if touched != [] {
      var before, key := Recency(touched[..|touched| - 1]), touched[|touched| - 1];
      RecencyDistinct(touched[..|touched| - 1]);
      WithoutDuplicates(before, key);
      WithoutMembers(before, key);
    }
  }

  /** Every entry is the plan of the one statement whose key it is stored under. */
  ghost predicate EntriesCompiled(b: Binding, cache: map<Bytes, Plan>) {
    forall p :: b.key(p) in cache ==> cache[b.key(p)] == PlanOf(b, p)
  }

  ghost predicate AnswersCompiled(b: Binding, answers: seq<(Prepared, Plan)>) {
    forall i :: 0 <= i < |answers| ==> answers[i].1 == PlanOf(b, answers[i].0)
  }

  ghost predicate Inv(b: Binding, s: State) {
    && s.lru == First(MAX_PREPARED, Recency(s.touched))
    && SameKeys(s.cache, s.lru)
    && EntriesCompiled(b, s.cache) && AnswersCompiled(b, s.answers)
  }

  lemma RecencyStep(touched: seq<Bytes>, key: Bytes)
    ensures First(MAX_PREPARED, MoveToFront(First(MAX_PREPARED, Recency(touched)), key))
         == First(MAX_PREPARED, Recency(touched + [key]))
  {
    RecencyDistinct(touched);
    TruncatedTouch(MAX_PREPARED, Recency(touched), key);
    assert (touched + [key])[..|touched|] == touched;
  }

  lemma RestrictSameKeys(cache: map<Bytes, Plan>, lru: seq<Bytes>, key: Bytes)
    requires forall k :: k in cache <==> k in lru || k == key
    ensures var kept := First(MAX_PREPARED, MoveToFront(lru, key)); SameKeys(Restrict(cache, kept), kept) && key in kept
  {
    var kept := First(MAX_PREPARED, MoveToFront(lru, key));
    WithoutMembers(lru, key);
    assert kept[0] == key;
  }

  lemma AnswerKeeps(b: Binding, s: State, cache: map<Bytes, Plan>, p: Prepared)
    requires Inv(b, s) && EntriesCompiled(b, cache) && b.key(p) in cache
    requires forall k :: k in cache <==> k in s.lru || k == b.key(p)
    ensures Inv(b, Answer(s, cache, p, b.key(p)))
  {
    RecencyStep(s.touched, b.key(p));
    RestrictSameKeys(cache, s.lru, b.key(p));
  }

  lemma StepKeepsInv(b: Binding, s: State, step: Step)
    requires Injective(b.key) && Inv(b, s) && Enabled(s, step)
    ensures Inv(b, Apply(b, s, step))
  {
    match step
    case Begin(t, p) => if b.key(p) in s.cache { AnswerKeeps(b, s, s.cache, p); }
    case Finish(t, ok) =>
      var p := s.compiling[t];
      AnswerKeeps(b, s.(compiling := s.compiling - {t}), Emplaced(s.cache, b.key(p), PlanOf(b, p)), p);
  }

  lemma {:induction false} RunInv(b: Binding, trace: seq<State>, steps: seq<Step>, i: nat)
    requires Injective(b.key) && Run(b, trace, steps) && i < |trace|
    ensures Inv(b, trace[i])
  {
    if i > 0 {
      RunInv(b, trace, steps, i - 1);
      StepKeepsInv(b, trace[i - 1], steps[i - 1]);
    }
  }

  lemma KeyInjective()
    ensures Injective(Key)
  {
    forall p, q | Key(p) == Key(q) ensures p == q { KeyDecidesStatement(p, q); }
  }

  /** In every interleaving, a preparation is given the plan its own statement compiles to. */
  lemma HitEqualsCompile(compile: Prepared -> nat, trace: seq<State>, steps: seq<Step>, i: nat, a: nat)
    requires Run(Binding(Key, compile), trace, steps) && i < |trace| && a < |trace[i].answers|
    ensures trace[i].answers[a].1 == Plan(compile(trace[i].answers[a].0), trace[i].answers[a].0)
  {
    KeyInjective();
    RunInv(Binding(Key, compile), trace, steps, i);
  }

  /** The cache holds exactly the 64 most recently touched keys, in recency order. */
  lemma CacheIsMostRecent(compile: Prepared -> nat, trace: seq<State>, steps: seq<Step>, i: nat)
    requires Run(Binding(Key, compile), trace, steps) && i < |trace|
    ensures trace[i].lru == First(MAX_PREPARED, Recency(trace[i].touched)) && |trace[i].lru| <= MAX_PREPARED
    ensures forall k :: k in trace[i].cache <==> k in trace[i].lru
  {
    KeyInjective();
    RunInv(Binding(Key, compile), trace, steps, i);
  }
}
