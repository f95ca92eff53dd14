/**
 Commit sequences: the log has no gaps, every sequence has one owner, and the sequences of
 pipeline requests follow admission order on the predicted and the general write path alike.
 */
module KernelLog {
  import opened Common
  import opened Requests
  import opened AppendQueues
  import opened CommitKernel
  import opened KernelFrames

  /** Every sequence up to the visible one is owned once, and the two indexes agree. */
  ghost predicate LogSound(st: Store) {
    && st.first <= st.visible
    && (forall n :: n in st.owner <==> st.first < n <= st.visible)
    && (forall id :: id in st.txns ==> st.txns[id] in st.owner && st.owner[st.txns[id]] == Pipeline(id))
    && (forall n :: n in st.owner && st.owner[n].Pipeline? ==>
          st.owner[n].id in st.txns && st.txns[st.owner[n].id] == n)
  }

  ghost predicate Increasing(st: Store, line: seq<Request>) {
    forall i, j :: 0 <= i < j < |line| && line[i].id in st.txns && line[j].id in st.txns ==>
      st.txns[line[i].id] < st.txns[line[j].id]
  }

  ghost predicate Unlogged(st: Store, rs: seq<Request>) {
    forall i :: 0 <= i < |rs| ==> rs[i].id !in st.txns
  }

  predicate Agrees(st: Store, id: nat, r: StoreResult) {
    match r
    case Stored(n) => id in st.txns && st.txns[id] == n
    case Failed(_) => id !in st.txns
  }

  // ---- landing one group --------------------------------------------------------------

  function Append(st: Store, r: Request): Store {
    var k := st.visible + 1;
    st.(visible := k, owner := st.owner[k := Pipeline(r.id)], txns := st.txns[r.id := k],
        written := st.written[k := FactsOf(r)])
  }

  /** Numbering from the base and then publishing equals appending one success at a time. */
  lemma {:induction false} LandIsAppend(st: Store, group: seq<Request>, oks: seq<bool>)
    requires |oks| == |group| > 0
    ensures var n := |group| - 1;
            var before := Land(st, group[..n], oks[..n], st.visible);
            Land(st, group, oks, st.visible) == if oks[n] then Append(before, group[n]) else before
  {
    var n := |group| - 1;
    assert Assign(oks, st.visible)[..n] == Assign(oks[..n], st.visible);
  }

  /** `st'` is `st` with some of the group committed behind everything that was there. */
  ghost predicate Extends(st: Store, st': Store, group: seq<Request>) {
    && LogSound(st') && st'.first == st.first && st'.recovery == st.recovery && st.visible <= st'.visible
    && (forall id :: id in st.txns ==> id in st'.txns && st'.txns[id] == st.txns[id])
    && (forall id :: id in st'.txns && id !in st.txns ==> st'.txns[id] > st.visible)
    && (forall id :: id in st'.txns && id !in st.txns ==> id in Ids(group))
    && Increasing(st', group)
  }

  lemma AppendSound(st: Store, r: Request)
    requires LogSound(st) && r.id !in st.txns
    ensures LogSound(Append(st, r))
  {
  }

  lemma IncreasingPush(mid: Store, group: seq<Request>, r: Request)
    requires LogSound(mid) && Increasing(mid, group) && r.id !in mid.txns && r.id !in Ids(group)
    ensures Increasing(mid, group + [r]) && Increasing(Append(mid, r), group + [r])
  {
    var longer, st' := group + [r], Append(mid, r);
    forall i, j | 0 <= i < j < |longer| && longer[i].id in st'.txns && longer[j].id in st'.txns
      ensures st'.txns[longer[i].id] < st'.txns[longer[j].id]
    {
      assert longer[i] == group[i] && group[i].id in Ids(group);
      assert mid.txns[group[i].id] <= mid.visible;
      if j < |group| { assert longer[j] == group[j] && group[j].id in Ids(group); }
    }
  }

  lemma ExtendsAppend(st: Store, mid: Store, group: seq<Request>, r: Request)
    requires Extends(st, mid, group) && r.id !in mid.txns && r.id !in Ids(group)
    ensures Extends(st, mid, group + [r]) && Extends(st, Append(mid, r), group + [r])
  {
    AppendSound(mid, r);
    IncreasingPush(mid, group, r);
    var longer := group + [r];
    assert longer[|group|] == r && r.id in Ids(longer);
    assert forall i :: 0 <= i < |group| ==> longer[i] == group[i];
    assert Ids(group) <= Ids(longer);
  }

  ghost predicate AgreesWith(st: Store, group: seq<Request>, rs: seq<StoreResult>)
    requires |rs| == |group|
  {
    forall i :: 0 <= i < |group| ==> Agrees(st, group[i].id, rs[i])
  }

  /** A new success behind the group changes nothing the log says about the group. */
  lemma AgreesPush(st: Store, group: seq<Request>, rs: seq<StoreResult>, r: Request, ok: bool)
    requires |rs| == |group| && AgreesWith(st, group, rs) && r.id !in Ids(group) && r.id !in st.txns
    ensures if ok then AgreesWith(Append(st, r), group + [r], rs + [Stored(st.visible + 1)])
            else AgreesWith(st, group + [r], rs + [Failed(Rejected)])
  {
    var longer := group + [r];
    assert forall i :: 0 <= i < |group| ==> longer[i] == group[i] && group[i].id in Ids(group);
  }

  /** One more request, committed or not, behind a landed group. */
  lemma {:induction false} LandedStep(st: Store, front: seq<Request>, r: Request, oks: seq<bool>)
    requires |oks| == |front| + 1 && r.id !in Ids(front) && r.id !in st.txns
    requires var before := Land(st, front, oks[..|front|], st.visible);
             Extends(st, before, front) && AgreesWith(before, front, Assign(oks[..|front|], st.visible))
    ensures var after := Land(st, front + [r], oks, st.visible);
            Extends(st, after, front + [r]) && AgreesWith(after, front + [r], Assign(oks, st.visible))
  {
    var n, group := |front|, front + [r];
    var before := Land(st, front, oks[..n], st.visible);
    assert group[..n] == front && group[n] == r;
    LandIsAppend(st, group, oks);
    ExtendsAppend(st, before, front, r);
    AgreesPush(before, front, Assign(oks[..n], st.visible), r, oks[n]);
  }

  /** A landing group extends the log and every result says what the log says. */
  lemma {:induction false} Landed(st: Store, group: seq<Request>, oks: seq<bool>)
    requires |oks| == |group| && LogSound(st) && Distinct(group) && Unlogged(st, group)
    ensures var st' := Land(st, group, oks, st.visible);
            Extends(st, st', group) && AgreesWith(st', group, Assign(oks, st.visible))
    decreases |group|
  {
    if group != [] {
      var n := |group| - 1;
      var front, r := group[..n], group[n];
      Landed(st, front, oks[..n]);
      assert group == front + [r];
      LandedStep(st, front, r, oks);
    }
  }

  // ---- the whole pipeline -------------------------------------------------------------

  /** The requests whose results are fixed. */
  function Settled(done: seq<Request>, w: Worker): seq<Request> {
    done + if Busy(w) then [] else Group(w)
  }

  ghost predicate AllAgree(st: Store, results: map<nat, StoreResult>, rs: seq<Request>) {
    forall i :: 0 <= i < |rs| ==> rs[i].id in results && Agrees(st, rs[i].id, results[rs[i].id])
  }

  ghost predicate AllVerdicts(st: Store, group: seq<Request>, result: GroupResult) {
    && (result.GroupOk? ==> |result.results| == |group|)
    && forall i :: 0 <= i < |group| ==> Agrees(st, group[i].id, ResultAt(result, i))
  }

  ghost predicate AllOutcomes(results: map<nat, StoreResult>, group: seq<Request>, outcomes: seq<Outcome>) {
    && |outcomes| == |group|
    && forall i :: 0 <= i < |group| ==> group[i].id in results && outcomes[i] == ToOutcome(results[group[i].id])
  }

  /** What the worker knows about its group at each point of the write. */
  ghost predicate GroupLogged(st: Store, results: map<nat, StoreResult>, w: Worker) {
    && (Busy(w) && !w.Written? ==> Unlogged(st, w.group))
    && (w.Written? ==> AllVerdicts(st, w.group, w.result))
    && (w.Booked? ==> AllOutcomes(results, w.group, w.outcomes))
  }

  /** The log, the selected requests in selection order, and the results fixed so far. */
  ghost predicate SeqInv(done: seq<Request>, w: Worker, st: Store, results: map<nat, StoreResult>) {
    && LogSound(st)
    && Increasing(st, done + Group(w))
    && st.txns.Keys <= Ids(done + Group(w))
    && GroupLogged(st, results, w)
    && AllAgree(st, results, Settled(done, w))
    && results.Keys == Ids(Settled(done, w))
  }

  ghost predicate StateSeqInv(s: State) {
    SeqInv(s.flow.done, s.worker, s.store, s.clients.results)
  }

  ghost predicate DistinctFlow(s: State) {
    Distinct(s.flow.done + Group(s.worker) + s.flow.q.requests)
  }

  lemma UnloggedIds(st: Store, rs: seq<Request>)
    requires st.txns.Keys !! Ids(rs)
    ensures Unlogged(st, rs)
  {
    forall i | 0 <= i < |rs| ensures rs[i].id !in st.txns { assert rs[i].id in Ids(rs); }
  }

  lemma IncreasingUnlogged(st: Store, done: seq<Request>, group: seq<Request>)
    requires Increasing(st, done) && Unlogged(st, group)
    ensures Increasing(st, done + group)
  {
    var line := done + group;
    forall i, j | 0 <= i < j < |line| && line[i].id in st.txns && line[j].id in st.txns
      ensures st.txns[line[i].id] < st.txns[line[j].id]
    {
      assert line[i] == done[i] && line[j] == done[j];
    }
  }

  /** Fresh selections are unlogged: only selected requests were ever committed. */
  lemma {:induction false} TakeSeqInv(done: seq<Request>, w: Worker, st: Store, results: map<nat, StoreResult>,
                                      group: seq<Request>, w': Worker)
    requires SeqInv(done, w, st, results) && Group(w) == [] && !Busy(w)
    requires Distinct(done + group) && w'.Selected? && w'.group == group
    ensures SeqInv(done, w', st, results)
  {
    assert done + [] == done;
    TakeUnlogged(st, done, group);
    assert Settled(done, w) == done == Settled(done, w');
  }

  lemma TakeUnlogged(st: Store, done: seq<Request>, group: seq<Request>)
    requires st.txns.Keys <= Ids(done) && Increasing(st, done) && Distinct(done + group)
    ensures st.txns.Keys <= Ids(done + group) && Increasing(st, done + group) && Unlogged(st, group)
  {
    DistinctParts(done, group);
    UnloggedIds(st, group);
    IncreasingUnlogged(st, done, group);
  }

  lemma IncreasingAcross(st: Store, st': Store, done: seq<Request>, group: seq<Request>)
    requires LogSound(st) && Extends(st, st', group) && Increasing(st, done + group)
    requires Ids(done) !! Ids(group) && Unlogged(st, group)
    ensures Increasing(st', done + group)
  {
    var line := done + group;
    forall i, j | 0 <= i < j < |line| && line[i].id in st'.txns && line[j].id in st'.txns
      ensures st'.txns[line[i].id] < st'.txns[line[j].id]
    {
      if i < |done| { assert line[i] == done[i] && line[i].id in Ids(done) && line[i].id in st.txns; }
      if j < |done| { assert line[j] == done[j] && line[j].id in Ids(done) && line[j].id in st.txns; }
      if i >= |done| { assert line[i] == group[i - |done|] && line[j] == group[j - |done|]; }
      else if j >= |done| {
        assert line[j] == group[j - |done|] && line[j].id !in st.txns;
        assert st.txns[line[i].id] <= st.visible;
      }
    }
  }

  lemma AllAgreeAcross(st: Store, st': Store, results: map<nat, StoreResult>, done: seq<Request>, group: seq<Request>)
    requires AllAgree(st, results, done) && Extends(st, st', group) && Ids(done) !! Ids(group)
    ensures AllAgree(st', results, done)
  {
    forall i | 0 <= i < |done| ensures done[i].id in results && Agrees(st', done[i].id, results[done[i].id]) {
      assert done[i].id in Ids(done);
    }
  }

  lemma KeysAcross(st: Store, st': Store, done: seq<Request>, group: seq<Request>)
    requires Extends(st, st', group) && st.txns.Keys <= Ids(done + group)
    ensures st'.txns.Keys <= Ids(done + group)
  {
    IdsConcat(done, group);
  }

  /** The six parts of the invariant for a worker that holds a result. */
  lemma AssembleWritten(done: seq<Request>, w: Worker, st: Store, results: map<nat, StoreResult>)
    requires w.Written? && LogSound(st) && Increasing(st, done + w.group) && st.txns.Keys <= Ids(done + w.group)
    requires AllVerdicts(st, w.group, w.result) && AllAgree(st, results, done) && results.Keys == Ids(done)
    ensures SeqInv(done, w, st, results)
  {
    assert Settled(done, w) == done;
  }

  lemma {:induction false} LandSeqInv(done: seq<Request>, w: Worker, st: Store, results: map<nat, StoreResult>,
                                      oks: seq<bool>, st': Store, w': Worker)
    requires SeqInv(done, w, st, results) && w.Ready? && |oks| == |w.group| && Distinct(done + w.group)
    requires st' == Land(st, w.group, oks, st.visible) && w' == Finish(w, GroupOk(Assign(oks, st.visible)))
    ensures SeqInv(done, w', st', results)
  {
    var group := w.group;
    assert Settled(done, w) == done;
    DistinctParts(done, group);
    Landed(st, group, oks);
    AllAgreeAcross(st, st', results, done, group);
    IncreasingAcross(st, st', done, group);
    KeysAcross(st, st', done, group);
    AssembleWritten(done, w', st', results);
  }

  /** Whatever the outcome of a broken or refused write, nothing of the group is logged. */
  lemma {:induction false} FailSeqInv(done: seq<Request>, w: Worker, st: Store, results: map<nat, StoreResult>,
                                      st': Store, w': Worker)
    requires SeqInv(done, w, st, results) && w.Ready? && st' == st.(recovery := st'.recovery)
    requires w'.Written? && w'.group == w.group && w'.result.GroupErr?
    ensures SeqInv(done, w', st', results)
  {
    assert Settled(done, w) == done;
    assert Increasing(st', done + w.group) && AllAgree(st', results, done) && AllVerdicts(st', w'.group, w'.result);
    AssembleWritten(done, w', st', results);
  }

  lemma {:induction false} WithResultsKeys(results: map<nat, StoreResult>, group: seq<Request>, g: GroupResult)
    requires g.GroupOk? ==> |group| <= |g.results|
    ensures WithResults(results, group, g).Keys == results.Keys + Ids(group)
    ensures forall id :: id in results && id !in Ids(group) ==> WithResults(results, group, g)[id] == results[id]
  {
    if group != [] {
      var n := |group| - 1;
      WithResultsKeys(results, group[..n], g);
      assert group == group[..n] + [group[n]];
      IdsPush(group[..n], group[n]);
    }
  }

  lemma {:induction false} WithResultsValue(results: map<nat, StoreResult>, group: seq<Request>, g: GroupResult, i: nat)
    requires Distinct(group) && (g.GroupOk? ==> |group| <= |g.results|) && i < |group|
    ensures group[i].id in WithResults(results, group, g)
    ensures WithResults(results, group, g)[group[i].id] == ResultAt(g, i)
  {
    var n := |group| - 1;
    if i < n {
      WithResultsValue(results, group[..n], g, i);
      assert group[..n][i] == group[i] && group[i].id != group[n].id;
    }
  }

  lemma WithResultsAt(results: map<nat, StoreResult>, group: seq<Request>, g: GroupResult)
    requires Distinct(group) && (g.GroupOk? ==> |group| <= |g.results|)
    ensures var after := WithResults(results, group, g);
            && after.Keys == results.Keys + Ids(group)
            && (forall i :: 0 <= i < |group| ==> group[i].id in after && after[group[i].id] == ResultAt(g, i))
            && (forall id :: id in results && id !in Ids(group) ==> id in after && after[id] == results[id])
  {
    WithResultsKeys(results, group, g);
    var after := WithResults(results, group, g);
    forall i | 0 <= i < |group| ensures group[i].id in after && after[group[i].id] == ResultAt(g, i) {
      WithResultsValue(results, group, g, i);
    }
  }

  lemma AllAgreeBooked(done: seq<Request>, group: seq<Request>, st: Store, results: map<nat, StoreResult>,
                       g: GroupResult)
    requires Distinct(done + group) && AllAgree(st, results, done) && AllVerdicts(st, group, g)
    ensures AllAgree(st, WithResults(results, group, g), done + group)
  {
    var after := WithResults(results, group, g);
    DistinctParts(done, group);
    WithResultsAt(results, group, g);
    forall i | 0 <= i < |done + group|
      ensures var r := (done + group)[i]; r.id in after && Agrees(st, r.id, after[r.id])
    {
      if i < |done| { assert done[i].id in Ids(done); } else { assert (done + group)[i] == group[i - |done|]; }
    }
  }

  lemma OutcomesBooked(done: seq<Request>, w: Worker, results: map<nat, StoreResult>)
    requires w.Written? && Distinct(done + w.group) && (w.result.GroupOk? ==> |w.result.results| == |w.group|)
    requires results.Keys == Ids(done)
    ensures AllOutcomes(WithResults(results, w.group, w.result), w.group, Outcomes(w))
    ensures WithResults(results, w.group, w.result).Keys == Ids(done + w.group)
  {
    DistinctParts(done, w.group);
    WithResultsAt(results, w.group, w.result);
  }

  lemma {:induction false} BookSeqInv(done: seq<Request>, w: Worker, st: Store, results: map<nat, StoreResult>)
    requires SeqInv(done, w, st, results) && w.Written? && Distinct(done + w.group)
    ensures SeqInv(done, Booked(w.group, Outcomes(w), w.epoch), st, WithResults(results, w.group, w.result))
  {
    var w', after := Booked(w.group, Outcomes(w), w.epoch), WithResults(results, w.group, w.result);
    assert done + [] == done;
    AllAgreeBooked(done, w.group, st, results, w.result);
    OutcomesBooked(done, w, results);
    assert Settled(done, w') == done + w.group;
    assert GroupLogged(st, after, w');
  }

  lemma {:induction false} ReleaseSeqInv(done: seq<Request>, w: Worker, st: Store, results: map<nat, StoreResult>)
    requires SeqInv(done, w, st, results) && w.Published?
    ensures SeqInv(done + w.group, Waiting, st, results)
  {
    assert done + w.group + [] == done + w.group;
  }

  /** Moves of the worker that neither change the group nor fix a result. */
  lemma {:induction false} MoveSeqInv(done: seq<Request>, w: Worker, w': Worker, st: Store,
                                      results: map<nat, StoreResult>)
    requires SeqInv(done, w, st, results) && Group(w') == Group(w) && Busy(w') == Busy(w)
    requires !w'.Written? && !w'.Booked? && !w.Written?
    ensures SeqInv(done, w', st, results)
  {
  }

  lemma {:induction false} ChoseSeqInv(s: State, s': State)
    requires StateSeqInv(s) && DistinctFlow(s) && Chose(s, s')
    ensures StateSeqInv(s')
  {
    var done, queue, w' := s.flow.done, s.flow.q.requests, s'.worker;
    if w'.Selected? {
      var n := |w'.group|;
      assert w'.group == queue[..n];
      assert done + [] + queue == done + queue[..n] + queue[n..];
      DistinctParts(done + queue[..n], queue[n..]);
      TakeSeqInv(done, s.worker, s.store, s.clients.results, queue[..n], w');
    } else {
      MoveSeqInv(done, s.worker, w', s.store, s.clients.results);
    }
  }

  lemma {:induction false} SeqSelect(s: State, step: WorkerStep)
    requires StateSeqInv(s) && DistinctFlow(s) && SelectEnabled(s, step)
    ensures StateSeqInv(SelectApply(s, step))
  {
    if step.BeginCollectStep? || step.CollectStep? {
      ChoiceFrame(s, step);
      ChoseSeqInv(s, SelectApply(s, step));
    } else {
      MoveSeqInv(s.flow.done, s.worker, SelectApply(s, step).worker, s.store, s.clients.results);
    }
  }

  /** A write ends with the worker still ready, with a failed group, or with the group landed. */
  lemma {:induction false} SeqWritten(s: State, s': State, oks: seq<bool>)
    requires StateSeqInv(s) && Distinct(s.flow.done + Group(s.worker)) && Wrote(s, s')
    requires |oks| == |s.worker.group| && Ended(s, s', oks)
    ensures StateSeqInv(s')
  {
    var done, w, w', st, results := s.flow.done, s.worker, s'.worker, s.store, s.clients.results;
    if w'.Ready? {
      MoveSeqInv(done, w, w', st, results);
    } else if w'.result.GroupErr? {
      FailSeqInv(done, w, st, results, s'.store, w');
    } else {
      LandSeqInv(done, w, st, results, oks, s'.store, w');
    }
  }

  lemma {:induction false} SeqWrite(s: State, step: WriteStep)
    requires StateSeqInv(s) && DistinctFlow(s) && WriteEnabled(s, step)
    ensures StateSeqInv(WriteApply(s, step))
  {
    var done, w, st, results := s.flow.done, s.worker, s.store, s.clients.results;
    var s' := WriteApply(s, step);
    DistinctParts(done + Group(w), s.flow.q.requests);
    match step
    case BookStep => BookSeqInv(done, w, st, results);
    case ReleaseStep => ReleaseSeqInv(done, w, st, results);
    case CheckStep(readable) =>
      CheckFrame(s, readable);
      MoveSeqInv(done, w, s'.worker, st, results);
    case PublishStep => MoveSeqInv(done, w, s'.worker, st, results);
    case WriteDecidedStep(_) =>
      WriteFrame(s, step);
      SeqWritten(s, s', OksOf(s, step));
    case WriteGeneralStep(_, _) =>
      WriteFrame(s, step);
      SeqWritten(s, s', OksOf(s, step));
  }

  lemma {:induction false} SeqOther(s: State, step: OtherStep)
    requires StateSeqInv(s) && OtherEnabled(s, step)
    ensures StateSeqInv(OtherApply(s, step))
  {
    if step.ElsewhereStep? {
      ElsewhereSeqInv(s.flow.done, s.worker, s.store, s.clients.results, step.facts);
    } else {
      assert OtherApply(s, step).store == s.store && OtherApply(s, step).flow == s.flow;
    }
  }

  /** A commit outside the pipeline takes the next sequence and moves no request. */
  lemma ElsewhereSeqInv(done: seq<Request>, w: Worker, st: Store, results: map<nat, StoreResult>,
                        facts: set<Boundary>)
    requires SeqInv(done, w, st, results)
    ensures SeqInv(done, w, CommitElsewhere(st, facts), results)
  {
    ElsewhereSound(st, facts);
    var st' := CommitElsewhere(st, facts);
    assert Increasing(st', done + Group(w)) && GroupLogged(st', results, w);
  }

  lemma ElsewhereSound(st: Store, facts: set<Boundary>)
    requires LogSound(st)
    ensures LogSound(CommitElsewhere(st, facts))
  {
  }

  lemma {:induction false} SeqClient(b: QueueBounds, s: State, step: ClientStep)
    requires StateSeqInv(s) && ClientEnabled(b, s, step)
    ensures StateSeqInv(ClientApply(b, s, step))
  {
  }
}
