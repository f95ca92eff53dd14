/** What the larger steps of the append worker leave alone, so that each invariant can be kept without opening them. */
module KernelFrames {
  import opened Common
  import opened Requests
  import opened AppendQueues
  import opened CommitKernel

  /** A promotion or a collection: a prefix of the queue is taken, or the worker goes on to collect. */
  ghost predicate Chose(s: State, s': State) {
    && (s.worker.Waiting? || s.worker.Collecting?)
    && s'.store == s.store && s'.clients == s.clients && s'.modes == s.modes
    && (if s'.worker.Selected? then Took(s.flow, s'.flow, s'.worker.group)
        else s'.worker.Collecting? && s'.flow == s.flow)
  }

  ghost predicate Took(fl: Flow, fl': Flow, group: seq<Request>) {
    group <= fl.q.requests && fl' == Take(fl, |group|)
  }

  lemma {:induction false} ChoiceFrame(s: State, step: WorkerStep)
    requires SelectEnabled(s, step) && (step.BeginCollectStep? || step.CollectStep?)
    ensures Chose(s, SelectApply(s, step))
  {
    match step
    case BeginCollectStep(_) =>
    case CollectStep(_, _) =>
  }

  /** A write: the group stays with the worker, which is ready again or has a result. */
  ghost predicate Wrote(s: State, s': State) {
    && s.worker.Ready? && s'.flow == s.flow && s'.spec == s.spec && s'.clients == s.clients && s'.modes == s.modes
    && (s'.worker.Ready? || s'.worker.Written?)
    && s'.worker.group == s.worker.group && s'.worker.epoch == s.worker.epoch && s'.worker.pre == s.worker.pre
  }

  /** How a write ends: handed to the general path, failed with nothing logged, or landed on the live base. */
  ghost predicate Ended(s: State, s': State, oks: seq<bool>)
    requires s.worker.Ready? && |oks| == |s.worker.group|
  {
    var w, w', st := s.worker, s'.worker, s.store;
    || (w' == w.(usePre := false, stale := true) && w.pre.Some? && s'.store == st)
    || (w'.Written? && w'.result.GroupErr? && w' == Finish(w, w'.result)
        && s'.store == st.(recovery := s'.store.recovery))
    || (w' == Finish(w, GroupOk(Assign(oks, st.visible))) && s'.store == Land(st, w.group, oks, st.visible))
  }

  /** Which requests of the group a write commits if it lands. */
  ghost function OksOf(s: State, step: WriteStep): (oks: seq<bool>)
    requires WriteEnabled(s, step) && (step.WriteDecidedStep? || step.WriteGeneralStep?)
    ensures |oks| == |s.worker.group|
  {
    if step.WriteDecidedStep? then AllTrue(|s.worker.group|) else Verdicts(s.store, s.worker.group, step.others)
  }

  lemma {:induction false} WriteFrame(s: State, step: WriteStep)
    requires WriteEnabled(s, step) && (step.WriteDecidedStep? || step.WriteGeneralStep?)
    ensures Wrote(s, WriteApply(s, step)) && Ended(s, WriteApply(s, step), OksOf(s, step))
  {
    match step
    case WriteDecidedStep(fate) => DecidedFrame(s, fate);
    case WriteGeneralStep(others, fate) => GeneralFrame(s, Verdicts(s.store, s.worker.group, others), fate);
  }

  lemma {:induction false} DecidedFrame(s: State, fate: Fate)
    requires s.worker.Ready? && s.worker.usePre && s.worker.pre.Some?
    ensures Wrote(s, WriteDecided(s, fate)) && Ended(s, WriteDecided(s, fate), AllTrue(|s.worker.group|))
  {
  }

  lemma {:induction false} GeneralFrame(s: State, oks: seq<bool>, fate: Fate)
    requires s.worker.Ready? && !s.worker.usePre && |oks| == |s.worker.group|
    ensures Wrote(s, WriteGeneral(s, oks, fate)) && Ended(s, WriteGeneral(s, oks, fate), oks)
  {
  }

  /** A checked prediction: only the worker's program counter moves. */
  lemma {:induction false} CheckFrame(s: State, readable: bool)
    requires WriteEnabled(s, CheckStep(readable))
    ensures var s' := WriteApply(s, CheckStep(readable));
            && s' == s.(worker := s'.worker) && s'.worker.Ready? && s'.worker.group == s.worker.group
            && s'.worker.epoch == s.worker.epoch && s'.worker.pre == s.worker.pre
            && (s'.worker.stale ==> s.worker.pre.Some?) && (s'.worker.usePre ==> s.worker.pre.Some? && !s'.worker.stale)
  {
  }
}
