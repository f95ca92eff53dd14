/** Adaptive epoch limits: how many requests, how many bytes and how much longer a group may be collected. */
module EpochLimits {
  import opened Common
  import opened PressureControl
  import AppendQueues
  import Requests

  datatype Options = Options(
    maxTransactions: U32, maxEncodedBytes: U64, latencySlo: U64, maximumAge: U64, minUnderLoad: U32,
    deepQueue: U32, settleFloor: U64, settleMaxAge: U64, settleDivisor: U32)

  datatype Averages = Averages(bytesPerTransaction: U64, walSync: U64, walSyncKnown: bool)

  datatype Queue = Queue(depth: U64, oldestAge: U64, pressure: PressureState)

  datatype Limits = Limits(maxTransactions: nat, maxEncodedBytes: nat, maxAge: nat, settleAge: nat)

  datatype Observation = Observation(walSync: U64, transactions: U64, encodedBytes: U64, walSyncKnown: bool)

  function MinOf(a: nat, b: nat): nat { if a < b then a else b }

  function MaxOf(a: nat, b: nat): nat { if a < b then b else a }

  /** Options after the constructor's clamping. */
  ghost predicate Sane(o: Options) {
    o.maxTransactions >= 1 && o.maxEncodedBytes >= 1 && o.latencySlo >= 1 &&
    1 <= o.minUnderLoad <= o.maxTransactions && o.deepQueue >= 1 && o.settleDivisor >= 1
  }

  function Clamped(o: Options): (c: Options)
    ensures Sane(c)
    ensures Sane(o) ==> c == o
  {
    var maxTransactions := MaxOf(1, o.maxTransactions);
    Options(maxTransactions, MaxOf(1, o.maxEncodedBytes), MaxOf(1, o.latencySlo), o.maximumAge,
            MinOf(maxTransactions, MaxOf(1, o.minUnderLoad)), MaxOf(1, o.deepQueue), o.settleFloor, o.settleMaxAge,
            MaxOf(1, o.settleDivisor))
  }

  lemma ProductMonotone(a: nat, b: nat, c: nat)
    requires a <= b
    ensures a * c <= b * c
  {
  }

  /** The product, or the largest 64-bit value when it does not fit. */
  function SaturatingMultiply(left: U64, right: U64): (r: U64)
    ensures r == if left * right < TWO_64 then left * right else U64_MAX
  {
    if left == 0 || right == 0 then 0
    else if left > U64_MAX / right then
      assert left * right >= TWO_64 by { ProductMonotone(U64_MAX / right + 1, left, right); }
      U64_MAX
    else
      assert left * right <= U64_MAX by { ProductMonotone(left, U64_MAX / right, right); }
      left * right
  }

  function BytesForTarget(o: Options, a: Averages, target: U32): nat {
    MinOf(o.maxEncodedBytes, SaturatingMultiply(a.bytesPerTransaction, target))
  }

  function RemainingAge(maximum: nat, age: nat): nat { maximum - MinOf(maximum, age) }

  function SettleAge(o: Options, a: Averages): nat
    requires o.settleDivisor >= 1
  {
    if o.settleFloor == 0 || !a.walSyncKnown || a.walSync < o.settleFloor then 0
    else MinOf(o.settleMaxAge, MaxOf(200, a.walSync / o.settleDivisor))
  }

  class AdaptiveEpochController {
    const options: Options
    var averages: Averages

    constructor (o: Options)
      ensures options == Clamped(o) && averages == Averages(0, 0, false)
    {
      options, averages := Clamped(o), Averages(0, 0, false);
    }

    method Observe(x: Observation)
      modifies this
      ensures x.transactions == 0 ==> averages == old(averages)
      ensures x.transactions != 0 ==>
                && averages.bytesPerTransaction ==
                   Ewma(old(averages.bytesPerTransaction), x.encodedBytes / x.transactions)
                && averages.walSyncKnown == (old(averages.walSyncKnown) || x.walSyncKnown)
                && averages.walSync ==
                   if x.walSyncKnown then Ewma(old(averages.walSync), x.walSync) else old(averages.walSync)
    {
      if x.transactions != 0 {
        if x.walSyncKnown {
          averages := averages.(walSync := Ewma(averages.walSync, x.walSync), walSyncKnown := true);
        }
        averages := averages.(
          bytesPerTransaction := Ewma(averages.bytesPerTransaction, x.encodedBytes / x.transactions));
      }
    }

    /** Limits never drop to zero and never exceed the configured maxima; the wait never runs past its bound. */
    method NextLimits(q: Queue) returns (limits: Limits)
      requires Sane(options)
      ensures 1 <= limits.maxTransactions <= options.maxTransactions
      ensures 1 <= limits.maxEncodedBytes <= options.maxEncodedBytes
      ensures q.oldestAge + limits.maxAge <= MaxOf(q.oldestAge, options.maximumAge)
      ensures limits.settleAge in {0, SettleAge(options, averages)}
      ensures q.pressure == Hard ==> limits == Limits(1, MinOf(options.maxEncodedBytes, 512 * 1024), 0, 0)
      ensures q.pressure == Soft ==> limits.maxTransactions == MaxOf(1, options.maxTransactions / 2)
      ensures q.pressure == Normal && q.depth <= 1 ==> limits.maxTransactions == 1
      ensures q.pressure == Normal && 1 < q.depth && options.deepQueue <= q.depth
              && q.oldestAge <= options.latencySlo ==>
                limits.maxTransactions == options.maxTransactions && limits.maxAge == 0
      ensures q.pressure == Normal && 1 < q.depth && q.oldestAge > options.latencySlo ==>
                limits.maxAge == 0 && limits.maxTransactions >= options.minUnderLoad
    {
      limits := Limits(options.maxTransactions, options.maxEncodedBytes,
                       RemainingAge(options.maximumAge, q.oldestAge), 0);
      var settle := SettleAge(options, averages);
      if q.pressure == Hard { return Limits(1, MinOf(options.maxEncodedBytes, 512 * 1024), 0, 0); }
      if q.pressure == Soft {
        var age := if options.maxTransactions < 4 then 0 else RemainingAge(MinOf(options.maximumAge, 50), q.oldestAge);
        return Limits(MaxOf(1, options.maxTransactions / 2), MaxOf(1, options.maxEncodedBytes / 2), age, 0);
      }
      if q.depth <= 1 {
        var immediate := options.maxTransactions == 1 || (averages.walSyncKnown && averages.walSync == 0)
                         || q.oldestAge > options.latencySlo;
        return limits.(maxTransactions := 1, settleAge := settle,
                       maxAge := if immediate then 0 else RemainingAge(options.maximumAge, q.oldestAge));
      }
      var deep := q.depth >= options.deepQueue;
      limits := limits.(maxTransactions := if deep then options.maxTransactions
                                           else MinOf(options.maxTransactions, MaxOf(options.minUnderLoad, q.depth)));
      if averages.bytesPerTransaction != 0 {
        limits := limits.(maxEncodedBytes := MaxOf(1, BytesForTarget(options, averages, limits.maxTransactions)));
      }
      if q.oldestAge > options.latencySlo {
        if averages.walSync >= options.latencySlo { return limits.(maxAge := 0, settleAge := settle); }
        limits := limits.(maxTransactions := MaxOf(options.minUnderLoad, limits.maxTransactions / 2));
        var bytes := if averages.bytesPerTransaction != 0 then BytesForTarget(options, averages, limits.maxTransactions)
                     else options.maxEncodedBytes / 2;
        return limits.(maxEncodedBytes := MaxOf(1, bytes), maxAge := 0, settleAge := settle);
      }
      if deep || q.depth >= limits.maxTransactions { limits := limits.(maxAge := 0); }
      limits := limits.(settleAge := settle);
    }
  }

  /** What opening a database admits: a batch of 1..512 requests of 1..2 MiB. */
  datatype Append = Append(maxBatchSize: nat, maxBatchBytes: nat, window: nat)

  ghost predicate Opened(a: Append) { 1 <= a.maxBatchSize <= 512 && 1 <= a.maxBatchBytes <= 2 * MIB }

  /** The limits of the next group, under the configured batch, the pressure targets and the oldest request's age. */
  method LimitsForQueue(control: AdaptiveEpochController, append: Append, target: Target, q: Queue)
    returns (limits: Limits)
    requires Sane(control.options) && Opened(append) && target.count >= 1 && target.bytes >= 1
    ensures 1 <= limits.maxTransactions <= MinOf(append.maxBatchSize, target.count)
    ensures 1 <= limits.maxEncodedBytes <= MinOf(append.maxBatchBytes, target.bytes)
    ensures limits.maxTransactions <= control.options.maxTransactions
    ensures q.oldestAge + limits.maxAge <= MaxOf(q.oldestAge, MinOf(append.window, target.window))
    ensures q.oldestAge + limits.maxAge <= MaxOf(q.oldestAge, control.options.maximumAge)
    ensures MinOf(append.maxBatchSize, target.count) == 1 ==> limits.maxAge == 0
  {
    limits := control.NextLimits(q);
    var count := MinOf(append.maxBatchSize, target.count);
    var window := MinOf(append.window, target.window);
    limits := limits.(maxTransactions := MinOf(limits.maxTransactions, count),
                      maxEncodedBytes := MinOf(limits.maxEncodedBytes, MinOf(append.maxBatchBytes, target.bytes)));
    limits := limits.(maxAge := if limits.maxTransactions == 1 && count == 1 then 0
                                else MinOf(limits.maxAge, RemainingAge(window, q.oldestAge)));
  }

  /** Pressure targets always leave room for a group, so a collection from a waiting queue takes something. */
  lemma GroupsNeverEmpty(trace: seq<Controller>, samples: seq<Sample>, i: nat, append: Append, limits: Limits,
                         rs: seq<Requests.Request>, n: nat)
    requires PressureControl.Run(trace, samples) && i < |trace| && Opened(append) && rs != []
    requires 1 <= limits.maxTransactions <= MinOf(append.maxBatchSize, trace[i].target.count)
    requires AppendQueues.LongestAdmissible(
               rs, n, AppendQueues.GroupLimits(limits.maxTransactions, limits.maxEncodedBytes))
    ensures trace[i].target.count >= 1 && trace[i].target.bytes >= 1
    ensures 1 <= n <= |rs| && n <= append.maxBatchSize && n <= 256
  {
    TargetsInRange(trace, samples, i);
    AppendQueues.LongestAdmissibleUnique(
      rs, n, n, AppendQueues.GroupLimits(limits.maxTransactions, limits.maxEncodedBytes));
  }
}
