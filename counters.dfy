/**
 * `CountersStats`: the monotonic message counters one worker reports, and their
 * merge across workers.
 */
module Counters {

  /** Counters since the last reset. Java `long`s; overflow is not modelled. */
  datatype CountersStats = CountersStats(messagesSent: int, messagesReceived: int, messageSendErrors: int)

  /** A freshly constructed `CountersStats`: every field starts at 0. */
  const Zero: CountersStats := CountersStats(0, 0, 0)

  /**
   * `a.plus(b)`: a new record whose every field is the sum of the operands' fields.
   * Being a value, neither operand can be changed by it.
   */
  function Plus(a: CountersStats, b: CountersStats): (r: CountersStats)
    ensures r.messagesSent == a.messagesSent + b.messagesSent
    ensures r.messagesReceived == a.messagesReceived + b.messagesReceived
    ensures r.messageSendErrors == a.messageSendErrors + b.messageSendErrors
  {
    var result := Zero;
    var withThis := CountersStats(result.messagesSent + a.messagesSent,
                                  result.messagesReceived + a.messagesReceived,
                                  result.messageSendErrors + a.messageSendErrors);
    CountersStats(withThis.messagesSent + b.messagesSent,
                  withThis.messagesReceived + b.messagesReceived,
                  withThis.messageSendErrors + b.messageSendErrors)
  }

  lemma PlusCommutes(a: CountersStats, b: CountersStats)
    ensures Plus(a, b) == Plus(b, a)
  {
  }

  lemma PlusAssociates(a: CountersStats, b: CountersStats, c: CountersStats)
    ensures Plus(Plus(a, b), c) == Plus(a, Plus(b, c))
  {
  }

  lemma ZeroIsIdentity(a: CountersStats)
    ensures Plus(Zero, a) == a && Plus(a, Zero) == a
  {
  }

  /** Left fold of `plus` over the workers' counters, starting from a fresh record. */
  function Merge(workers: seq<CountersStats>): CountersStats {
    if workers == [] then Zero else Plus(Merge(workers[..|workers| - 1]), workers[|workers| - 1])
  }

  /** The merged counters are the field-wise sums over all workers. */
  function SumSent(workers: seq<CountersStats>): int {
    if workers == [] then 0 else workers[0].messagesSent + SumSent(workers[1..])
  }

  function SumReceived(workers: seq<CountersStats>): int {
    if workers == [] then 0 else workers[0].messagesReceived + SumReceived(workers[1..])
  }

  function SumErrors(workers: seq<CountersStats>): int {
    if workers == [] then 0 else workers[0].messageSendErrors + SumErrors(workers[1..])
  }

  lemma {:induction false} SumsSplit(xs: seq<CountersStats>, ys: seq<CountersStats>)
    ensures SumSent(xs + ys) == SumSent(xs) + SumSent(ys)
    ensures SumReceived(xs + ys) == SumReceived(xs) + SumReceived(ys)
    ensures SumErrors(xs + ys) == SumErrors(xs) + SumErrors(ys)
  {
    if xs != [] {
      assert (xs + ys)[1..] == xs[1..] + ys;
      SumsSplit(xs[1..], ys);
    } else {
      assert xs + ys == ys;
    }
  }

  /** Merging N workers' counters gives the arithmetic sum of each counter. */
  lemma {:induction false} MergeIsSum(workers: seq<CountersStats>)
    ensures Merge(workers) == CountersStats(SumSent(workers), SumReceived(workers), SumErrors(workers))
  {
    if workers != [] {
      var init := workers[..|workers| - 1];
      var last := workers[|workers| - 1];
      MergeIsSum(init);
      assert workers == init + [last];
      SumsSplit(init, [last]);
    }
  }

  /** A fold over the workers does not depend on how they are grouped. */
  lemma {:induction false} MergeSplit(xs: seq<CountersStats>, ys: seq<CountersStats>)
    ensures Merge(xs + ys) == Plus(Merge(xs), Merge(ys))
  {
    MergeIsSum(xs);
    MergeIsSum(ys);
    MergeIsSum(xs + ys);
    SumsSplit(xs, ys);
  }
}
