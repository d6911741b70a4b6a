/**
 * `findMaximumSustainableRate`: every control period the generator compares the
 * publish and receive rates it measured with the rate it asked for, and moves its
 * rate inside a window `[minRate, maxRate]` that it narrows as it learns.
 */
module RateSearch {
  import opened Wrappers
  import opened Counters
  import opened Commands
  import opened Backlog

  /** The upper end of the window; `Double.MAX_VALUE` until the first slowdown is seen. */
  datatype MaxRate = Unbounded | AtMost(limit: real)

  /** `rate < maxRate`. */
  predicate Below(rate: real, max: MaxRate) {
    match max
    case Unbounded => true
    case AtMost(limit) => rate < limit
  }

  /** `rate <= maxRate`. */
  predicate WithinMax(rate: real, max: MaxRate) {
    match max
    case Unbounded => true
    case AtMost(limit) => rate <= limit
  }

  /** `Math.min(rate, maxRate)`. */
  function CappedBy(rate: real, max: MaxRate): (r: real)
    ensures WithinMax(r, max) && r <= rate
    ensures r == rate || max == AtMost(r)
  {
    match max
    case Unbounded => rate
    case AtMost(limit) => if rate < limit then rate else limit
  }

  /** The search's variables: `currentRate`, `minRate`, `maxRate` and `successfulPeriods`. */
  datatype RateState = RateState(currentRate: real, minRate: real, maxRate: MaxRate, successfulPeriods: nat)

  /** The variables on entry. */
  function Start(initialRate: real): RateState {
    RateState(initialRate, 0.1, Unbounded, 0)
  }

  /** The invariant the search keeps: a positive window that holds the current rate. */
  predicate Bounded(s: RateState) {
    0.0 < s.minRate <= s.currentRate && WithinMax(s.currentRate, s.maxRate)
  }

  /** The four branches of a control period, tried in this order. */
  datatype Branch = PublishersBehind | ConsumersBehind | Increase | Hold

  function BranchOf(s: RateState, publishRate: real, receiveRate: real): Branch {
    if publishRate < s.currentRate * 0.95 then PublishersBehind
    else if receiveRate < publishRate * 0.98 then ConsumersBehind
    else if Below(s.currentRate, s.maxRate) then Increase
    else Hold
  }

  /** Half way between the window's lower end and the current rate. */
  function Midpoint(s: RateState): real {
    s.minRate + (s.currentRate - s.minRate) / 2.0
  }

  /** The variables after one control period that measured the given rates. */
  function Decide(s: RateState, publishRate: real, receiveRate: real): RateState {
    match BranchOf(s, publishRate, receiveRate)
    case PublishersBehind => RateState(Midpoint(s), s.minRate, AtMost(s.currentRate * 1.1), s.successfulPeriods)
    case ConsumersBehind => RateState(Midpoint(s), s.minRate, AtMost(s.currentRate), s.successfulPeriods)
    case Increase => RateState(CappedBy(s.currentRate * 2.0, s.maxRate), s.currentRate, s.maxRate, s.successfulPeriods)
    case Hold =>
      if s.successfulPeriods + 1 > 3 then RateState(s.currentRate, s.currentRate * 0.95, AtMost(s.currentRate * 1.05), 0)
      else s.(successfulPeriods := s.successfulPeriods + 1)
  }

  /** Every control period keeps `0 < minRate <= currentRate <= maxRate`. */
  lemma DecideKeepsBounds(s: RateState, publishRate: real, receiveRate: real)
    requires Bounded(s)
    ensures Bounded(Decide(s, publishRate, receiveRate))
  {
    var t := Decide(s, publishRate, receiveRate);
    match BranchOf(s, publishRate, receiveRate)
    case PublishersBehind =>
      assert s.currentRate <= s.currentRate * 1.1;
    case ConsumersBehind =>
    case Increase =>
      assert s.currentRate <= s.currentRate * 2.0;
      assert Below(s.currentRate, s.maxRate);
    case Hold =>
  }

  /**
   * What each branch does to the window. A slowdown halves the distance from the
   * lower end and caps the window at (a little above) the old rate; an increase
   * makes the old rate the lower end and at most doubles it without leaving the
   * window, strictly raising it; a steady period at the ceiling changes nothing
   * but its count, except that the fourth narrows the window to ±5% of the rate
   * and restarts the count.
   */
  lemma DecideMovesRate(s: RateState, publishRate: real, receiveRate: real)
    requires Bounded(s)
    ensures var t := Decide(s, publishRate, receiveRate);
            match BranchOf(s, publishRate, receiveRate)
            case PublishersBehind =>
              && t.currentRate - t.minRate == (s.currentRate - s.minRate) / 2.0 && t.minRate == s.minRate
              && t.currentRate <= s.currentRate && t.maxRate == AtMost(s.currentRate * 1.1)
            case ConsumersBehind =>
              && t.currentRate - t.minRate == (s.currentRate - s.minRate) / 2.0 && t.minRate == s.minRate
              && t.currentRate <= s.currentRate && t.maxRate == AtMost(s.currentRate)
            case Increase =>
              && t.minRate == s.currentRate && s.currentRate < t.currentRate <= 2.0 * s.currentRate
              && t.maxRate == s.maxRate && WithinMax(t.currentRate, t.maxRate)
            case Hold =>
              && s.maxRate == AtMost(s.currentRate) && t.currentRate == s.currentRate
              && (if s.successfulPeriods >= 3
                  then t.minRate == 0.95 * s.currentRate && t.maxRate == AtMost(1.05 * s.currentRate) && t.successfulPeriods == 0
                  else t == s.(successfulPeriods := s.successfulPeriods + 1))
  {
    match BranchOf(s, publishRate, receiveRate)
    case PublishersBehind =>
    case ConsumersBehind =>
    case Increase =>
      assert Below(s.currentRate, s.maxRate);
      var doubled := s.currentRate * 2.0;
      assert s.currentRate < doubled;
    case Hold =>
      assert !Below(s.currentRate, s.maxRate);
  }

  /** Four steady periods at the ceiling, from a fresh count: the first three only count, the fourth narrows the window. */
  lemma FourthSteadyPeriodNarrows(s: RateState, publishRate: real, receiveRate: real)
    requires Bounded(s) && s.successfulPeriods == 0 && s.maxRate == AtMost(s.currentRate)
    requires publishRate >= s.currentRate * 0.95 && receiveRate >= publishRate * 0.98
    ensures var s1 := Decide(s, publishRate, receiveRate);
            var s2 := Decide(s1, publishRate, receiveRate);
            var s3 := Decide(s2, publishRate, receiveRate);
            var s4 := Decide(s3, publishRate, receiveRate);
            && s1 == s.(successfulPeriods := 1) && s2 == s.(successfulPeriods := 2) && s3 == s.(successfulPeriods := 3)
            && s4 == RateState(s.currentRate, s.currentRate * 0.95, AtMost(s.currentRate * 1.05), 0)
  {
  }

  /**
   * One control period's inputs: the counters read after the sleep, the clock
   * reading, and, for the consumer-lag branch, the counters read by its wait loop,
   * whether the half-second sleep after the rate is restored is interrupted, and
   * the counters read after that sleep.
   */
  datatype ControlPeriod = ControlPeriod(sample: CountersStats, now: int, drainSamples: seq<CountersStats>,
                                         settleInterrupted: bool, rebaseline: CountersStats)

  /** The search's variables together with its counter baselines and the time of the last period. */
  datatype SearchState = SearchState(rates: RateState, sentBaseline: int, receivedBaseline: int, lastControlTimestamp: int)

  /** A rate in messages per second from a message count over an interval in nanoseconds. */
  function PeriodRate(messages: int, elapsedNanos: int): real
    requires elapsedNanos > 0
  {
    messages as real / elapsedNanos as real * 1000000000.0
  }

  /** The consumer-lag wait loop's exit test. */
  function LagCleared(subscriptions: int): CountersStats -> bool {
    (sample: CountersStats) => BacklogOf(sample, subscriptions) < 1000
  }

  /** The state after some control periods, the `adjustPublishRate` calls made, and whether the search was interrupted. */
  datatype SearchOutcome = SearchOutcome(next: SearchState, issued: seq<WorkerCall>, interrupted: bool)

  /**
   * One control period. The rates are measured against the baselines, which then
   * move to the sample; in the consumer-lag branch the rate first drops to a tenth
   * of the lower end until the backlog is under 1000, then goes to the new rate and
   * the baselines are read again (the period's start time is not). A lag wait that
   * runs out of samples ends the search, and so does an interrupted sleep after the
   * rate is restored, before the second call and the re-read.
   */
  function PeriodStep(s: SearchState, p: ControlPeriod, subscriptions: int): SearchOutcome
    requires p.now > s.lastControlTimestamp
  {
    var elapsed := p.now - s.lastControlTimestamp;
    var publishRate := PeriodRate(p.sample.messagesSent - s.sentBaseline, elapsed);
    var receiveRate := PeriodRate(p.sample.messagesReceived - s.receivedBaseline, elapsed);
    var rates := Decide(s.rates, publishRate, receiveRate);
    var moved := SearchState(rates, p.sample.messagesSent, p.sample.messagesReceived, p.now);
    if BranchOf(s.rates, publishRate, receiveRate) != ConsumersBehind then
      SearchOutcome(moved, [AdjustPublishRate(rates.currentRate)], false)
    else if FirstWhere(p.drainSamples, LagCleared(subscriptions)).None? then
      SearchOutcome(moved, [AdjustPublishRate(rates.minRate / 10.0)], true)
    else if p.settleInterrupted then
      SearchOutcome(moved, [AdjustPublishRate(rates.minRate / 10.0), AdjustPublishRate(rates.currentRate)], true)
    else
      SearchOutcome(moved.(sentBaseline := p.rebaseline.messagesSent, receivedBaseline := p.rebaseline.messagesReceived),
                    [AdjustPublishRate(rates.minRate / 10.0), AdjustPublishRate(rates.currentRate), AdjustPublishRate(rates.currentRate)],
                    false)
  }

  /** The clock reading before period `i`. */
  function PreviousClock(start: int, periods: seq<ControlPeriod>, i: nat): int
    requires i <= |periods|
  {
    if i == 0 then start else periods[i - 1].now
  }

  /** The clock moves forward between control periods (each begins with a three-second sleep). */
  predicate ClockAdvances(start: int, periods: seq<ControlPeriod>) {
    forall i {:trigger PreviousClock(start, periods, i)} :: 0 <= i < |periods| ==> PreviousClock(start, periods, i) < periods[i].now
  }

  /** The search after its first `k` control periods (or at the period that interrupted it). */
  function SearchUpTo(initial: SearchState, periods: seq<ControlPeriod>, subscriptions: int, k: nat): (o: SearchOutcome)
    requires k <= |periods| && ClockAdvances(initial.lastControlTimestamp, periods)
    ensures o.next.lastControlTimestamp <= PreviousClock(initial.lastControlTimestamp, periods, k)
  {
    if k == 0 then SearchOutcome(initial, [], false)
    else
      var prev := SearchUpTo(initial, periods, subscriptions, k - 1);
      if prev.interrupted then
        assert k - 1 > 0 ==> PreviousClock(initial.lastControlTimestamp, periods, k - 1) < periods[k - 1].now;
        prev
      else
        assert PreviousClock(initial.lastControlTimestamp, periods, k - 1) < periods[k - 1].now;
        var step := PeriodStep(prev.next, periods[k - 1], subscriptions);
        SearchOutcome(step.next, prev.issued + step.issued, step.interrupted)
  }

  /** One more period of a search not yet interrupted is one `PeriodStep` from where it stood. */
  lemma SearchUpToNext(initial: SearchState, periods: seq<ControlPeriod>, subscriptions: int, k: nat)
    requires k < |periods| && ClockAdvances(initial.lastControlTimestamp, periods)
    requires !SearchUpTo(initial, periods, subscriptions, k).interrupted
    ensures var prev := SearchUpTo(initial, periods, subscriptions, k);
            && prev.next.lastControlTimestamp < periods[k].now
            && SearchUpTo(initial, periods, subscriptions, k + 1)
               == var step := PeriodStep(prev.next, periods[k], subscriptions);
                  SearchOutcome(step.next, prev.issued + step.issued, step.interrupted)
  {
    assert PreviousClock(initial.lastControlTimestamp, periods, k) < periods[k].now;
  }

  /** How the search begins: the given rate, the default window, and baselines and clock read on entry. */
  function Initial(initialRate: real, first: CountersStats, start: int): SearchState {
    SearchState(Start(initialRate), first.messagesSent, first.messagesReceived, start)
  }

  /** Once interrupted, the search stays where it stopped. */
  lemma {:induction false} InterruptedStays(initial: SearchState, periods: seq<ControlPeriod>, subscriptions: int, k: nat, m: nat)
    requires k <= m <= |periods| && ClockAdvances(initial.lastControlTimestamp, periods)
    requires SearchUpTo(initial, periods, subscriptions, k).interrupted
    ensures SearchUpTo(initial, periods, subscriptions, m) == SearchUpTo(initial, periods, subscriptions, k)
  {
    if m > k {
      InterruptedStays(initial, periods, subscriptions, k, m - 1);
    }
  }

  /**
   * From an initial rate of at least 0.1, every state the search passes through
   * keeps `0 < minRate <= currentRate <= maxRate`.
   */
  lemma {:induction false} SearchKeepsBounds(initialRate: real, first: CountersStats, start: int,
                                           periods: seq<ControlPeriod>, subscriptions: int, k: nat)
    requires 0.1 <= initialRate
    requires k <= |periods| && ClockAdvances(start, periods)
    ensures Bounded(SearchUpTo(Initial(initialRate, first, start), periods, subscriptions, k).next.rates)
  {
    var initial := Initial(initialRate, first, start);
    if k > 0 {
      SearchKeepsBounds(initialRate, first, start, periods, subscriptions, k - 1);
      var prev := SearchUpTo(initial, periods, subscriptions, k - 1);
      if !prev.interrupted {
        var s := prev.next;
        var p := periods[k - 1];
        var elapsed := p.now - s.lastControlTimestamp;
        DecideKeepsBounds(s.rates, PeriodRate(p.sample.messagesSent - s.sentBaseline, elapsed),
                          PeriodRate(p.sample.messagesReceived - s.receivedBaseline, elapsed));
      }
    }
  }

  /**
   * Every call the search makes is `adjustPublishRate`, at least one per completed
   * period, and each completed period ends by setting the rate it decided on.
   */
  lemma {:induction false} SearchAdjustsEveryPeriod(initial: SearchState, periods: seq<ControlPeriod>, subscriptions: int, k: nat)
    requires k <= |periods| && ClockAdvances(initial.lastControlTimestamp, periods)
    ensures var o := SearchUpTo(initial, periods, subscriptions, k);
            && (forall i :: 0 <= i < |o.issued| ==> o.issued[i].AdjustPublishRate?)
            && (!o.interrupted ==> |o.issued| >= k)
            && (!o.interrupted && k > 0 ==> o.issued[|o.issued| - 1] == AdjustPublishRate(o.next.rates.currentRate))
  {
    if k > 0 {
      SearchAdjustsEveryPeriod(initial, periods, subscriptions, k - 1);
    }
  }

  /**
   * The consumer-lag branch: the first call sets a tenth of the window's lower end;
   * the search goes on exactly when some wait sample had a backlog under 1000 and
   * the sleep after the second call was not interrupted, and then the new rate is
   * set again and the baselines come from the re-read counters while the period's
   * start time stays the clock reading taken before the wait. A search interrupted
   * in that sleep has set the new rate once and keeps the sample's baselines. Other
   * branches make the single call that sets the new rate and move the baselines to
   * the sample.
   */
  lemma LagBranch(s: SearchState, p: ControlPeriod, subscriptions: int)
    requires p.now > s.lastControlTimestamp
    ensures var o := PeriodStep(s, p, subscriptions);
            var elapsed := p.now - s.lastControlTimestamp;
            var publishRate := PeriodRate(p.sample.messagesSent - s.sentBaseline, elapsed);
            var receiveRate := PeriodRate(p.sample.messagesReceived - s.receivedBaseline, elapsed);
            var lagging := BranchOf(s.rates, publishRate, receiveRate) == ConsumersBehind;
            var cleared := exists j :: 0 <= j < |p.drainSamples| && BacklogOf(p.drainSamples[j], subscriptions) < 1000;
            && o.next.rates == Decide(s.rates, publishRate, receiveRate)
            && o.next.lastControlTimestamp == p.now
            && (o.interrupted <==> lagging && (!cleared || p.settleInterrupted))
            && (lagging ==> o.issued[0] == AdjustPublishRate(s.rates.minRate / 10.0))
            && (lagging && !cleared ==> |o.issued| == 1)
            && (lagging && cleared && p.settleInterrupted ==>
                  && o.issued == [AdjustPublishRate(s.rates.minRate / 10.0), AdjustPublishRate(o.next.rates.currentRate)]
                  && o.next.sentBaseline == p.sample.messagesSent
                  && o.next.receivedBaseline == p.sample.messagesReceived)
            && (lagging && cleared && !p.settleInterrupted ==>
                  && o.issued == [AdjustPublishRate(s.rates.minRate / 10.0), AdjustPublishRate(o.next.rates.currentRate),
                                  AdjustPublishRate(o.next.rates.currentRate)]
                  && o.next.sentBaseline == p.rebaseline.messagesSent
                  && o.next.receivedBaseline == p.rebaseline.messagesReceived)
            && (!lagging ==>
                  && o.issued == [AdjustPublishRate(o.next.rates.currentRate)]
                  && o.next.sentBaseline == p.sample.messagesSent
                  && o.next.receivedBaseline == p.sample.messagesReceived)
  {
    var r := FirstWhere(p.drainSamples, LagCleared(subscriptions));
    if r.Some? {
      assert LagCleared(subscriptions)(p.drainSamples[r.value]);
    } else {
      assert forall j :: 0 <= j < |p.drainSamples| ==> !LagCleared(subscriptions)(p.drainSamples[j]);
    }
  }
}
