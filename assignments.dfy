/**
 * The lists a generator builds before the shuffle: one producer topic per
 * (copy, topic) and one consumer entry per (topic, subscription, consumer).
 */
module Assignments {
  import opened Text
  import opened Commands

  /** A Java `int` loop bound: `for (i = 0; i < n; i++)` runs `max(n, 0)` times. */
  function NatOf(x: int): nat {
    if x < 0 then 0 else x
  }

  function TopicNames(topics: seq<Topic>): (r: seq<string>)
    ensures |r| == |topics| && forall k :: 0 <= k < |topics| ==> r[k] == topics[k].name
  {
    if topics == [] then [] else TopicNames(topics[..|topics| - 1]) + [topics[|topics| - 1].name]
  }

  /** `createProducers`' list: `copies` passes over the topic names. */
  function ProducerTopics(names: seq<string>, copies: nat): seq<string> {
    if copies == 0 then [] else ProducerTopics(names, copies - 1) + names
  }

  lemma {:induction false} ProducerTopicsLength(names: seq<string>, copies: nat)
    ensures |ProducerTopics(names, copies)| == copies * |names|
  {
    if copies > 0 {
      ProducerTopicsLength(names, copies - 1);
      Distribute(copies - 1, 1, |names|);
    }
  }

  /** Pass `c` of `copies` puts name `k` at `c · |names| + k`. */
  lemma {:induction false} ProducerTopicAt(names: seq<string>, copies: nat, c: nat, k: nat)
    requires c < copies && k < |names|
    ensures var r := ProducerTopics(names, copies);
            c * |names| + k < |r| && r[c * |names| + k] == names[k]
  {
    ProducerTopicsLength(names, copies - 1);
    ProducerTopicsLength(names, copies);
    var prev := ProducerTopics(names, copies - 1);
    if c < copies - 1 {
      ProducerTopicAt(names, copies - 1, c, k);
    } else {
      assert c * |names| == |prev|;
    }
    SlotBelow(c, copies, |names|, k);
  }

  /** The list has `copies · |names|` entries, and pass `c` puts name `k` at `c · |names| + k`. */
  lemma {:induction false} ProducerTopicsLayout(names: seq<string>, copies: nat)
    ensures var r := ProducerTopics(names, copies);
            && |r| == copies * |names|
            && forall c: nat, k: nat :: c < copies && k < |names| ==> c * |names| + k < |r| && r[c * |names| + k] == names[k]
  {
    ProducerTopicsLength(names, copies);
    var r := ProducerTopics(names, copies);
    forall c: nat, k: nat | c < copies && k < |names|
      ensures c * |names| + k < |r| && r[c * |names| + k] == names[k]
    {
      ProducerTopicAt(names, copies, c, k);
    }
  }

  /** `(a + b) · n == a · n + b · n`. */
  lemma Distribute(a: int, b: int, n: int)
    ensures (a + b) * n == a * n + b * n
  {
  }

  lemma NextMultiple(t: int, p: int)
    ensures (t - 1) * p + p == t * p
  {
    Distribute(t - 1, 1, p);
  }

  lemma {:induction false} MulAtLeast(d: int, p: int)
    requires d >= 1 && p > 0
    ensures d * p >= p
  {
    if d > 1 {
      MulAtLeast(d - 1, p);
      Distribute(d - 1, 1, p);
    }
  }

  /** Slot `k < n` of row `c < m` lies inside `m` rows of width `n`. */
  lemma SlotBelow(c: nat, m: nat, n: nat, k: nat)
    requires c < m && k < n
    ensures c * n + k < m * n
  {
    Distribute(c, m - c, n);
    MulAtLeast(m - c, n);
  }

  /** Each topic name occurs `copies` times as often as among the topics. */
  lemma {:induction false} ProducerTopicsCount(names: seq<string>, copies: nat, x: string)
    ensures multiset(ProducerTopics(names, copies))[x] == copies * multiset(names)[x]
  {
    if copies > 0 {
      ProducerTopicsCount(names, copies - 1, x);
      assert ProducerTopics(names, copies) == ProducerTopics(names, copies - 1) + names;
      assert (copies - 1) * multiset(names)[x] + multiset(names)[x] == copies * multiset(names)[x];
    }
  }

  /** `String.format("sub-%03d-%s", i, random)`. */
  function SubscriptionName(i: nat, random: string): string {
    "sub-" + ZeroPadded(i, 3) + "-" + random
  }

  /** Subscription names start `sub-`, then `i` zero-padded (to exactly three digits below 1000), then `-`. */
  lemma SubscriptionNaming(i: nat, random: string)
    ensures var name := SubscriptionName(i, random);
            var digits := ZeroPadded(i, 3);
            && "sub-" + digits + "-" <= name
            && DigitsValue(digits) == i
            && (i < 1000 ==> |digits| == 3)
  {
    var name := SubscriptionName(i, random);
    var head := "sub-" + ZeroPadded(i, 3) + "-";
    assert name == head + random;
    assert name[..|head|] == head;
    ZeroPaddedDenotes(i, 3);
    if i < 1000 {
      SmallNatToString(i, 3);
    }
  }

  /** The entries of one subscription: consumers `0 .. consumers - 1`, each with its index as partition. */
  function ConsumerBlock(topic: string, subscription: string, consumers: nat): (r: seq<TopicSubscription>)
    ensures |r| == consumers
    ensures forall j :: 0 <= j < consumers ==> r[j] == TopicSubscription(topic, subscription, j)
  {
    seq(consumers, j requires 0 <= j => TopicSubscription(topic, subscription, j))
  }

  /**
   * The entries of topic `t` (named `topic`) for its first `i` subscriptions,
   * subscription `s` of topic `t` being named `subscription(t, s)`.
   */
  function TopicEntries(topic: string, subscription: (nat, nat) -> string, t: nat, consumers: nat, i: nat): seq<TopicSubscription> {
    if i == 0 then []
    else TopicEntries(topic, subscription, t, consumers, i - 1) + ConsumerBlock(topic, subscription(t, i - 1), consumers)
  }

  /**
   * The subscription names `createConsumers` draws: `random(t, i)` stands for the
   * random string drawn for subscription `i` of topic `t`.
   */
  function SubscriptionNames(random: (nat, nat) -> string): (nat, nat) -> string {
    (t: nat, i: nat) => SubscriptionName(i, random(t, i))
  }

  /** `createConsumers`' list over the first `t` topics. */
  function ConsumerEntries(topics: seq<Topic>, subscriptions: nat, consumers: nat, subscription: (nat, nat) -> string, t: nat): seq<TopicSubscription>
    requires t <= |topics|
  {
    if t == 0 then []
    else ConsumerEntries(topics, subscriptions, consumers, subscription, t - 1)
           + TopicEntries(topics[t - 1].name, subscription, t - 1, consumers, subscriptions)
  }

  function Entry(topics: seq<Topic>, subscription: (nat, nat) -> string, t: nat, i: nat, j: nat): TopicSubscription
    requires t < |topics|
  {
    TopicSubscription(topics[t].name, subscription(t, i), j)
  }

  lemma {:induction false} TopicEntriesLength(topic: string, subscription: (nat, nat) -> string, t: nat, consumers: nat, i: nat)
    ensures |TopicEntries(topic, subscription, t, consumers, i)| == i * consumers
  {
    if i > 0 {
      TopicEntriesLength(topic, subscription, t, consumers, i - 1);
      Distribute(i - 1, 1, consumers);
    }
  }

  lemma {:induction false} TopicEntryAt(topic: string, subscription: (nat, nat) -> string, t: nat, consumers: nat, i: nat, s: nat, j: nat)
    requires s < i && j < consumers
    ensures var r := TopicEntries(topic, subscription, t, consumers, i);
            s * consumers + j < |r| && r[s * consumers + j] == TopicSubscription(topic, subscription(t, s), j)
  {
    var prev := TopicEntries(topic, subscription, t, consumers, i - 1);
    var block := ConsumerBlock(topic, subscription(t, i - 1), consumers);
    var r := TopicEntries(topic, subscription, t, consumers, i);
    assert r == prev + block;
    TopicEntriesLength(topic, subscription, t, consumers, i - 1);
    var pos := s * consumers + j;
    if s < i - 1 {
      TopicEntryAt(topic, subscription, t, consumers, i - 1, s, j);
      assert r[pos] == prev[pos];
    } else {
      assert pos == |prev| + j;
      assert r[pos] == block[j];
    }
  }

  lemma {:induction false} ConsumerEntriesLength(topics: seq<Topic>, subscriptions: nat, consumers: nat,
                                               subscription: (nat, nat) -> string, t: nat)
    requires t <= |topics|
    ensures |ConsumerEntries(topics, subscriptions, consumers, subscription, t)| == t * (subscriptions * consumers)
  {
    if t > 0 {
      var perTopic := subscriptions * consumers;
      var prev := ConsumerEntries(topics, subscriptions, consumers, subscription, t - 1);
      var block := TopicEntries(topics[t - 1].name, subscription, t - 1, consumers, subscriptions);
      assert ConsumerEntries(topics, subscriptions, consumers, subscription, t) == prev + block;
      ConsumerEntriesLength(topics, subscriptions, consumers, subscription, t - 1);
      TopicEntriesLength(topics[t - 1].name, subscription, t - 1, consumers, subscriptions);
      assert |prev + block| == (t - 1) * perTopic + perTopic;
      NextMultiple(t, perTopic);
    }
  }

  /** Entry `(u, i, j)` sits at `(u · subscriptions + i) · consumers + j` of `r`. */
  predicate Placed(r: seq<TopicSubscription>, topics: seq<Topic>, subscriptions: nat, consumers: nat,
                   subscription: (nat, nat) -> string, u: nat, i: nat, j: nat)
    requires u < |topics|
  {
    var pos := (u * subscriptions + i) * consumers + j;
    pos < |r| && r[pos] == Entry(topics, subscription, u, i, j)
  }

  lemma {:induction false} ConsumerEntryAt(topics: seq<Topic>, subscriptions: nat, consumers: nat,
                                         subscription: (nat, nat) -> string, t: nat, u: nat, i: nat, j: nat)
    requires t <= |topics| && u < t && i < subscriptions && j < consumers
    ensures Placed(ConsumerEntries(topics, subscriptions, consumers, subscription, t), topics, subscriptions, consumers, subscription, u, i, j)
  {
    var block := subscriptions * consumers;
    ConsumerEntriesLength(topics, subscriptions, consumers, subscription, t - 1);
    ConsumerEntriesLength(topics, subscriptions, consumers, subscription, t);
    var prev := ConsumerEntries(topics, subscriptions, consumers, subscription, t - 1);
    var last := TopicEntries(topics[t - 1].name, subscription, t - 1, consumers, subscriptions);
    var pos := (u * subscriptions + i) * consumers + j;
    Rows(u, subscriptions, consumers, i, j);
    SlotBelow(i, subscriptions, consumers, j);
    SlotBelow(u, t, block, i * consumers + j);
    if u < t - 1 {
      ConsumerEntryAt(topics, subscriptions, consumers, subscription, t - 1, u, i, j);
      assert (prev + last)[pos] == prev[pos];
    } else {
      TopicEntryAt(topics[t - 1].name, subscription, t - 1, consumers, subscriptions, i, j);
      assert pos == |prev| + (i * consumers + j);
      assert (prev + last)[pos] == last[i * consumers + j];
    }
  }

  /** `(u · s + i) · c + j == u · (s · c) + (i · c + j)`. */
  lemma Rows(u: int, s: int, c: int, i: int, j: int)
    ensures (u * s + i) * c + j == u * (s * c) + (i * c + j)
  {
    Distribute(u * s, i, c);
    assert (u * s) * c == u * (s * c);
  }

  /**
   * One entry per (topic `u`, subscription `i`, consumer `j`): `|topics| · subscriptions
   * · consumers` entries, the one at `(u · subscriptions + i) · consumers + j` naming
   * topic `u`, subscription `i` of that topic and partition `j`.
   */
  lemma {:induction false} ConsumerEntriesLayout(topics: seq<Topic>, subscriptions: nat, consumers: nat, subscription: (nat, nat) -> string)
    ensures var r := ConsumerEntries(topics, subscriptions, consumers, subscription, |topics|);
            && |r| == |topics| * (subscriptions * consumers)
            && forall u: nat, i: nat, j: nat :: u < |topics| && i < subscriptions && j < consumers ==>
                 Placed(r, topics, subscriptions, consumers, subscription, u, i, j)
  {
    ConsumerEntriesLength(topics, subscriptions, consumers, subscription, |topics|);
    var r := ConsumerEntries(topics, subscriptions, consumers, subscription, |topics|);
    forall u: nat, i: nat, j: nat | u < |topics| && i < subscriptions && j < consumers
      ensures Placed(r, topics, subscriptions, consumers, subscription, u, i, j)
    {
      ConsumerEntryAt(topics, subscriptions, consumers, subscription, |topics|, u, i, j);
    }
  }
}
