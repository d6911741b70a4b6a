/**
 * `LatencyMetric`: twelve nullable latency figures (milliseconds), filled in from a
 * latency histogram by field-name prefix, and compared against a baseline.
 */
module Latency {
  import opened Wrappers

  /** The twelve `Double` fields, the only ones the reflective loops look at. */
  datatype Field =
    | PublishLatencyAvg | PublishLatency95pct | PublishLatency99pct
    | PublishLatency999pct | PublishLatency9999pct | PublishLatencyMax
    | EndToEndLatencyAvg | EndToEndLatency95pct | EndToEndLatency99pct
    | EndToEndLatency999pct | EndToEndLatency9999pct | EndToEndLatencyMax

  /** The fields in declaration order, the order the reflective loops visit them in. */
  const Fields: seq<Field> := [
    PublishLatencyAvg, PublishLatency95pct, PublishLatency99pct,
    PublishLatency999pct, PublishLatency9999pct, PublishLatencyMax,
    EndToEndLatencyAvg, EndToEndLatency95pct, EndToEndLatency99pct,
    EndToEndLatency999pct, EndToEndLatency9999pct, EndToEndLatencyMax]

  const FieldCount: nat := 12

  /** The position of a field in declaration order. */
  function FieldIndex(f: Field): (i: nat)
    ensures i < FieldCount
  {
    match f
    case PublishLatencyAvg => 0
    case PublishLatency95pct => 1
    case PublishLatency99pct => 2
    case PublishLatency999pct => 3
    case PublishLatency9999pct => 4
    case PublishLatencyMax => 5
    case EndToEndLatencyAvg => 6
    case EndToEndLatency95pct => 7
    case EndToEndLatency99pct => 8
    case EndToEndLatency999pct => 9
    case EndToEndLatency9999pct => 10
    case EndToEndLatencyMax => 11
  }

  /** The field at a position in declaration order. */
  function FieldAt(i: nat): (f: Field)
    requires i < FieldCount
    ensures FieldIndex(f) == i
  {
    assert |Fields| == FieldCount;
    Fields[i]
  }

  lemma FieldAtIndex(f: Field)
    ensures FieldAt(FieldIndex(f)) == f
  {
  }

  const PublishPrefix: string := "publishLatency"
  const EndToEndPrefix: string := "endToEndLatency"

  /** The Java field names, in declaration order. */
  const FieldNames: seq<string> := [
    "publishLatencyAvg", "publishLatency95pct", "publishLatency99pct",
    "publishLatency999pct", "publishLatency9999pct", "publishLatencyMax",
    "endToEndLatencyAvg", "endToEndLatency95pct", "endToEndLatency99pct",
    "endToEndLatency999pct", "endToEndLatency9999pct", "endToEndLatencyMax"]

  function FieldName(f: Field): string {
    assert |FieldNames| == FieldCount;
    FieldNames[FieldIndex(f)]
  }

  predicate IsPublishField(f: Field) { FieldIndex(f) < 6 }

  /** Every field name starts with exactly one of the two prefixes. */
  lemma FieldPrefixes(f: Field)
    ensures PublishPrefix <= FieldName(f) <==> IsPublishField(f)
    ensures EndToEndPrefix <= FieldName(f) <==> !IsPublishField(f)
  {
    match f
    case PublishLatencyAvg => assert FieldName(f)[0] != EndToEndPrefix[0];
    case PublishLatency95pct => assert FieldName(f)[0] != EndToEndPrefix[0];
    case PublishLatency99pct => assert FieldName(f)[0] != EndToEndPrefix[0];
    case PublishLatency999pct => assert FieldName(f)[0] != EndToEndPrefix[0];
    case PublishLatency9999pct => assert FieldName(f)[0] != EndToEndPrefix[0];
    case PublishLatencyMax => assert FieldName(f)[0] != EndToEndPrefix[0];
    case EndToEndLatencyAvg => assert FieldName(f)[0] != PublishPrefix[0];
    case EndToEndLatency95pct => assert FieldName(f)[0] != PublishPrefix[0];
    case EndToEndLatency99pct => assert FieldName(f)[0] != PublishPrefix[0];
    case EndToEndLatency999pct => assert FieldName(f)[0] != PublishPrefix[0];
    case EndToEndLatency9999pct => assert FieldName(f)[0] != PublishPrefix[0];
    case EndToEndLatencyMax => assert FieldName(f)[0] != PublishPrefix[0];
  }

  /** The oracle standing for an HdrHistogram: its mean, four percentiles and maximum (microseconds). */
  datatype HistogramSummary = HistogramSummary(mean: real, p95: real, p99: real, p999: real, p9999: real, max: real)

  /** Microseconds to milliseconds; the source then rounds to two decimals, which is not modelled. */
  function MicrosToMillis(micros: real): real {
    micros / 1000.0
  }

  /** The switch on the field-name suffix; an unknown suffix yields 0. */
  function SuffixValue(suffix: string, h: HistogramSummary): real {
    if suffix == "Avg" then MicrosToMillis(h.mean)
    else if suffix == "95pct" then MicrosToMillis(h.p95)
    else if suffix == "99pct" then MicrosToMillis(h.p99)
    else if suffix == "999pct" then MicrosToMillis(h.p999)
    else if suffix == "9999pct" then MicrosToMillis(h.p9999)
    else if suffix == "Max" then MicrosToMillis(h.max)
    else 0.0
  }

  /** The histogram figure a field receives: the one its own suffix names, in milliseconds. */
  function HistogramFigure(f: Field, h: HistogramSummary): real {
    match f
    case PublishLatencyAvg => h.mean
    case PublishLatency95pct => h.p95
    case PublishLatency99pct => h.p99
    case PublishLatency999pct => h.p999
    case PublishLatency9999pct => h.p9999
    case PublishLatencyMax => h.max
    case EndToEndLatencyAvg => h.mean
    case EndToEndLatency95pct => h.p95
    case EndToEndLatency99pct => h.p99
    case EndToEndLatency999pct => h.p999
    case EndToEndLatency9999pct => h.p9999
    case EndToEndLatencyMax => h.max
  }

  /** After stripping its own prefix, each field's suffix selects that field's histogram figure. */
  lemma SuffixDispatch(f: Field, h: HistogramSummary)
    ensures var prefix := if IsPublishField(f) then PublishPrefix else EndToEndPrefix;
            |prefix| <= |FieldName(f)| && SuffixValue(FieldName(f)[|prefix|..], h) == HistogramFigure(f, h) / 1000.0
  {
    match f
    case PublishLatencyAvg => assert FieldName(f)[14..] == "Avg";
    case PublishLatency95pct => assert FieldName(f)[14..] == "95pct";
    case PublishLatency99pct => assert FieldName(f)[14..] == "99pct";
    case PublishLatency999pct => assert FieldName(f)[14..] == "999pct";
    case PublishLatency9999pct => assert FieldName(f)[14..] == "9999pct";
    case PublishLatencyMax => assert FieldName(f)[14..] == "Max";
    case EndToEndLatencyAvg => assert FieldName(f)[15..] == "Avg";
    case EndToEndLatency95pct => assert FieldName(f)[15..] == "95pct";
    case EndToEndLatency99pct => assert FieldName(f)[15..] == "99pct";
    case EndToEndLatency999pct => assert FieldName(f)[15..] == "999pct";
    case EndToEndLatency9999pct => assert FieldName(f)[15..] == "9999pct";
    case EndToEndLatencyMax => assert FieldName(f)[15..] == "Max";
  }

  /** The value a field holds after populating with `prefix` from `h`. */
  function PopulatedValue(f: Field, old_: Option<real>, prefix: string, h: HistogramSummary): Option<real> {
    var name := FieldName(f);
    if prefix <= name then Some(SuffixValue(name[|prefix|..], h)) else old_
  }

  /** With the publish prefix, exactly the publish fields take the histogram's figure (in milliseconds). */
  lemma PublishPopulated(f: Field, old_: Option<real>, h: HistogramSummary)
    ensures PopulatedValue(f, old_, PublishPrefix, h) == if IsPublishField(f) then Some(HistogramFigure(f, h) / 1000.0) else old_
  {
    FieldPrefixes(f);
    SuffixDispatch(f, h);
  }

  /** With the end-to-end prefix, exactly the end-to-end fields take the histogram's figure (in milliseconds). */
  lemma EndToEndPopulated(f: Field, old_: Option<real>, h: HistogramSummary)
    ensures PopulatedValue(f, old_, EndToEndPrefix, h) == if IsPublishField(f) then old_ else Some(HistogramFigure(f, h) / 1000.0)
  {
    FieldPrefixes(f);
    SuffixDispatch(f, h);
  }

  /** The map after the reflective loop has visited the first `k` fields. */
  function PopulatedUpTo(values: map<Field, Option<real>>, prefix: string, h: HistogramSummary, k: nat): (m: map<Field, Option<real>>)
    requires Complete(values) && k <= FieldCount
    ensures Complete(m)
  {
    if k == 0 then values
    else
      var f := FieldAt(k - 1);
      var m := PopulatedUpTo(values, prefix, h, k - 1);
      m[f := PopulatedValue(f, m[f], prefix, h)]
  }

  /** Visiting the first `k` fields changes exactly those whose name starts with the prefix. */
  lemma {:induction false} PopulatedUpToPointwise(values: map<Field, Option<real>>, prefix: string, h: HistogramSummary, k: nat)
    requires Complete(values) && k <= FieldCount
    ensures var m := PopulatedUpTo(values, prefix, h, k);
            forall f :: m[f] == if FieldIndex(f) < k then PopulatedValue(f, values[f], prefix, h) else values[f]
  {
    if k > 0 {
      PopulatedUpToPointwise(values, prefix, h, k - 1);
      var f := FieldAt(k - 1);
      var before := PopulatedUpTo(values, prefix, h, k - 1);
      var m := PopulatedUpTo(values, prefix, h, k);
      assert m == before[f := PopulatedValue(f, before[f], prefix, h)];
      forall g
        ensures m[g] == if FieldIndex(g) < k then PopulatedValue(g, values[g], prefix, h) else values[g]
      {
        if g == f {
          assert before[g] == values[g];
        } else {
          assert m[g] == before[g];
          assert FieldIndex(g) != k - 1 by { FieldAtIndex(g); }
        }
      }
    }
  }

  datatype ComparisonResult = ComparisonResult(metricName: string, currentValue: real, expectedValue: real)

  /** The regression filter: both values present and the current one above the allowed margin. */
  predicate Regressed(current: Option<real>, expected: Option<real>, errorThreshold: real) {
    expected.Some? && current.Some? && current.value > (1.0 + errorThreshold / 100.0) * expected.value
  }

  /** `compareAndAppendReason`: appends one entry when the field regressed. */
  function AppendReason(result: seq<ComparisonResult>, metricName: string, current: Option<real>,
                        expected: Option<real>, errorThreshold: real): (r: seq<ComparisonResult>)
    ensures Regressed(current, expected, errorThreshold) ==>
              r == result + [ComparisonResult(metricName, current.value, expected.value)]
    ensures !Regressed(current, expected, errorThreshold) ==> r == result
  {
    if expected.Some? && current.Some? && current.value > (1.0 + errorThreshold / 100.0) * expected.value then
      result + [ComparisonResult(metricName, current.value, expected.value)]
    else result
  }

  predicate Complete(values: map<Field, Option<real>>) {
    forall f: Field :: f in values
  }

  /** The comparison over the first `k` fields, in field order. */
  function DiffUpTo(current: map<Field, Option<real>>, expected: map<Field, Option<real>>,
                    errorThreshold: real, k: nat): seq<ComparisonResult>
    requires Complete(current) && Complete(expected) && k <= FieldCount
  {
    if k == 0 then []
    else
      var f := FieldAt(k - 1);
      AppendReason(DiffUpTo(current, expected, errorThreshold, k - 1), FieldName(f), current[f], expected[f], errorThreshold)
  }

  function Diff(current: map<Field, Option<real>>, expected: map<Field, Option<real>>, errorThreshold: real): seq<ComparisonResult>
    requires Complete(current) && Complete(expected)
  {
    DiffUpTo(current, expected, errorThreshold, FieldCount)
  }

  /** The entry a regressed field contributes. */
  function EntryOf(f: Field, current: map<Field, Option<real>>, expected: map<Field, Option<real>>): ComparisonResult
    requires Complete(current) && Complete(expected)
  {
    ComparisonResult(FieldName(f), current[f].GetOr(0.0), expected[f].GetOr(0.0))
  }

  /** Field names tell fields apart, so entries name fields. */
  lemma FieldNameInjective(f: Field, g: Field)
    requires FieldName(f) == FieldName(g)
    ensures f == g
  {
    match f
    case PublishLatencyAvg => assert |FieldName(g)| == 17;
    case PublishLatency95pct => assert |FieldName(g)| == 19 && FieldName(g)[15] == '5';
    case PublishLatency99pct => assert |FieldName(g)| == 19 && FieldName(g)[15] == '9';
    case PublishLatency999pct => assert |FieldName(g)| == 20 && FieldName(g)[0] == 'p';
    case PublishLatency9999pct => assert |FieldName(g)| == 21 && FieldName(g)[0] == 'p';
    case PublishLatencyMax => assert |FieldName(g)| == 17 && FieldName(g)[14] == 'M';
    case EndToEndLatencyAvg => assert |FieldName(g)| == 18 && FieldName(g)[15] == 'A';
    case EndToEndLatency95pct => assert |FieldName(g)| == 20 && FieldName(g)[0] == 'e';
    case EndToEndLatency99pct => assert |FieldName(g)| == 20 && FieldName(g)[16] == '9';
    case EndToEndLatency999pct => assert |FieldName(g)| == 21 && FieldName(g)[0] == 'e';
    case EndToEndLatency9999pct => assert |FieldName(g)| == 22;
    case EndToEndLatencyMax => assert |FieldName(g)| == 18 && FieldName(g)[15] == 'M';
  }

  /**
   * The comparison: a field has an entry iff both values are present and the current
   * one exceeds `(1 + threshold/100)` times the expected one; the entry records the
   * field's name, the current value and the expected value; every entry is such a
   * field's; at most twelve entries.
   */
  lemma DiffCharacterised(current: map<Field, Option<real>>, expected: map<Field, Option<real>>, errorThreshold: real)
    requires Complete(current) && Complete(expected)
    ensures var r := Diff(current, expected, errorThreshold);
            && |r| <= FieldCount
            && (forall f :: Regressed(current[f], expected[f], errorThreshold) <==> EntryOf(f, current, expected) in r)
            && (forall f :: Regressed(current[f], expected[f], errorThreshold) ==>
                  EntryOf(f, current, expected) == ComparisonResult(FieldName(f), current[f].value, expected[f].value))
            && (forall e :: e in r ==> exists f :: e == EntryOf(f, current, expected) && Regressed(current[f], expected[f], errorThreshold))
  {
    DiffInFieldOrder(current, expected, errorThreshold, FieldCount);
    RegressedHaveEntries(current, expected, errorThreshold);
    EntriesAreRegressions(current, expected, errorThreshold);
  }

  lemma RegressedHaveEntries(current: map<Field, Option<real>>, expected: map<Field, Option<real>>, errorThreshold: real)
    requires Complete(current) && Complete(expected)
    ensures forall f :: Regressed(current[f], expected[f], errorThreshold) ==> EntryOf(f, current, expected) in Diff(current, expected, errorThreshold)
  {
    DiffInFieldOrder(current, expected, errorThreshold, FieldCount);
    RegressedFieldsMembers(current, expected, errorThreshold, FieldCount);
    var r := Diff(current, expected, errorThreshold);
    var fs := RegressedFields(current, expected, errorThreshold, FieldCount);
    forall f | Regressed(current[f], expected[f], errorThreshold)
      ensures EntryOf(f, current, expected) in r
    {
      var i :| 0 <= i < |fs| && fs[i] == f;
      assert r[i] == EntryOf(f, current, expected);
    }
  }

  lemma EntriesAreRegressions(current: map<Field, Option<real>>, expected: map<Field, Option<real>>, errorThreshold: real)
    requires Complete(current) && Complete(expected)
    ensures var r := Diff(current, expected, errorThreshold);
            && (forall f :: EntryOf(f, current, expected) in r ==> Regressed(current[f], expected[f], errorThreshold))
            && (forall e :: e in r ==> exists f :: e == EntryOf(f, current, expected) && Regressed(current[f], expected[f], errorThreshold))
  {
    DiffInFieldOrder(current, expected, errorThreshold, FieldCount);
    var r := Diff(current, expected, errorThreshold);
    var fs := RegressedFields(current, expected, errorThreshold, FieldCount);
    forall f | EntryOf(f, current, expected) in r
      ensures Regressed(current[f], expected[f], errorThreshold)
    {
      var i :| 0 <= i < |r| && r[i] == EntryOf(f, current, expected);
      FieldNameInjective(f, fs[i]);
    }
    forall e | e in r
      ensures exists f :: e == EntryOf(f, current, expected) && Regressed(current[f], expected[f], errorThreshold)
    {
      var i :| 0 <= i < |r| && r[i] == e;
      assert e == EntryOf(fs[i], current, expected);
    }
  }

  /** The regressed fields among the first `k`, in field order. */
  function RegressedFields(current: map<Field, Option<real>>, expected: map<Field, Option<real>>,
                           errorThreshold: real, k: nat): seq<Field>
    requires Complete(current) && Complete(expected) && k <= FieldCount
  {
    if k == 0 then []
    else
      var f := FieldAt(k - 1);
      RegressedFields(current, expected, errorThreshold, k - 1)
        + (if Regressed(current[f], expected[f], errorThreshold) then [f] else [])
  }

  /**
   * Entries come in field order: the `i`-th entry is the entry of the `i`-th regressed
   * field, and those fields have strictly increasing positions, so none is reported twice.
   */
  lemma DiffInFieldOrder(current: map<Field, Option<real>>, expected: map<Field, Option<real>>,
                         errorThreshold: real, k: nat)
    requires Complete(current) && Complete(expected) && k <= FieldCount
    ensures var r := DiffUpTo(current, expected, errorThreshold, k);
            var fs := RegressedFields(current, expected, errorThreshold, k);
            && |r| == |fs| <= k
            && (forall i :: 0 <= i < |fs| ==> r[i] == EntryOf(fs[i], current, expected) && FieldIndex(fs[i]) < k
                                              && Regressed(current[fs[i]], expected[fs[i]], errorThreshold))
            && (forall i, j :: 0 <= i < j < |fs| ==> FieldIndex(fs[i]) < FieldIndex(fs[j]))
  {
    DiffFollowsFields(current, expected, errorThreshold, k);
    RegressedFieldsOrdered(current, expected, errorThreshold, k);
  }

  /** The `i`-th entry among the first `k` fields is the entry of the `i`-th regressed field. */
  lemma {:induction false} DiffFollowsFields(current: map<Field, Option<real>>, expected: map<Field, Option<real>>,
                                             errorThreshold: real, k: nat)
    requires Complete(current) && Complete(expected) && k <= FieldCount
    ensures var r := DiffUpTo(current, expected, errorThreshold, k);
            var fs := RegressedFields(current, expected, errorThreshold, k);
            && |r| == |fs|
            && forall i :: 0 <= i < |fs| ==> r[i] == EntryOf(fs[i], current, expected)
  {
    if k > 0 {
      DiffFollowsFields(current, expected, errorThreshold, k - 1);
      var f := FieldAt(k - 1);
      var prev := DiffUpTo(current, expected, errorThreshold, k - 1);
      var prevFields := RegressedFields(current, expected, errorThreshold, k - 1);
      var r := DiffUpTo(current, expected, errorThreshold, k);
      var fs := RegressedFields(current, expected, errorThreshold, k);
      if Regressed(current[f], expected[f], errorThreshold) {
        assert r == prev + [EntryOf(f, current, expected)];
        assert fs == prevFields + [f];
        forall i | 0 <= i < |fs|
          ensures r[i] == EntryOf(fs[i], current, expected)
        {
          if i < |prevFields| {
            assert r[i] == prev[i] && fs[i] == prevFields[i];
          }
        }
      } else {
        assert r == prev && fs == prevFields;
      }
    }
  }

  /** The regressed fields among the first `k` are regressed, below `k`, and in strictly increasing position. */
  lemma {:induction false} RegressedFieldsOrdered(current: map<Field, Option<real>>, expected: map<Field, Option<real>>,
                                                  errorThreshold: real, k: nat)
    requires Complete(current) && Complete(expected) && k <= FieldCount
    ensures var fs := RegressedFields(current, expected, errorThreshold, k);
            && |fs| <= k
            && (forall i :: 0 <= i < |fs| ==> FieldIndex(fs[i]) < k && Regressed(current[fs[i]], expected[fs[i]], errorThreshold))
            && (forall i, j :: 0 <= i < j < |fs| ==> FieldIndex(fs[i]) < FieldIndex(fs[j]))
  {
    if k > 0 {
      RegressedFieldsOrdered(current, expected, errorThreshold, k - 1);
      var f := FieldAt(k - 1);
      var prevFields := RegressedFields(current, expected, errorThreshold, k - 1);
      var fs := RegressedFields(current, expected, errorThreshold, k);
      if Regressed(current[f], expected[f], errorThreshold) {
        assert fs == prevFields + [f];
        forall i | 0 <= i < |fs|
          ensures FieldIndex(fs[i]) < k && Regressed(current[fs[i]], expected[fs[i]], errorThreshold)
        {
          if i < |prevFields| {
            assert fs[i] == prevFields[i];
          }
        }
        forall i, j | 0 <= i < j < |fs|
          ensures FieldIndex(fs[i]) < FieldIndex(fs[j])
        {
          if j < |prevFields| {
            assert fs[i] == prevFields[i] && fs[j] == prevFields[j];
          } else {
            assert fs[i] == prevFields[i] && fs[j] == f;
          }
        }
      } else {
        assert fs == prevFields;
      }
    }
  }

  /** A field is among the regressed fields of the first `k` iff it is one of them and regressed. */
  lemma {:induction false} RegressedFieldsMembers(current: map<Field, Option<real>>, expected: map<Field, Option<real>>,
                                                errorThreshold: real, k: nat)
    requires Complete(current) && Complete(expected) && k <= FieldCount
    ensures forall f :: f in RegressedFields(current, expected, errorThreshold, k) <==>
                        FieldIndex(f) < k && Regressed(current[f], expected[f], errorThreshold)
  {
    if k > 0 {
      RegressedFieldsMembers(current, expected, errorThreshold, k - 1);
      forall f | FieldIndex(f) == k - 1
        ensures f == FieldAt(k - 1)
      {
        FieldAtIndex(f);
      }
    }
  }

  /** With no regressed field among the first `k`, the comparison is empty. */
  lemma {:induction false} NoRegressionNoEntries(current: map<Field, Option<real>>, expected: map<Field, Option<real>>,
                                               errorThreshold: real, k: nat)
    requires Complete(current) && Complete(expected) && k <= FieldCount
    requires forall f :: !Regressed(current[f], expected[f], errorThreshold)
    ensures DiffUpTo(current, expected, errorThreshold, k) == []
  {
    if k > 0 {
      NoRegressionNoEntries(current, expected, errorThreshold, k - 1);
    }
  }

  /**
   * A metric whose present values are all non-negative, compared with itself at a
   * non-negative threshold, reports nothing.
   */
  lemma SelfComparisonIsEmpty(values: map<Field, Option<real>>, errorThreshold: real)
    requires Complete(values)
    requires forall f :: values[f].Some? ==> values[f].value >= 0.0
    requires errorThreshold >= 0.0
    ensures Diff(values, values, errorThreshold) == []
  {
    forall f ensures !Regressed(values[f], values[f], errorThreshold) {
      if values[f].Some? {
        var v := values[f].value;
        var margin := errorThreshold / 100.0;
        assert margin >= 0.0;
        assert margin * v >= 0.0;
        assert (1.0 + margin) * v == v + margin * v;
      }
    }
    NoRegressionNoEntries(values, values, errorThreshold, FieldCount);
  }

  class LatencyMetric {
    var values: map<Field, Option<real>>

    ghost predicate Valid()
      reads this
    {
      Complete(values)
    }

    /** The no-argument constructor: every field null. */
    constructor ()
      ensures Valid() && forall f :: values[f] == None
    {
      values := map f: Field | FieldIndex(f) < FieldCount :: None;
    }

    /**
     * `populateLatency(latency, prefix)`: every field whose name starts with `prefix`
     * gets the histogram figure its suffix selects; the others keep their values.
     */
    method PopulateLatency(latency: HistogramSummary, prefix: string)
      requires Valid()
      modifies this
      ensures Valid()
      ensures forall f :: values[f] == PopulatedValue(f, old(values[f]), prefix, latency)
    {
      var k := 0;
      while k < FieldCount
        invariant 0 <= k <= FieldCount
        invariant Valid()
        invariant values == PopulatedUpTo(old(values), prefix, latency, k)
      {
        var field := FieldAt(k);
        var name := FieldName(field);
        if prefix <= name {
          var suffix := name[|prefix|..];
          values := values[field := Some(SuffixValue(suffix, latency))];
        }
        k := k + 1;
      }
      PopulatedUpToPointwise(old(values), prefix, latency, FieldCount);
    }

    /** `populatePublishLatency`: the six publish fields get the histogram's figures; end-to-end fields are untouched. */
    method PopulatePublishLatency(publishLatency: HistogramSummary)
      requires Valid()
      modifies this
      ensures Valid()
      ensures forall f :: values[f] == if IsPublishField(f) then Some(HistogramFigure(f, publishLatency) / 1000.0) else old(values[f])
    {
      PopulateLatency(publishLatency, PublishPrefix);
      forall f ensures values[f] == if IsPublishField(f) then Some(HistogramFigure(f, publishLatency) / 1000.0) else old(values[f]) {
        PublishPopulated(f, old(values[f]), publishLatency);
      }
    }

    /** `populateE2ELatency`: the six end-to-end fields get the histogram's figures; publish fields are untouched. */
    method PopulateE2ELatency(endToEndLatency: HistogramSummary)
      requires Valid()
      modifies this
      ensures Valid()
      ensures forall f :: values[f] == if IsPublishField(f) then old(values[f]) else Some(HistogramFigure(f, endToEndLatency) / 1000.0)
    {
      PopulateLatency(endToEndLatency, EndToEndPrefix);
      forall f ensures values[f] == if IsPublishField(f) then old(values[f]) else Some(HistogramFigure(f, endToEndLatency) / 1000.0) {
        EndToEndPopulated(f, old(values[f]), endToEndLatency);
      }
    }

    /**
     * `compareAndEvaluateDiff(other, errorThreshold)`: visits the fields in order and
     * collects one entry per regressed field. Neither metric is modified.
     */
    method CompareAndEvaluateDiff(other: LatencyMetric, errorThreshold: real) returns (result: seq<ComparisonResult>)
      requires Valid() && other.Valid()
      ensures result == Diff(values, other.values, errorThreshold)
    {
      result := [];
      var k := 0;
      while k < FieldCount
        invariant 0 <= k <= FieldCount
        invariant result == DiffUpTo(values, other.values, errorThreshold, k)
      {
        var field := FieldAt(k);
        result := AppendReason(result, FieldName(field), values[field], other.values[field], errorThreshold);
        k := k + 1;
      }
    }
  }
}
