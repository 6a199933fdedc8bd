/** Reading one sample from a Prometheus text exposition: the scenario fetches the metrics page,
    keeps the lines that start with the metric name and carry the collection's `class_name`
    label, and requires exactly one such line of the form `key value` with an integer value. */
module Metrics {
  import opened Wrappers
  import opened Seqs
  import opened Strings

  /** Why reading a metric raises `ValueError`. */
  datatype MetricError =
    | NotExactlyOneLine(lines: seq<string>)
    | MalformedLine(parts: seq<string>)
    | NotAnInteger(value: string)

  /** The label a line must contain: `class_name="<className>"`. */
  function ClassLabel(className: string): string
  {
    "class_name=\"" + className + "\""
  }

  /** A line belongs to the metric of a collection when it starts with the metric name and
      contains the collection's label. */
  predicate Selects(metricName: string, className: string, line: string)
  {
    StartsWith(line, metricName) && Contains(line, ClassLabel(className))
  }

  /** The first filter: the line starts with the metric name. */
  function NameFilter(metricName: string): string -> bool
  {
    (l: string) => StartsWith(l, metricName)
  }

  /** The second filter: the line contains the collection's label. */
  function LabelFilter(className: string): string -> bool
  {
    (l: string) => Contains(l, ClassLabel(className))
  }

  /** The lines of the page kept by the two filters, in page order. */
  function MatchingLines(metricsText: string, metricName: string, className: string): (r: seq<string>)
    ensures forall i :: 0 <= i < |r| ==> r[i] in Split(metricsText, '\n') && Selects(metricName, className, r[i])
    ensures forall i :: (0 <= i < |Split(metricsText, '\n')| && Selects(metricName, className, Split(metricsText, '\n')[i]))
                          ==> Split(metricsText, '\n')[i] in r
  {
    var lines := Split(metricsText, '\n');
    var named := Filter(lines, NameFilter(metricName));
    Filter(named, LabelFilter(className))
  }

  /** Python's `int` on a string without surrounding white space: an optional sign and ASCII
      decimal digits. */
  function ParsePythonInt(s: string): (r: Option<int>)
    ensures r.Some? <==> IsDigits(s) || (|s| > 1 && (s[0] == '-' || s[0] == '+') && IsDigits(s[1..]))
    ensures r.Some? && s[0] == '-' ==> r.value <= 0
    ensures r.Some? && s[0] != '-' ==> r.value >= 0
    ensures r.Some? ==> r.value == if s[0] == '-' then 0 - DecimalValue(s[1..]) as int
                                   else if s[0] == '+' then DecimalValue(s[1..])
                                   else DecimalValue(s)
  {
    if |s| > 0 && s[0] == '-' && IsDigits(s[1..]) then Some(0 - DecimalValue(s[1..]) as int)
    else if |s| > 0 && s[0] == '+' && IsDigits(s[1..]) then Some(DecimalValue(s[1..]))
    else if IsDigits(s) then Some(DecimalValue(s))
    else None
  }

  /** `int(str(v)) == v`. */
  lemma ParsePrintedInt(v: int)
    ensures ParsePythonInt(IntToDecimal(v)) == Some(v)
  {
    if v >= 0 {
      DecimalRoundTrip(v);
    } else {
      var digits := NatToDecimal(-v);
      DecimalRoundTrip(-v);
      assert IntToDecimal(v)[1..] == digits;
    }
  }

  /** A plus sign and leading zeros do not change the value read: `int("+007") == int("7")`. */
  lemma SignAndLeadingZerosIgnored(d: string)
    requires IsDigits(d)
    ensures ParsePythonInt("+" + d) == ParsePythonInt(d)
    ensures ParsePythonInt("0" + d) == ParsePythonInt(d)
  {
    assert ("+" + d)[1..] == d;
    LeadingZeroValue(d);
  }

  /** `get_metric`: the value of the one sample line of the metric for the collection. */
  function GetMetric(metricsText: string, metricName: string, className: string): (r: Result<int, MetricError>)
    ensures r.Ok? ==> var lines := MatchingLines(metricsText, metricName, className);
      |lines| == 1 && |Split(lines[0], ' ')| == 2 && ParsePythonInt(Split(lines[0], ' ')[1]) == Some(r.value)
    ensures |MatchingLines(metricsText, metricName, className)| != 1 ==>
      r == Err(NotExactlyOneLine(MatchingLines(metricsText, metricName, className)))
    ensures |MatchingLines(metricsText, metricName, className)| == 1 ==>
      r == ReadSampleValue(MatchingLines(metricsText, metricName, className)[0])
  {
    var metrics := MatchingLines(metricsText, metricName, className);
    if |metrics| != 1 then Err(NotExactlyOneLine(metrics))
    else ReadSampleValue(metrics[0])
  }

  /** The value of a selected line: it must be a key and a value separated by one space, and the
      value must be an integer. */
  function ReadSampleValue(metricsLine: string): (r: Result<int, MetricError>)
    ensures r.Ok? <==> |Split(metricsLine, ' ')| == 2 && ParsePythonInt(Split(metricsLine, ' ')[1]).Some?
    ensures r.Ok? ==> ParsePythonInt(Split(metricsLine, ' ')[1]) == Some(r.value)
    ensures |Split(metricsLine, ' ')| != 2 ==> r == Err(MalformedLine(Split(metricsLine, ' ')))
    ensures |Split(metricsLine, ' ')| == 2 && ParsePythonInt(Split(metricsLine, ' ')[1]).None? ==>
      r == Err(NotAnInteger(Split(metricsLine, ' ')[1]))
  {
    var parts := Split(metricsLine, ' ');
    if |parts| != 2 then Err(MalformedLine(parts))
    else
      var value := parts[1];
      match ParsePythonInt(value)
      case None => Err(NotAnInteger(value))
      case Some(n) => Ok(n)
  }

  /** A sample line as the exposition format writes it: `name{class_name="c"} value`. */
  function SampleLine(metricName: string, className: string, value: int): string
  {
    metricName + SampleLabelsAndValue(className, value)
  }

  function SampleLabelsAndValue(className: string, value: int): string
  {
    "{" + ClassLabel(className) + "}" + " " + IntToDecimal(value)
  }

  lemma PrefixOfConcat(x: string, y: string)
    ensures StartsWith(x + y, x)
  {
    assert (x + y)[..|x|] == x;
  }

  lemma PrefixOfLonger(x: string, suffix: string, y: string)
    ensures StartsWith((x + suffix) + y, x)
  {
    assert ((x + suffix) + y)[..|x|] == x;
  }

  lemma SampleLineIsSelected(metricName: string, className: string, value: int)
    ensures Selects(metricName, className, SampleLine(metricName, className, value))
  {
    var line := SampleLine(metricName, className, value);
    PrefixOfConcat(metricName, SampleLabelsAndValue(className, value));
    ContainsInfix(metricName + "{", ClassLabel(className), "}" + " " + IntToDecimal(value));
    assert line == (metricName + "{") + ClassLabel(className) + ("}" + " " + IntToDecimal(value));
  }

  lemma SampleLineSplits(metricName: string, className: string, value: int)
    requires ' ' !in metricName && ' ' !in className
    ensures Split(SampleLine(metricName, className, value), ' ')
         == [metricName + "{" + ClassLabel(className) + "}", IntToDecimal(value)]
  {
    var key := metricName + "{" + ClassLabel(className) + "}";
    assert ' ' !in key by {
      assert ' ' !in ClassLabel(className);
    }
    var digits := IntToDecimal(value);
    assert ' ' !in digits by {
      if value >= 0 {
        assert IsDigits(digits);
      } else {
        assert IsDigits(digits[1..]);
        assert digits == "-" + digits[1..];
      }
    }
    assert SampleLine(metricName, className, value) == key + [' '] + digits;
    SplitAfterFirst(key, ' ', digits);
    SplitWithoutSeparator(digits, ' ');
  }

  /** The lines selected from a page made of `lines`. */
  lemma {:induction false} MatchingLinesOfPage(lines: seq<string>, metricName: string, className: string)
    requires |lines| >= 1 && SingleLines(lines)
    ensures MatchingLines(Join(lines, '\n'), metricName, className)
         == Filter(Filter(lines, NameFilter(metricName)),
                   LabelFilter(className))
  {
    SplitJoin(lines, '\n');
  }

  /** Lines of which none is selected contribute nothing to the selection. */
  lemma NoneSelected(lines: seq<string>, metricName: string, className: string)
    requires NoneSelects(metricName, className, lines)
    ensures Filter(Filter(lines, NameFilter(metricName)),
                   LabelFilter(className)) == []
  {
    var named := Filter(lines, NameFilter(metricName));
    forall i | 0 <= i < |named|
      ensures !Contains(named[i], ClassLabel(className))
    {
      assert named[i] in lines;
    }
    FilterNone(named, LabelFilter(className));
  }

  /** A sample line with a name and a label free of spaces reads back as its value. */
  lemma ReadSampleValueOfSample(metricName: string, className: string, value: int)
    requires ' ' !in metricName && ' ' !in className
    ensures ReadSampleValue(SampleLine(metricName, className, value)) == Ok(value)
  {
    SampleLineSplits(metricName, className, value);
    ParsePrintedInt(value);
  }

  /** None of the lines is selected. */
  predicate NoneSelects(metricName: string, className: string, lines: seq<string>)
  {
    forall k :: 0 <= k < |lines| ==> !Selects(metricName, className, lines[k])
  }

  /** None of the lines holds a line break. */
  predicate SingleLines(lines: seq<string>)
  {
    forall k :: 0 <= k < |lines| ==> '\n' !in lines[k]
  }

  lemma SingleLinesAround(before: seq<string>, line: string, after: seq<string>)
    requires SingleLines(before) && SingleLines(after) && '\n' !in line
    ensures SingleLines(before + [line] + after)
  {
  }

  /** On a page holding one sample line of the metric for the collection among lines that are
      not selected, that line alone is selected. */
  lemma OnlyTheSampleIsSelected(before: seq<string>, after: seq<string>, metricName: string,
                                className: string, value: int)
    requires NoneSelects(metricName, className, before) && NoneSelects(metricName, className, after)
    ensures Filter(Filter(before + [SampleLine(metricName, className, value)] + after, NameFilter(metricName)),
                   LabelFilter(className))
         == [SampleLine(metricName, className, value)]
  {
    var sample := SampleLine(metricName, className, value);
    var p1, p2 := NameFilter(metricName), LabelFilter(className);
    SampleLineIsSelected(metricName, className, value);
    FilterAround(before, sample, after, p1);
    FilterAround(Filter(before, p1), sample, Filter(after, p1), p2);
    NoneSelected(before, metricName, className);
    NoneSelected(after, metricName, className);
  }

  /** With exactly one selected line, the metric is read from that line. */
  lemma GetMetricOfTheLine(metricsText: string, metricName: string, className: string, line: string)
    requires MatchingLines(metricsText, metricName, className) == [line]
    ensures GetMetric(metricsText, metricName, className) == ReadSampleValue(line)
  {
  }

  /** A page holding exactly one sample line of the metric for the collection, among any other
      lines that are not selected, yields the sample's value. */
  lemma ReadsTheSample(before: seq<string>, after: seq<string>, metricName: string, className: string,
                       value: int)
    requires ' ' !in metricName && ' ' !in className && '\n' !in metricName && '\n' !in className
    requires SingleLines(before) && NoneSelects(metricName, className, before)
    requires SingleLines(after) && NoneSelects(metricName, className, after)
    ensures GetMetric(Join(before + [SampleLine(metricName, className, value)] + after, '\n'), metricName, className)
         == Ok(value)
  {
    var sample := SampleLine(metricName, className, value);
    var page := before + [sample] + after;
    OnlyTheSampleIsSelected(before, after, metricName, className, value);
    SampleLineIsOneLine(metricName, className, value);
    SingleLinesAround(before, sample, after);
    MatchingLinesOfPage(page, metricName, className);
    GetMetricOfTheLine(Join(page, '\n'), metricName, className, sample);
    ReadSampleValueOfSample(metricName, className, value);
  }

  /** Selection is by prefix: a page with a sample of the metric and one of a longer metric name
      that extends it (a `_total` or `_sum` series, say) for the same collection does not yield a
      value. */
  lemma LongerNameMakesItAmbiguous(metricName: string, suffix: string, className: string,
                                   value: int, other: int)
    requires '\n' !in metricName + suffix && '\n' !in className
    ensures GetMetric(Join([SampleLine(metricName, className, value),
                            SampleLine(metricName + suffix, className, other)], '\n'),
                      metricName, className).Err?
  {
    BothSamplesSelected(metricName, suffix, className, value, other);
  }

  lemma BothSamplesSelected(metricName: string, suffix: string, className: string, value: int, other: int)
    requires '\n' !in metricName + suffix && '\n' !in className
    ensures var a, b := SampleLine(metricName, className, value), SampleLine(metricName + suffix, className, other);
      MatchingLines(Join([a, b], '\n'), metricName, className) == [a, b]
  {
    var a := SampleLine(metricName, className, value);
    var b := SampleLine(metricName + suffix, className, other);
    BothNamed(metricName, suffix, className, value, other);
    BothLabelled(metricName, suffix, className, value, other);
    SampleLineIsOneLine(metricName, className, value);
    SampleLineIsOneLine(metricName + suffix, className, other);
    MatchingLinesOfPage([a, b], metricName, className);
  }

  lemma BothNamed(metricName: string, suffix: string, className: string, value: int, other: int)
    ensures var a, b := SampleLine(metricName, className, value), SampleLine(metricName + suffix, className, other);
      Filter([a, b], NameFilter(metricName)) == [a, b]
  {
    var a := SampleLine(metricName, className, value);
    var b := SampleLine(metricName + suffix, className, other);
    PrefixOfConcat(metricName, SampleLabelsAndValue(className, value));
    PrefixOfLonger(metricName, suffix, SampleLabelsAndValue(className, other));
    BothStartWith(a, b, metricName);
  }

  /** Two lines that both start with the metric name both pass the name filter. */
  lemma BothStartWith(a: string, b: string, metricName: string)
    requires StartsWith(a, metricName) && StartsWith(b, metricName)
    ensures Filter([a, b], NameFilter(metricName)) == [a, b]
  {
    FilterAll([a, b], NameFilter(metricName));
  }

  lemma BothLabelled(metricName: string, suffix: string, className: string, value: int, other: int)
    ensures var a, b := SampleLine(metricName, className, value), SampleLine(metricName + suffix, className, other);
      Filter([a, b], LabelFilter(className)) == [a, b]
  {
    var a := SampleLine(metricName, className, value);
    var b := SampleLine(metricName + suffix, className, other);
    SampleLineIsSelected(metricName, className, value);
    SampleLineIsSelected(metricName + suffix, className, other);
    FilterAll([a, b], LabelFilter(className));
  }

  lemma SampleLineIsOneLine(metricName: string, className: string, value: int)
    requires '\n' !in metricName && '\n' !in className
    ensures '\n' !in SampleLine(metricName, className, value)
  {
    assert '\n' !in ClassLabel(className);
    NoNewlineInDecimal(value);
  }

  lemma NoNewlineInDecimal(value: int)
    ensures '\n' !in IntToDecimal(value)
  {
    var digits := IntToDecimal(value);
    if value >= 0 {
      assert IsDigits(digits);
    } else {
      assert IsDigits(digits[1..]);
      assert digits == "-" + digits[1..];
    }
  }
}
