/** The swarmbench action's result parser
    (actions/parse_swarmbench_output.py): the timings are cut out of the
    last two lines of the benchmark container's log with `split` and
    `replace`, and reported as dotted `key=value` action results. */
module SwarmBench {
  import opened Strings

  // ---------------------------------------------------------------------
  // action_set
  // ---------------------------------------------------------------------

  /** A result value: a string, or a dictionary of values in insertion
      order. */
  datatype Value = Leaf(text: string) | Dict(entries: seq<(string, Value)>)

  /** The `key=value` assignments `action_set(key, val)` hands to
      `action-set`, one call per leaf, in dictionary order. */
  function ActionSet(key: string, val: Value): seq<string>
    decreases val, 1
  {
    match val
    case Leaf(text) => [key + "=" + text]
    case Dict(entries) => ActionSetEntries(key, val, 0)
  }

  /** The assignments for the entries of `val` from index `i` on. */
  function ActionSetEntries(key: string, val: Value, i: nat): seq<string>
    requires val.Dict?
    decreases val, 0, |val.entries| - i
  {
    if i >= |val.entries| then []
    else
      var (k, v) := val.entries[i];
      ActionSet(key + "." + k, v) + ActionSetEntries(key, val, i + 1)
  }

  /** Number of leaves under a value: the number of `action-set` calls. */
  function Leaves(val: Value): nat
    decreases val, 1
  {
    match val
    case Leaf(_) => 1
    case Dict(entries) => LeavesFrom(val, 0)
  }

  function LeavesFrom(val: Value, i: nat): nat
    requires val.Dict?
    decreases val, 0, |val.entries| - i
  {
    if i >= |val.entries| then 0 else Leaves(val.entries[i].1) + LeavesFrom(val, i + 1)
  }

  /** The key an assignment sets, followed by the character that ends it:
      '=' right after a leaf's own key, '.' before a nested entry's name. */
  predicate UnderKey(key: string, assignment: string)
  {
    |assignment| > |key| && assignment[..|key|] == key
    && (assignment[|key|] == '=' || assignment[|key|] == '.')
  }

  /** Every assignment sets `key` itself or a dotted key below it; a leaf
      sets `key` exactly once, a dictionary only keys below it; and there is
      one assignment per leaf. */
  lemma {:induction false} ActionSetUnderKey(key: string, val: Value)
    ensures |ActionSet(key, val)| == Leaves(val)
    ensures forall a :: a in ActionSet(key, val) ==> UnderKey(key, a) && (val.Dict? ==> a[|key|] == '.')
    decreases val, 1
  {
    match val
    case Leaf(text) =>
      assert (key + "=" + text)[..|key|] == key;
    case Dict(entries) =>
      ActionSetEntriesUnderKey(key, val, 0);
  }

  lemma {:induction false} ActionSetEntriesUnderKey(key: string, val: Value, i: nat)
    requires val.Dict?
    ensures |ActionSetEntries(key, val, i)| == LeavesFrom(val, i)
    ensures forall a :: a in ActionSetEntries(key, val, i) ==> UnderKey(key, a) && a[|key|] == '.'
    decreases val, 0, |val.entries| - i
  {
    if i < |val.entries| {
      var (k, v) := val.entries[i];
      var sub := key + "." + k;
      ActionSetUnderKey(sub, v);
      ActionSetEntriesUnderKey(key, val, i + 1);
      forall a | a in ActionSet(sub, v)
        ensures UnderKey(key, a) && a[|key|] == '.'
      {
        assert UnderKey(sub, a);
        assert a[..|sub|][..|key|] == a[..|key|];
        assert sub[..|key|] == key;
        assert a[..|sub|][|key|] == a[|key|];
      }
    }
  }

  /** Adding an entry at the end of a dictionary adds that entry's
      assignments at the end, under `key.<name>`. */
  lemma ActionSetAppend(key: string, entries: seq<(string, Value)>, name: string, v: Value)
    ensures ActionSet(key, Dict(entries + [(name, v)]))
         == ActionSet(key, Dict(entries)) + ActionSet(key + "." + name, v)
  {
    ActionSetEntriesAppend(key, entries, name, v, 0);
  }

  lemma {:induction false} ActionSetEntriesAppend(key: string, entries: seq<(string, Value)>,
                                                  name: string, v: Value, i: nat)
    requires i <= |entries|
    ensures ActionSetEntries(key, Dict(entries + [(name, v)]), i)
         == ActionSetEntries(key, Dict(entries), i) + ActionSet(key + "." + name, v)
    decreases |entries| - i
  {
    var longer := Dict(entries + [(name, v)]);
    if i == |entries| {
      assert longer.entries[i] == (name, v);
      assert ActionSetEntries(key, longer, i + 1) == [];
    } else {
      assert longer.entries[i] == entries[i];
      ActionSetEntriesAppend(key, entries, name, v, i + 1);
    }
  }

  // ---------------------------------------------------------------------
  // parse_output
  // ---------------------------------------------------------------------

  /** The four timing strings, as the parser leaves them. */
  datatype Timings = Timings(total: string, mean: string, ninetieth: string, ninetyNinth: string)

  /** A parse either succeeds or raises IndexError at a source line. */
  datatype Result<T> = Ok(value: T) | IndexError(line: nat)

  /** Lines of parse_swarmbench_output.py where an index can be missing. */
  const LastLineMissing: nat := 33
  const NinetiethMissing: nat := 38
  const NinetyNinthMissing: nat := 39
  const TotalLineMissing: nat := 41

  const TimingPrefix := "Time per container: "
  const TotalPrefix := "Time taken for tests: "
  const MeanSuffix := "ms [mean] "
  const NinetiethSuffix := "ms [90th] "
  const NinetyNinthSuffix := "ms [99th] "

  /** The `|`-separated fields of the last line, after every occurrence of
      `Time per container: ` in it is deleted. */
  function TimingFields(line: string): (fields: seq<string>)
    ensures |fields| >= 1
    ensures forall f :: f in fields ==> '|' !in f
  {
    Split(ReplaceAll(line, TimingPrefix, ""), '|')
  }

  /** The timings from the log's lines, or the line of the IndexError the
      parser raises: no line at all, fewer than three fields on the last
      line, or no second-last line, checked in the order the parser
      indexes. The total keeps no `s`. */
  function ParseLines(lines: seq<string>): (r: Result<Timings>)
    ensures r.Ok? <==> |lines| >= 2 && |TimingFields(lines[|lines| - 1])| >= 3
    ensures r.IndexError? ==> r.line in {LastLineMissing, NinetiethMissing, NinetyNinthMissing, TotalLineMissing}
    ensures r.Ok? ==> 's' !in r.value.total
  {
    if |lines| == 0 then IndexError(LastLineMissing)
    else
      var parsed := TimingFields(lines[|lines| - 1]);
      if |parsed| < 2 then IndexError(NinetiethMissing)
      else if |parsed| < 3 then IndexError(NinetyNinthMissing)
      else if |lines| < 2 then IndexError(TotalLineMissing)
      else
        var mean := ReplaceAll(parsed[0], MeanSuffix, "");
        var ninety := ReplaceAll(parsed[1], NinetiethSuffix, "");
        var ninetyNine := ReplaceAll(parsed[2], NinetyNinthSuffix, "");
        var totalParsed := ReplaceAll(lines[|lines| - 2], TotalPrefix, "");
        DeleteCharIsWithout(totalParsed, 's');
        Ok(Timings(ReplaceAll(totalParsed, "s", ""), mean, ninety, ninetyNine))
  }

  /** Only the last two lines are read: whatever precedes them in the log
      has no effect on the result. */
  lemma LastTwoLinesOnly(earlier: seq<string>, secondLast: string, last: string)
    ensures ParseLines(earlier + [secondLast, last]) == ParseLines([secondLast, last])
  {
    var lines := earlier + [secondLast, last];
    assert lines[|lines| - 1] == last && lines[|lines| - 2] == secondLast;
  }

  /** The failing cases, in the order the parser reaches them. */
  lemma ParseLinesErrors(lines: seq<string>)
    ensures lines == [] ==> ParseLines(lines) == IndexError(LastLineMissing)
    ensures lines != [] && |TimingFields(lines[|lines| - 1])| == 1
            ==> ParseLines(lines) == IndexError(NinetiethMissing)
    ensures lines != [] && |TimingFields(lines[|lines| - 1])| == 2
            ==> ParseLines(lines) == IndexError(NinetyNinthMissing)
    ensures |lines| == 1 && |TimingFields(lines[0])| >= 3
            ==> ParseLines(lines) == IndexError(TotalLineMissing)
  {
  }

  // ---------------------------------------------------------------------
  // The line formats swarmbench prints
  // ---------------------------------------------------------------------

  /** A time as swarmbench prints it: digits and a decimal point. */
  predicate IsDecimal(s: string)
  {
    forall k :: 0 <= k < |s| ==> s[k] == '.' || '0' <= s[k] <= '9'
  }

  /** `Time taken for tests: <t>s`. */
  function TotalLine(t: string): string
  {
    TotalPrefix + (t + "s")
  }

  /** `Time per container: <m>ms [mean] | <n>ms [90th] | <nn>ms [99th]`. */
  function TimingLine(m: string, n: string, nn: string): string
  {
    TimingPrefix + ((m + MeanSuffix) + "|" + (" " + n + NinetiethSuffix) + "|" + (" " + nn + "ms [99th]"))
  }

  lemma DecimalHasNo(s: string, c: char)
    requires IsDecimal(s) && c != '.' && !('0' <= c <= '9')
    ensures c !in s
  {
  }

  lemma DecimalNoLineBreak(s: string)
    requires IsDecimal(s)
    ensures NoLineBreak(s)
  {
  }

  /** The last line's fields: the mean keeps its suffix until it is
      deleted, and the other two keep the space after each `|`. */
  lemma TimingLineFields(m: string, n: string, nn: string)
    requires IsDecimal(m) && IsDecimal(n) && IsDecimal(nn)
    ensures TimingFields(TimingLine(m, n, nn))
         == [m + MeanSuffix, " " + n + NinetiethSuffix, " " + nn + "ms [99th]"]
  {
    var f0, f1, f2 := m + MeanSuffix, " " + n + NinetiethSuffix, " " + nn + "ms [99th]";
    DecimalHasNo(m, 'T');
    DecimalHasNo(n, 'T');
    DecimalHasNo(nn, 'T');
    DecimalHasNo(m, '|');
    DecimalHasNo(n, '|');
    DecimalHasNo(nn, '|');
    assert 'T' !in f0 + "|" + f1 + "|" + f2;
    ReplaceAllDeletePrefix(TimingPrefix, f0 + "|" + f1 + "|" + f2);
    SplitThree(f0, f1, f2, '|');
  }

  /** On swarmbench's two summary lines the parser returns the total
      without its unit, the mean without its suffix, the 90th percentile
      with a leading space, and the 99th percentile untouched apart from
      the field split: its pattern wants a space after "[99th]" that the
      line does not have. */
  lemma ParseSummaryLines(earlier: seq<string>, t: string, m: string, n: string, nn: string)
    requires IsDecimal(t) && IsDecimal(m) && IsDecimal(n) && IsDecimal(nn)
    ensures ParseLines(earlier + [TotalLine(t), TimingLine(m, n, nn)])
         == Ok(Timings(t, m, " " + n, " " + nn + "ms [99th]"))
  {
    LastTwoLinesOnly(earlier, TotalLine(t), TimingLine(m, n, nn));
    TimingLineFields(m, n, nn);
    DecimalHasNo(m, 'm');
    ReplaceAllDeleteSuffix(m, MeanSuffix);
    DecimalHasNo(n, 'm');
    ReplaceAllDeleteSuffix(" " + n, NinetiethSuffix);
    DecimalHasNo(nn, 'm');
    ReplaceAllShortTail(" " + nn, "ms [99th]", NinetyNinthSuffix, "");
    DecimalHasNo(t, 'T');
    DecimalHasNo(t, 's');
    ReplaceAllDeletePrefix(TotalPrefix, t + "s");
    ReplaceAllDeleteSuffix(t, "s");
  }

  /** The sample summary swarmbench prints. */
  lemma SampleSummary()
    ensures ParseLines([TotalLine("27.048"), TimingLine("535.584", "1252.565", "2002.064")])
         == Ok(Timings("27.048", "535.584", " 1252.565", " 2002.064ms [99th]"))
  {
    ParseSummaryLines([], "27.048", "535.584", "1252.565", "2002.064");
    assert " " + "1252.565" == " 1252.565";
    assert " " + "2002.064" + "ms [99th]" == " 2002.064ms [99th]";
    assert [] + [TotalLine("27.048"), TimingLine("535.584", "1252.565", "2002.064")]
        == [TotalLine("27.048"), TimingLine("535.584", "1252.565", "2002.064")];
  }

  // ---------------------------------------------------------------------
  // The reported results
  // ---------------------------------------------------------------------

  /** A result group: its value, then its units. */
  function Group(value: string, units: string): Value
  {
    Dict([("value", Leaf(value)), ("units", Leaf(units))])
  }

  /** The four result keys. The last is spelled "00th-percentile". */
  const TotalKey := "results.total-time"
  const MeanKey := "results.mean-time"
  const NinetiethKey := "results.90th-percentile"
  const NinetyNinthKey := "results.00th-percentile"

  /** The four `action_set` calls, in order. */
  function Report(t: Timings): seq<string>
  {
    ActionSet(TotalKey, Group(t.total, "s"))
    + ActionSet(MeanKey, Group(t.mean, "ms"))
    + ActionSet(NinetiethKey, Group(t.ninetieth, "ms"))
    + ActionSet(NinetyNinthKey, Group(t.ninetyNinth, "ms"))
  }

  /** A group sets its value and then its units, under `<key>.`. */
  lemma GroupAssignments(key: string, value: string, units: string)
    ensures ActionSet(key, Group(value, units)) == [key + ".value=" + value, key + ".units=" + units]
  {
    var g := Group(value, units);
    assert g.entries[0] == ("value", Leaf(value)) && g.entries[1] == ("units", Leaf(units));
    assert ActionSetEntries(key, g, 2) == [];
    assert ActionSetEntries(key, g, 1) == [key + "." + "units" + "=" + units];
    assert ActionSetEntries(key, g, 0) == [key + "." + "value" + "=" + value, key + "." + "units" + "=" + units];
    assert key + "." + "value" + "=" + value == key + ".value=" + value;
    assert key + "." + "units" + "=" + units == key + ".units=" + units;
  }

  /** Exactly eight assignments: the total in seconds, then the mean and
      the two percentiles in milliseconds, each value before its units. */
  lemma ReportAssignments(t: Timings)
    ensures Report(t) == [
      TotalKey + ".value=" + t.total, TotalKey + ".units=" + "s",
      MeanKey + ".value=" + t.mean, MeanKey + ".units=" + "ms",
      NinetiethKey + ".value=" + t.ninetieth, NinetiethKey + ".units=" + "ms",
      NinetyNinthKey + ".value=" + t.ninetyNinth, NinetyNinthKey + ".units=" + "ms"]
  {
    GroupAssignments(TotalKey, t.total, "s");
    GroupAssignments(MeanKey, t.mean, "ms");
    GroupAssignments(NinetiethKey, t.ninetieth, "ms");
    GroupAssignments(NinetyNinthKey, t.ninetyNinth, "ms");
  }

  /** `parse_output`: split the log into lines, parse, and report. Nothing
      is reported when the parse raises. */
  function ParseOutput(logs: string): (r: Result<seq<string>>)
    ensures r.Ok? <==> ParseLines(SplitLines(logs)).Ok?
    ensures r.Ok? ==> |r.value| == 8
  {
    match ParseLines(SplitLines(logs))
    case IndexError(line) => IndexError(line)
    case Ok(t) => ReportAssignments(t); Ok(Report(t))
  }

  /** The summary lines are single lines. */
  lemma SummaryLinesUnbroken(t: string, m: string, n: string, nn: string)
    requires IsDecimal(t) && IsDecimal(m) && IsDecimal(n) && IsDecimal(nn)
    ensures NoLineBreak(TotalLine(t)) && NoLineBreak(TimingLine(m, n, nn))
  {
    TotalLineUnbroken(t);
    TimingFieldsUnbroken(m, n, nn);
    var f0, f1, f2 := m + MeanSuffix, " " + n + NinetiethSuffix, " " + nn + "ms [99th]";
    NoLineBreakAppend(f0, "|");
    NoLineBreakAppend(f0 + "|", f1);
    NoLineBreakAppend(f0 + "|" + f1, "|");
    NoLineBreakAppend(f0 + "|" + f1 + "|", f2);
    NoLineBreakAppend(TimingPrefix, f0 + "|" + f1 + "|" + f2);
  }

  lemma TotalLineUnbroken(t: string)
    requires IsDecimal(t)
    ensures NoLineBreak(TotalLine(t))
  {
    DecimalNoLineBreak(t);
    NoLineBreakAppend(t, "s");
    NoLineBreakAppend(TotalPrefix, t + "s");
  }

  lemma TimingFieldsUnbroken(m: string, n: string, nn: string)
    requires IsDecimal(m) && IsDecimal(n) && IsDecimal(nn)
    ensures NoLineBreak(m + MeanSuffix)
    ensures NoLineBreak(" " + n + NinetiethSuffix)
    ensures NoLineBreak(" " + nn + "ms [99th]")
  {
    DecimalNoLineBreak(m);
    DecimalNoLineBreak(n);
    DecimalNoLineBreak(nn);
    NoLineBreakAppend(m, MeanSuffix);
    NoLineBreakAppend(" ", n);
    NoLineBreakAppend(" " + n, NinetiethSuffix);
    NoLineBreakAppend(" ", nn);
    NoLineBreakAppend(" " + nn, "ms [99th]");
  }

  /** On a log of newline-terminated lines the parser sees exactly those
      lines. */
  lemma ParseOutputOfLines(lines: seq<string>)
    requires forall k :: 0 <= k < |lines| ==> NoLineBreak(lines[k])
    ensures ParseOutput(Terminated(lines)).Ok? == ParseLines(lines).Ok?
    ensures ParseLines(lines).Ok? ==> ParseOutput(Terminated(lines)) == Ok(Report(ParseLines(lines).value))
    ensures ParseLines(lines).IndexError?
            ==> ParseOutput(Terminated(lines)) == IndexError(ParseLines(lines).line)
  {
    SplitLinesTerminated(lines);
  }

  /** Appending two single lines keeps every line single. */
  lemma UnbrokenLines(earlier: seq<string>, a: string, b: string)
    requires forall k :: 0 <= k < |earlier| ==> NoLineBreak(earlier[k])
    requires NoLineBreak(a) && NoLineBreak(b)
    ensures forall k :: 0 <= k < |earlier + [a, b]| ==> NoLineBreak((earlier + [a, b])[k])
  {
  }

  /** A log of newline-terminated lines ending in the two summary lines
      reports the summary's timings. */
  lemma ParseOutputOfLog(earlier: seq<string>, t: string, m: string, n: string, nn: string)
    requires forall k :: 0 <= k < |earlier| ==> NoLineBreak(earlier[k])
    requires IsDecimal(t) && IsDecimal(m) && IsDecimal(n) && IsDecimal(nn)
    ensures ParseOutput(Terminated(earlier + [TotalLine(t), TimingLine(m, n, nn)]))
         == Ok(Report(Timings(t, m, " " + n, " " + nn + "ms [99th]")))
  {
    var lines := earlier + [TotalLine(t), TimingLine(m, n, nn)];
    SummaryLinesUnbroken(t, m, n, nn);
    UnbrokenLines(earlier, TotalLine(t), TimingLine(m, n, nn));
    ParseSummaryLines(earlier, t, m, n, nn);
    ParseOutputOfLines(lines);
  }
}
