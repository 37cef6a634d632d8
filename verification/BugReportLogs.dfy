/** Collapsing of low-signal log noise in bug reports: runs of heartbeats and of repeated lines. */
module LogCollapse {
  import opened Collections
  import opened Decimals

  /** What the regular expressions and string functions of the runtime make of a line. */
  datatype LogSyntax = LogSyntax(timestamp: string -> Option<string>, key: string -> string, lower: string -> string)

  const HIGH_SIGNAL_KEYWORDS: seq<string> :=
    ["error", "exception", "fatal", "failed", "timeout", "timed out", "disconnect", "invalid"]
  const WARNING_KEYWORDS: seq<string> := ["warn", "warning"]

  predicate Includes(s: string, part: string) {
    exists i :: 0 <= i <= |s| && part <= s[i..]
  }

  predicate IncludesAny(s: string, keywords: seq<string>) {
    exists k :: k in keywords && Includes(s, k)
  }

  predicate IsLowSignalHeartbeatLine(lower: string) {
    Includes(lower, "heartbeat") && !IncludesAny(lower, HIGH_SIGNAL_KEYWORDS) && !IncludesAny(lower, WARNING_KEYWORDS)
  }

  datatype Entry = Entry(line: string, timestamp: Option<string>, key: string, heartbeat: bool)

  function Parse(x: LogSyntax, line: string): Entry {
    Entry(line, x.timestamp(line), x.key(line), IsLowSignalHeartbeatLine(x.lower(line)))
  }

  function ParseAll(x: LogSyntax, lines: seq<string>): seq<Entry> {
    seq(|lines|, i requires 0 <= i < |lines| => Parse(x, lines[i]))
  }

  // ----- the partition into maximal runs

  /** Lines that may share one output line. */
  predicate Mergeable(a: Entry, b: Entry) {
    a.heartbeat == b.heartbeat && (a.heartbeat || a.key == b.key)
  }

  predicate IsRun(run: seq<Entry>) {
    run != [] && forall j :: 0 <= j < |run| ==> Mergeable(run[0], run[j])
  }

  function Concat(runs: seq<seq<Entry>>): seq<Entry> {
    if runs == [] then [] else Concat(Front(runs)) + Last(runs)
  }

  /** The runs make up the entries, each is of one class, and no two adjacent ones could be one run. */
  ghost predicate IsMaximalPartition(runs: seq<seq<Entry>>, es: seq<Entry>) {
    && Concat(runs) == es
    && (forall i :: 0 <= i < |runs| ==> IsRun(runs[i]))
    && (forall i :: 0 < i < |runs| ==> !Mergeable(runs[i - 1][0], runs[i][0]))
  }

  /** The entry joins the last run when it can, and otherwise starts a new one. */
  function Extend(runs: seq<seq<Entry>>, e: Entry): seq<seq<Entry>> {
    if runs != [] && Last(runs) != [] && Mergeable(Last(runs)[0], e)
    then Front(runs) + [Last(runs) + [e]]
    else runs + [[e]]
  }

  function Runs(es: seq<Entry>): seq<seq<Entry>> {
    if es == [] then [] else Extend(Runs(Front(es)), Last(es))
  }

  /** There is exactly one maximal partition, and Runs finds it. */
  lemma {:induction false} RunsAreTheMaximalPartition(es: seq<Entry>, runs: seq<seq<Entry>>)
    ensures IsMaximalPartition(runs, es) <==> runs == Runs(es)
  {
    RunsArePartition(es);
    if IsMaximalPartition(runs, es) {
      PartitionIsRuns(es, runs);
    }
  }

  lemma {:induction false} NothingToPartition(es: seq<Entry>)
    requires es == []
    ensures IsMaximalPartition(Runs(es), es)
  {}

  lemma {:induction false} RunsSnoc(es: seq<Entry>, e: Entry)
    ensures Runs(es + [e]) == Extend(Runs(es), e)
  {
    assert Front(es + [e]) == es;
  }

  lemma {:induction false} RunsArePartition(es: seq<Entry>)
    ensures IsMaximalPartition(Runs(es), es)
  {
    hide IsMaximalPartition, Extend, Runs, Concat, IsRun, Mergeable;
    if es == [] {
      NothingToPartition(es);
    } else {
      var front, e := Front(es), Last(es);
      assert es == front + [e];
      RunsArePartition(front);
      RunsSnoc(front, e);
      ExtendKeepsPartition(Runs(front), front, e);
    }
  }

  lemma {:induction false} ConcatSnoc(runs: seq<seq<Entry>>, run: seq<Entry>)
    ensures Concat(runs + [run]) == Concat(runs) + run
  {
    assert Front(runs + [run]) == runs;
  }

  lemma {:induction false} LongerRun(run: seq<Entry>, e: Entry)
    requires IsRun(run) && Mergeable(run[0], e)
    ensures IsRun(run + [e]) && (run + [e])[0] == run[0]
  {}

  lemma {:induction false} ExtendKeepsPartition(runs: seq<seq<Entry>>, es: seq<Entry>, e: Entry)
    requires IsMaximalPartition(runs, es)
    ensures IsMaximalPartition(Extend(runs, e), es + [e])
  {
    hide Concat, IsRun, Mergeable;
    if runs != [] && Last(runs) != [] && Mergeable(Last(runs)[0], e) {
      var init, last := Front(runs), Last(runs);
      LongerRun(last, e);
      assert runs == init + [last];
      ConcatSnoc(init, last);
      ConcatSnoc(init, last + [e]);
      assert Concat(init) + last + [e] == Concat(init) + (last + [e]);
    } else {
      ConcatSnoc(runs, [e]);
      AlwaysARun(e);
      if runs != [] {
        NonEmptyRun(Last(runs));
      }
    }
  }

  lemma {:induction false} AlwaysARun(e: Entry)
    ensures IsRun([e])
  {}

  lemma {:induction false} NonEmptyRun(run: seq<Entry>)
    requires IsRun(run)
    ensures run != []
  {}

  lemma {:induction false} PartitionIsRuns(es: seq<Entry>, runs: seq<seq<Entry>>)
    requires IsMaximalPartition(runs, es)
    ensures runs == Runs(es)
    decreases |es|
  {
    if runs != [] {
      var e := Last(Last(runs));
      var before := WithoutLast(runs, es);
      PartitionIsRuns(Front(es), before);
    }
  }

  /** Taking the last entry away undoes Extend. */
  lemma {:induction false} WithoutLast(runs: seq<seq<Entry>>, es: seq<Entry>) returns (before: seq<seq<Entry>>)
    requires IsMaximalPartition(runs, es) && runs != []
    ensures es != [] && IsMaximalPartition(before, Front(es)) && runs == Extend(before, Last(es))
  {
    hide Mergeable, Runs;
    var init, last := Front(runs), Last(runs);
    assert IsRun(last) && Last(es) == Last(last);
    if |last| == 1 {
      before := init;
      assert last == [Last(es)] && runs == init + [last];
      assert Front(es) == Concat(init);
      if init != [] { assert Last(init) == runs[|runs| - 2]; }
    } else {
      before := init + [Front(last)];
      assert Front(before) == init && Last(before) == Front(last);
      assert Front(es) == Concat(init) + Front(last);
      assert last == Front(last) + [Last(es)] && runs == init + [last];
    }
  }

  function TotalLength(runs: seq<seq<Entry>>): nat {
    if runs == [] then 0 else TotalLength(Front(runs)) + |Last(runs)|
  }

  lemma {:induction false} ConcatLength(runs: seq<seq<Entry>>)
    ensures |Concat(runs)| == TotalLength(runs)
    ensures NoneEmpty(runs) ==> TotalLength(runs) >= |runs|
    ensures NoneEmpty(runs) && TotalLength(runs) == |runs| ==> forall i :: 0 <= i < |runs| ==> |runs[i]| == 1
  {
    if runs != [] {
      ConcatLength(Front(runs));
    }
  }

  // ----- what is written for a run

  predicate Truthy(t: Option<string>) { t.Some? && t.value != "" }

  function BuildCollapsedRange(count: nat, name: string, first: Option<string>, last: Option<string>): string {
    if Truthy(first) && Truthy(last) && first != last
    then "[collapsed " + Decimal(count) + " " + name + " lines from " + first.value + " to " + last.value + "]"
    else if Truthy(first)
    then "[collapsed " + Decimal(count) + " " + name + " lines at " + first.value + "]"
    else "[collapsed " + Decimal(count) + " " + name + " lines]"
  }

  /** The count and time range of several lines. */
  function Summary(run: seq<Entry>): string
    requires run != []
  {
    var first, last := run[0], Last(run);
    if first.heartbeat then BuildCollapsedRange(|run|, "heartbeat", first.timestamp, last.timestamp)
    else
      var until := if last.timestamp.Some? then last.timestamp else first.timestamp;
      BuildCollapsedRange(|run|, "repeated log", first.timestamp, until)
  }

  /** One line stands for itself; several are summarised, and a repeated one is shown once. */
  function Render(run: seq<Entry>): string
    requires run != []
  {
    if |run| == 1 then run[0].line
    else if run[0].heartbeat then Summary(run)
    else Summary(run) + " " + run[0].line
  }

  predicate NoneEmpty(runs: seq<seq<Entry>>) {
    forall i :: 0 <= i < |runs| ==> runs[i] != []
  }

  function RenderAll(runs: seq<seq<Entry>>): (out: seq<string>)
    requires NoneEmpty(runs)
    ensures |out| == |runs|
  {
    if runs == [] then [] else RenderAll(Front(runs)) + [Render(Last(runs))]
  }

  lemma {:induction false} RenderedInOrder(runs: seq<seq<Entry>>, i: nat)
    requires NoneEmpty(runs) && i < |runs|
    ensures RenderAll(runs)[i] == Render(runs[i])
  {
    if i < |runs| - 1 {
      RenderedInOrder(Front(runs), i);
    }
  }

  function Collapsed(x: LogSyntax, lines: seq<string>): seq<string> {
    RunsArePartition(ParseAll(x, lines));
    RenderAll(Runs(ParseAll(x, lines)))
  }

  /** One output line for each maximal run, in order; the lengths of the runs add up to the number of lines. */
  lemma {:induction false} OneLinePerRun(x: LogSyntax, lines: seq<string>, i: nat)
    ensures var runs := Runs(ParseAll(x, lines));
            && |Collapsed(x, lines)| == |runs| && TotalLength(runs) == |lines|
            && (i < |runs| ==> runs[i] != [] && Collapsed(x, lines)[i] == Render(runs[i]))
  {
    var es := ParseAll(x, lines);
    RunsArePartition(es);
    ConcatLength(Runs(es));
    if i < |Runs(es)| {
      RenderedInOrder(Runs(es), i);
    }
  }

  // ----- reading a collapsed line back

  function UpToSpace(s: string): string {
    if s == "" || s[0] == ' ' then "" else [s[0]] + UpToSpace(s[1..])
  }

  /** The number that a line beginning with "[collapsed " names. */
  function CountOf(line: string): string {
    if "[collapsed " <= line then UpToSpace(line[|"[collapsed "|..]) else ""
  }

  predicate NoSpace(s: string) { forall i :: 0 <= i < |s| ==> s[i] != ' ' }

  lemma {:induction false} UpToSpaceReads(word: string, rest: string)
    requires NoSpace(word)
    ensures UpToSpace(word + " " + rest) == word
  {
    var s := word + " " + rest;
    if word == "" {
      assert s[0] == ' ';
    } else {
      UpToSpaceReads(word[1..], rest);
      assert s[1..] == word[1..] + " " + rest;
    }
  }

  lemma {:induction false} DecimalHasNoSpace(n: nat)
    ensures NoSpace(Decimal(n))
  {
    if n >= 10 {
      DecimalHasNoSpace(n / 10);
    }
  }

  /** The end of a summary: its time range. */
  function TimeRange(first: string, last: string): string {
    if first != "" && last != "" && first != last then " lines from " + first + " to " + last + "]"
    else if first != "" then " lines at " + first + "]"
    else " lines]"
  }

  function TimeOf(t: Option<string>): string { if t.Some? then t.value else "" }

  lemma {:induction false} Regroup(a: string, b: string, c: string, d: string, e: string, f: string)
    ensures a + b + c + d + e + f == a + (b + c + (d + (e + f)))
  {}

  lemma {:induction false} RangeIs(count: nat, name: string, first: Option<string>, last: Option<string>)
    ensures BuildCollapsedRange(count, name, first, last) ==
            "[collapsed " + Decimal(count) + " " + name + TimeRange(TimeOf(first), TimeOf(last))
  {
    hide Decimal;
    var head := "[collapsed " + Decimal(count) + " " + name;
    var f, l := TimeOf(first), TimeOf(last);
    if f != "" && l != "" && f != l {
      Join4(head, " lines from ", f, " to ", l);
    } else if f != "" {
      Join2(head, " lines at ", f);
    }
  }

  lemma {:induction false} Join4(a: string, b: string, c: string, d: string, e: string)
    ensures a + b + c + d + e + "]" == a + (b + c + d + e + "]")
  {}

  lemma {:induction false} Join2(a: string, b: string, c: string)
    ensures a + b + c + "]" == a + (b + c + "]")
  {}

  lemma {:induction false} CountReads(count: nat, rest: string)
    ensures CountOf("[collapsed " + (Decimal(count) + " " + rest)) == Decimal(count)
  {
    DecimalHasNoSpace(count);
    UpToSpaceReads(Decimal(count), rest);
    var line := "[collapsed " + (Decimal(count) + " " + rest);
    assert line[|"[collapsed "|..] == Decimal(count) + " " + rest;
  }

  /**
   * A line that stands for several can be read back: the number it names is the length of its run, it shows
   * the times of the first and the last line when both are known and differ, and a repeated line stands at
   * its end as it was.
   */
  lemma {:induction false} CollapsedLinesReadBack(x: LogSyntax, lines: seq<string>, i: nat)
    requires i < |Runs(ParseAll(x, lines))| && |Runs(ParseAll(x, lines))[i]| > 1
    ensures i < |Collapsed(x, lines)|
    ensures var run, line := Runs(ParseAll(x, lines))[i], Collapsed(x, lines)[i];
            var first, last := TimeOf(run[0].timestamp), TimeOf(Last(run).timestamp);
            && CountOf(line) == Decimal(|run|)
            && (run[0].heartbeat ==> EndsIn(line, TimeRange(first, last)))
            && (!run[0].heartbeat ==> EndsIn(line, TimeRange(first, last) + " " + run[0].line))
  {
    hide Runs, Concat, RenderAll, EndsIn, CountOf;
    OneLinePerRun(x, lines, i);
    RenderedReadsBack(Runs(ParseAll(x, lines))[i]);
  }

  predicate EndsIn(s: string, part: string) { |part| <= |s| && s[|s| - |part|..] == part }

  lemma {:induction false} Ends(a: string, part: string)
    ensures EndsIn(a + part, part)
  {}

  /** A repeated line that has no time is taken to be as old as the first one. */
  lemma {:induction false} UntilIs(first: Option<string>, last: Option<string>)
    ensures TimeRange(TimeOf(first), TimeOf(if last.Some? then last else first)) == TimeRange(TimeOf(first), TimeOf(last))
  {}

  lemma {:induction false} RenderedReadsBack(run: seq<Entry>)
    requires |run| > 1
    ensures var line, first, last := Render(run), TimeOf(run[0].timestamp), TimeOf(Last(run).timestamp);
            && CountOf(line) == Decimal(|run|)
            && (run[0].heartbeat ==> EndsIn(line, TimeRange(first, last)))
            && (!run[0].heartbeat ==> EndsIn(line, TimeRange(first, last) + " " + run[0].line))
  {
    hide Decimal, CountOf, BuildCollapsedRange, TimeRange, EndsIn, TimeOf;
    var first, last := run[0].timestamp, Last(run).timestamp;
    if run[0].heartbeat {
      RangeIs(|run|, "heartbeat", first, last);
      LineReadsBack(|run|, "heartbeat", TimeRange(TimeOf(first), TimeOf(last)), "");
      assert Render(run) + "" == Render(run);
      assert TimeRange(TimeOf(first), TimeOf(last)) + "" == TimeRange(TimeOf(first), TimeOf(last));
    } else {
      var until := if last.Some? then last else first;
      RangeIs(|run|, "repeated log", first, until);
      UntilIs(first, last);
      LineReadsBack(|run|, "repeated log", TimeRange(TimeOf(first), TimeOf(last)), " " + run[0].line);
      assert Summary(run) + " " + run[0].line == Summary(run) + (" " + run[0].line);
      var range := TimeRange(TimeOf(first), TimeOf(last));
      assert range + " " + run[0].line == range + (" " + run[0].line);
    }
  }

  lemma {:induction false} LineReadsBack(count: nat, name: string, range: string, tail: string)
    ensures var line := "[collapsed " + Decimal(count) + " " + name + range + tail;
            CountOf(line) == Decimal(count) && EndsIn(line, range + tail)
  {
    hide Decimal, CountOf;
    Regroup("[collapsed ", Decimal(count), " ", name, range, tail);
    CountReads(count, name + (range + tail));
    var head := "[collapsed " + Decimal(count) + " " + name;
    assert head + range + tail == head + (range + tail);
    Ends(head, range + tail);
  }

  lemma {:induction false} SingletonsGiveBack(runs: seq<seq<Entry>>)
    requires forall i :: 0 <= i < |runs| ==> |runs[i]| == 1
    ensures |Concat(runs)| == |runs| && forall i :: 0 <= i < |runs| ==> Concat(runs)[i] == runs[i][0]
  {
    if runs != [] {
      SingletonsGiveBack(Front(runs));
    }
  }

  function Singles(es: seq<Entry>): (runs: seq<seq<Entry>>)
    ensures |runs| == |es|
    ensures es != [] ==> Last(runs) == [Last(es)]
  {
    if es == [] then [] else Singles(Front(es)) + [[Last(es)]]
  }

  lemma {:induction false} RunsOfUnmergeable(es: seq<Entry>)
    requires forall i :: 0 < i < |es| ==> !Mergeable(es[i - 1], es[i])
    ensures Runs(es) == Singles(es)
  {
    hide Mergeable;
    if es != [] {
      var f := Front(es);
      assert forall i :: 0 <= i < |f| ==> f[i] == es[i];
      RunsOfUnmergeable(f);
    }
  }

  /** The output has a line less for each merge: as many lines as the input exactly when no neighbours merge. */
  lemma {:induction false} ShorterExactlyWhenSomethingMerges(x: LogSyntax, lines: seq<string>)
    ensures |Collapsed(x, lines)| <= |lines|
    ensures |Collapsed(x, lines)| == |lines| <==>
            forall i :: 0 < i < |lines| ==> !Mergeable(Parse(x, lines[i - 1]), Parse(x, lines[i]))
    ensures |Collapsed(x, lines)| == |lines| ==> Collapsed(x, lines) == lines
  {
    hide Includes, IncludesAny, IsLowSignalHeartbeatLine, Runs, Concat, TotalLength, Mergeable, Summary, RenderAll;
    var es := ParseAll(x, lines);
    var runs := Runs(es);
    RunsArePartition(es);
    ConcatLength(runs);
    if |runs| == |es| {
      SingletonsGiveBack(runs);
      forall i | 0 <= i < |lines| ensures Collapsed(x, lines)[i] == lines[i] {
        RenderedInOrder(runs, i);
      }
      forall i | 0 < i < |lines| ensures !Mergeable(Parse(x, lines[i - 1]), Parse(x, lines[i])) {
        assert !Mergeable(runs[i - 1][0], runs[i][0]);
        assert Concat(runs)[i - 1] == es[i - 1] && Concat(runs)[i] == es[i];
      }
    } else if forall i :: 0 < i < |lines| ==> !Mergeable(Parse(x, lines[i - 1]), Parse(x, lines[i])) {
      forall i | 0 < i < |es| ensures !Mergeable(es[i - 1], es[i]) {
        assert es[i - 1] == Parse(x, lines[i - 1]) && es[i] == Parse(x, lines[i]);
      }
      RunsOfUnmergeable(es);
      assert false;
    }
  }

  // ----- the loop

  /** What the loop's variables hold is the run that is still open, if any. */
  ghost predicate Holds(group: seq<Entry>, entry: Option<Entry>, count: nat, lastTimestamp: Option<string>,
                        last: seq<Entry>)
  {
    if last == [] then group == [] && entry.None?
    else if last[0].heartbeat then group == last && entry.None?
    else group == [] && entry == Some(last[0]) && count == |last| && lastTimestamp == Last(last).timestamp
  }

  /** The complete runs and the open one. */
  ghost predicate Splits(es: seq<Entry>, closed: seq<seq<Entry>>, last: seq<Entry>) {
    if last == [] then es == [] && closed == []
    else IsRun(last) && NoneEmpty(closed) && Runs(es) == closed + [last]
  }

  /** The complete runs and the open one after one more entry. */
  ghost function Advance(closed: seq<seq<Entry>>, last: seq<Entry>, e: Entry): (seq<seq<Entry>>, seq<Entry>) {
    if last == [] then (closed, [e])
    else if Mergeable(last[0], e) then (closed, last + [e])
    else (closed + [last], [e])
  }

  lemma {:induction false} Extends(es: seq<Entry>, closed: seq<seq<Entry>>, last: seq<Entry>, e: Entry)
    requires Splits(es, closed, last)
    ensures var next := Advance(closed, last, e); Splits(es + [e], next.0, next.1)
  {
    assert Front(es + [e]) == es;
    if last == [] {
      assert Runs(es + [e]) == Extend([], e);
    } else {
      assert Front(closed + [last]) == closed && Last(closed + [last]) == last;
      assert Runs(es + [e]) == Extend(closed + [last], e);
    }
  }

  lemma {:induction false} RenderOneMore(closed: seq<seq<Entry>>, last: seq<Entry>)
    requires NoneEmpty(closed) && last != []
    ensures NoneEmpty(closed + [last]) && RenderAll(closed + [last]) == RenderAll(closed) + [Render(last)]
  {
    assert Front(closed + [last]) == closed;
  }

  method CollapseLowSignalLogNoise(x: LogSyntax, lines: seq<string>) returns (collapsed: seq<string>)
    ensures collapsed == Collapsed(x, lines)
  {
    RunsArePartition(ParseAll(x, lines));
    collapsed := CollapseEntries(ParseAll(x, lines));
  }

  /** The loop over the lines, each with its timestamp, its key and whether it is a heartbeat. */
  method CollapseEntries(es: seq<Entry>) returns (collapsed: seq<string>)
    ensures NoneEmpty(Runs(es)) && collapsed == RenderAll(Runs(es))
  {
    collapsed := [];
    var heartbeatGroup: seq<Entry> := [];
    var repeatedEntry: Option<Entry> := None;
    var repeatedCount := 0;
    var repeatedLastTimestamp: Option<string> := None;
    ghost var closed: seq<seq<Entry>>, last: seq<Entry> := [], [];
    for i := 0 to |es|
      invariant NoneEmpty(closed) && collapsed == RenderAll(closed)
      invariant Splits(es[..i], closed, last)
      invariant Holds(heartbeatGroup, repeatedEntry, repeatedCount, repeatedLastTimestamp, last)
    {
      var entry := es[i];
      assert es[..i + 1] == es[..i] + [entry];
      Extends(es[..i], closed, last, entry);
      if last != [] {
        RenderOneMore(closed, last);
      }
      ghost var was := last;
      ghost var next := Advance(closed, last, entry);
      closed, last := next.0, next.1;
      if entry.heartbeat {
        collapsed := FlushRepeatedEntry(collapsed, repeatedEntry, repeatedCount, repeatedLastTimestamp, was);
        repeatedEntry, repeatedCount, repeatedLastTimestamp := None, 0, None;
        heartbeatGroup := heartbeatGroup + [entry];
        continue;
      }
      collapsed := FlushHeartbeatGroup(collapsed, heartbeatGroup);
      heartbeatGroup := [];
      if repeatedEntry.Some? && repeatedEntry.value.key == entry.key {
        repeatedCount, repeatedLastTimestamp := repeatedCount + 1, entry.timestamp;
        continue;
      }
      collapsed := FlushRepeatedEntry(collapsed, repeatedEntry, repeatedCount, repeatedLastTimestamp, was);
      repeatedEntry, repeatedCount, repeatedLastTimestamp := Some(entry), 1, entry.timestamp;
    }
    assert es[..|es|] == es;
    if last != [] {
      RenderOneMore(closed, last);
    }
    collapsed := FlushHeartbeatGroup(collapsed, heartbeatGroup);
    collapsed := FlushRepeatedEntry(collapsed, repeatedEntry, repeatedCount, repeatedLastTimestamp, last);
  }

  method FlushHeartbeatGroup(collapsed: seq<string>, group: seq<Entry>) returns (out: seq<string>)
    requires group != [] ==> IsRun(group) && group[0].heartbeat
    ensures out == if group == [] then collapsed else collapsed + [Render(group)]
  {
    if |group| == 0 {
      return collapsed;
    }
    if |group| == 1 {
      return collapsed + [group[0].line];
    }
    out := collapsed + [BuildCollapsedRange(|group|, "heartbeat", group[0].timestamp, group[|group| - 1].timestamp)];
  }

  method FlushRepeatedEntry(collapsed: seq<string>, entry: Option<Entry>, count: nat, lastTimestamp: Option<string>,
                            ghost run: seq<Entry>)
    returns (out: seq<string>)
    requires entry.Some? ==>
               && run != [] && !run[0].heartbeat && entry.value == run[0]
               && count == |run| && lastTimestamp == Last(run).timestamp
    ensures out == if entry.None? then collapsed else collapsed + [Render(run)]
  {
    if entry.None? {
      return collapsed;
    }
    if count == 1 {
      return collapsed + [entry.value.line];
    }
    var until := if lastTimestamp.Some? then lastTimestamp else entry.value.timestamp;
    out := collapsed
      + [BuildCollapsedRange(count, "repeated log", entry.value.timestamp, until) + " " + entry.value.line];
  }
}
