/** Which related sessions a bug report still mentions after collapsing and selection. */
module ReportedSessions {
  import opened Collections
  import Decimals
  import opened LogCollapse
  import opened LogSelection

  // ----- mentions in a text of several parts

  lemma {:induction false} IncludesMeans(s: string, part: string, c: char)
    requires Includes(s, part) && c in part
    ensures c in s
  {
    var i :| 0 <= i <= |s| && part <= s[i..];
    var k :| 0 <= k < |part| && part[k] == c;
    assert s[i + k] == c;
  }

  lemma {:induction false} IncludesPart(a: string, line: string, b: string, part: string)
    requires Includes(line, part)
    ensures Includes(a + line + b, part)
  {
    var i :| 0 <= i <= |line| && part <= line[i..];
    var whole := a + line + b;
    assert whole[|a| + i..] == line[i..] + b;
    assert part <= whole[|a| + i..];
  }

  /** A part without blanks does not straddle a blank. */
  lemma {:induction false} IncludesSplit(a: string, b: string, part: string)
    requires Includes(a + " " + b, part) && ' ' !in part
    ensures Includes(a, part) || Includes(b, part)
  {
    var whole := a + " " + b;
    var i :| 0 <= i <= |whole| && part <= whole[i..];
    forall p | i <= p < i + |part| ensures whole[p] in part {
      assert part[p - i] == whole[p];
    }
    assert whole[|a|] == ' ';
    if i + |part| <= |a| {
      assert a[i..][..|part|] == whole[i..][..|part|];
      assert part <= a[i..];
    } else {
      assert whole[i..] == b[i - |a| - 1..];
    }
  }

  // ----- mentions in a collapsed line

  /** The first line of the run is shown, and mentions the session. */
  predicate Shows(run: seq<Entry>, session: string) {
    run != [] && (|run| == 1 || !run[0].heartbeat) && Includes(run[0].line, session)
  }

  /** The counts and time ranges of the report do not mention the session by themselves. */
  predicate Silent(runs: seq<seq<Entry>>, session: string) {
    ' ' !in session && forall i :: 0 <= i < |runs| && |runs[i]| > 1 ==> !Includes(Summary(runs[i]), session)
  }

  lemma {:induction false} RenderMentions(run: seq<Entry>, session: string)
    requires run != [] && ' ' !in session && (|run| > 1 ==> !Includes(Summary(run), session))
    ensures Includes(Render(run), session) <==> Shows(run, session)
  {
    hide Includes, Summary;
    if |run| > 1 && !run[0].heartbeat {
      if Includes(Render(run), session) {
        IncludesSplit(Summary(run), run[0].line, session);
      }
      if Includes(run[0].line, session) {
        IncludesPart(Summary(run) + " ", run[0].line, "", session);
        assert Summary(run) + " " + run[0].line + "" == Render(run);
      }
    }
  }

  // ----- mentions in the report

  lemma {:induction false} PickedMention(lines: seq<string>, selected: set<nat>, session: string)
    ensures (exists line :: line in Pick(lines, selected) && Includes(line, session)) <==>
            exists k :: k in selected && k < |lines| && Includes(lines[k], session)
  {
    hide Includes, Pick, Positions;
    PickIsASubsequence(lines, selected);
    var at, picked := Positions(selected, |lines|), Pick(lines, selected);
    if exists line :: line in picked && Includes(line, session) {
      var line :| line in picked && Includes(line, session);
      var j :| 0 <= j < |picked| && picked[j] == line;
      assert at[j] in at;
    }
    if exists k :: k in selected && k < |lines| && Includes(lines[k], session) {
      var k :| k in selected && k < |lines| && Includes(lines[k], session);
      var j :| 0 <= j < |at| && at[j] == k;
      assert picked[j] in picked;
    }
  }

  lemma {:induction false} ReportMentions(x: LogSyntax, lines: seq<string>, context: Context, session: string)
    requires session in context.relatedSessionIds
    ensures (exists line :: line in Report(x, lines, context) && Includes(line, session)) <==>
            exists k :: 0 <= k < |Collapsed(x, lines)| && Includes(Collapsed(x, lines)[k], session)
  {
    hide Includes, Pick, Collapsed, Selection, Signals;
    var collapsed := Collapsed(x, lines);
    var signal := Signals(x, collapsed, context);
    PickedMention(collapsed, Selection(signal, collapsed, context.relatedSessionIds), session);
    if exists k :: 0 <= k < |collapsed| && Includes(collapsed[k], session) {
      var k :| 0 <= k < |collapsed| && Includes(collapsed[k], session);
      var j :| 0 <= j < |context.relatedSessionIds| && context.relatedSessionIds[j] == session;
      MentionedSessionsAreSelected(signal, collapsed, context.relatedSessionIds, j, k);
    }
  }

  /** The report mentions a related session exactly when some run shows it. */
  lemma {:induction false} ReportedExactlyWhenShown(x: LogSyntax, lines: seq<string>, context: Context, session: string)
    requires session in context.relatedSessionIds && Silent(Runs(ParseAll(x, lines)), session)
    ensures (exists line :: line in Report(x, lines, context) && Includes(line, session)) <==>
            exists i :: 0 <= i < |Runs(ParseAll(x, lines))| && Shows(Runs(ParseAll(x, lines))[i], session)
  {
    hide Includes, Report, Collapsed, Shows, Runs, Summary, Render;
    var runs, collapsed := Runs(ParseAll(x, lines)), Collapsed(x, lines);
    ReportMentions(x, lines, context, session);
    OneLinePerRun(x, lines, 0);
    forall i | 0 <= i < |runs| ensures Includes(collapsed[i], session) <==> Shows(runs[i], session) {
      OneLinePerRun(x, lines, i);
      RenderMentions(runs[i], session);
    }
    if exists k :: 0 <= k < |collapsed| && Includes(collapsed[k], session) {
      var k :| 0 <= k < |collapsed| && Includes(collapsed[k], session);
      assert Shows(runs[k], session);
    }
  }

  // ----- where a line is among the runs

  lemma {:induction false} ConcatAt(runs: seq<seq<Entry>>, r: nat, o: nat)
    requires r < |runs| && o < |runs[r]|
    ensures TotalLength(runs[..r]) + o < |Concat(runs)| && Concat(runs)[TotalLength(runs[..r]) + o] == runs[r][o]
    ensures TotalLength(runs[..r + 1]) == TotalLength(runs[..r]) + |runs[r]|
    decreases |runs|
  {
    ConcatLength(runs);
    ConcatLength(Front(runs));
    assert Front(runs[..r + 1]) == runs[..r];
    if r < |runs| - 1 {
      ConcatAt(Front(runs), r, o);
      assert Front(runs)[..r] == runs[..r];
    } else {
      assert runs[..r] == Front(runs);
    }
  }

  lemma {:induction false} Locate(runs: seq<seq<Entry>>, i: nat) returns (r: nat, o: nat)
    requires i < TotalLength(runs)
    ensures r < |runs| && o < |runs[r]| && TotalLength(runs[..r]) + o == i
  {
    var before := TotalLength(Front(runs));
    if i < before {
      r, o := Locate(Front(runs), i);
      assert Front(runs)[..r] == runs[..r];
    } else {
      r, o := |runs| - 1, i - before;
      assert runs[..r] == Front(runs);
    }
  }

  /** A heartbeat that is alone in its run has no heartbeat beside it, and the other way round. */
  predicate Alone(es: seq<Entry>, i: nat)
    requires i < |es|
  {
    !es[i].heartbeat || ((i == 0 || !es[i - 1].heartbeat) && (i + 1 == |es| || !es[i + 1].heartbeat))
  }

  lemma {:induction false} AloneInItsRun(es: seq<Entry>, runs: seq<seq<Entry>>, r: nat, o: nat)
    requires IsMaximalPartition(runs, es) && r < |runs| && o < |runs[r]|
    ensures var i := TotalLength(runs[..r]) + o;
            && i < |es| && es[i] == runs[r][o]
            && (Alone(es, i) <==> !es[i].heartbeat || |runs[r]| == 1)
  {
    hide Concat, TotalLength;
    ConcatAt(runs, r, o);
    ConcatLength(runs);
    var i := TotalLength(runs[..r]) + o;
    assert IsRun(runs[r]);
    if es[i].heartbeat {
      LeftOf(es, runs, r, o);
      RightOf(es, runs, r, o);
    }
  }

  /** The line before one of a run: in the run, or the last of the run before. */
  lemma {:induction false} LeftOf(es: seq<Entry>, runs: seq<seq<Entry>>, r: nat, o: nat)
    requires IsMaximalPartition(runs, es) && r < |runs| && o < |runs[r]| && runs[r][o].heartbeat
    ensures var i := TotalLength(runs[..r]) + o;
            && i < |es| && (i > 0 ==> (es[i - 1].heartbeat <==> o > 0))
  {
    hide Concat, TotalLength;
    ConcatAt(runs, r, o);
    assert IsRun(runs[r]);
    if o > 0 {
      ConcatAt(runs, r, o - 1);
      assert Mergeable(runs[r][0], runs[r][o]) && Mergeable(runs[r][0], runs[r][o - 1]);
    } else if r > 0 {
      var before := runs[r - 1];
      assert IsRun(before) && !Mergeable(before[0], runs[r][0]);
      ConcatAt(runs, r - 1, |before| - 1);
      assert Mergeable(before[0], before[|before| - 1]);
    } else {
      assert runs[..0] == [];
      Nothing();
    }
  }

  lemma {:induction false} RightOf(es: seq<Entry>, runs: seq<seq<Entry>>, r: nat, o: nat)
    requires IsMaximalPartition(runs, es) && r < |runs| && o < |runs[r]| && runs[r][o].heartbeat
    ensures var i := TotalLength(runs[..r]) + o;
            && i < |es| && (i + 1 < |es| ==> (es[i + 1].heartbeat <==> o + 1 < |runs[r]|))
            && (o + 1 < |runs[r]| ==> i + 1 < |es|)
  {
    hide Concat, TotalLength;
    ConcatAt(runs, r, o);
    assert IsRun(runs[r]);
    if o + 1 < |runs[r]| {
      ConcatAt(runs, r, o + 1);
      assert Mergeable(runs[r][0], runs[r][o]) && Mergeable(runs[r][0], runs[r][o + 1]);
    } else if r + 1 < |runs| {
      assert IsRun(runs[r + 1]) && !Mergeable(runs[r][0], runs[r + 1][0]);
      ConcatAt(runs, r + 1, 0);
      assert Mergeable(runs[r][0], runs[r][o]);
    } else {
      assert runs[..r + 1] == runs;
      ConcatLength(runs);
    }
  }

  lemma {:induction false} Nothing()
    ensures TotalLength([]) == 0
  {}

  // ----- from the lines of the log

  /** Lines that may be collapsed as repetitions of each other mention the session alike. */
  predicate RepetitionsMentionAlike(es: seq<Entry>, session: string) {
    forall i, j :: 0 <= i < |es| && 0 <= j < |es| && !es[i].heartbeat && !es[j].heartbeat && es[i].key == es[j].key ==>
      (Includes(es[i].line, session) <==> Includes(es[j].line, session))
  }

  lemma {:induction false} ShownIsAlone(es: seq<Entry>, session: string, r: nat) returns (i: nat)
    requires r < |Runs(es)| && Shows(Runs(es)[r], session)
    ensures i < |es| && Includes(es[i].line, session) && Alone(es, i)
  {
    hide Includes, Runs, TotalLength, Alone;
    RunsArePartition(es);
    AloneInItsRun(es, Runs(es), r, 0);
    i := TotalLength(Runs(es)[..r]);
  }

  lemma {:induction false} AloneIsShown(es: seq<Entry>, session: string, i: nat) returns (r: nat)
    requires RepetitionsMentionAlike(es, session)
    requires i < |es| && Includes(es[i].line, session) && Alone(es, i)
    ensures r < |Runs(es)| && Shows(Runs(es)[r], session)
  {
    hide Includes, Runs, TotalLength, Alone;
    var runs := Runs(es);
    RunsArePartition(es);
    ConcatLength(runs);
    var o;
    r, o := Locate(runs, i);
    AloneInItsRun(es, runs, r, o);
    AloneInItsRun(es, runs, r, 0);
    assert IsRun(runs[r]) && Mergeable(runs[r][0], runs[r][o]);
  }

  /**
   * A related session is in the report exactly when some line of the log mentions it that is no heartbeat, or
   * has no heartbeat beside it: only groups of heartbeats lose their mentions.
   */
  lemma {:induction false} SessionIsReportedExactlyWhen(x: LogSyntax, lines: seq<string>, context: Context,
                                                       session: string)
    requires session in context.relatedSessionIds && Silent(Runs(ParseAll(x, lines)), session)
    requires RepetitionsMentionAlike(ParseAll(x, lines), session)
    ensures var es := ParseAll(x, lines);
            (exists line :: line in Report(x, lines, context) && Includes(line, session)) <==>
            exists i :: 0 <= i < |lines| && Includes(lines[i], session) && Alone(es, i)
  {
    hide Includes, Report, Shows, Silent, Alone, Runs, RepetitionsMentionAlike;
    var es := ParseAll(x, lines);
    var runs := Runs(es);
    ReportedExactlyWhenShown(x, lines, context, session);
    if exists r :: 0 <= r < |runs| && Shows(runs[r], session) {
      var r :| 0 <= r < |runs| && Shows(runs[r], session);
      var i := ShownIsAlone(es, session, r);
      assert Includes(lines[i], session) && Alone(es, i);
    }
    if exists i :: 0 <= i < |lines| && Includes(lines[i], session) && Alone(es, i) {
      var i :| 0 <= i < |lines| && Includes(lines[i], session) && Alone(es, i);
      assert es[i].line == lines[i];
      var r := AloneIsShown(es, session, i);
      assert Shows(runs[r], session);
    }
  }

  // ----- a report that loses a session

  const PLAIN := LogSyntax((line: string) => None, (line: string) => line, (line: string) => line)

  lemma {:induction false} KeywordsMissing(s: string)
    requires 'o' !in s && 'x' !in s && 'f' !in s && 'm' !in s && 'd' !in s && 'w' !in s
    ensures !IncludesAny(s, HIGH_SIGNAL_KEYWORDS) && !IncludesAny(s, WARNING_KEYWORDS)
  {
    forall k | k in HIGH_SIGNAL_KEYWORDS || k in WARNING_KEYWORDS ensures !Includes(s, k) {
      if Includes(s, k) {
        var c := if 'o' in k then 'o' else if 'x' in k then 'x' else if 'f' in k then 'f'
                 else if 'm' in k then 'm' else if 'd' in k then 'd' else 'w';
        assert c in k by { KeywordChars(k); }
        IncludesMeans(s, k, c);
      }
    }
  }

  lemma {:induction false} KeywordChars(k: string)
    requires k in HIGH_SIGNAL_KEYWORDS || k in WARNING_KEYWORDS
    ensures 'o' in k || 'x' in k || 'f' in k || 'm' in k || 'd' in k || 'w' in k
  {
    assert "error"[3] == 'o' && "exception"[1] == 'x' && "fatal"[0] == 'f' && "failed"[0] == 'f';
    assert "timeout"[2] == 'm' && "timed out"[2] == 'm' && "disconnect"[0] == 'd' && "invalid"[6] == 'd';
    assert "warn"[0] == 'w' && "warning"[0] == 'w';
  }

  lemma {:induction false} TwoAlike(e: Entry)
    ensures Runs([e, e]) == [[e, e]] && RenderAll(Runs([e, e])) == [Render([e, e])]
  {
    assert Front([e, e]) == [e] && Front([e]) == [] && Last([e]) == e;
    assert Runs([e]) == Extend([], e) == [[e]];
    assert Front([[e]]) == [] && Last([[e]]) == [e] && [e] + [e] == [e, e];
    assert Runs([e, e]) == Extend([[e]], e) == [[e, e]];
    assert Front([[e, e]]) == [];
  }

  lemma {:induction false} SummaryWithoutSession(summary: string)
    requires summary == BuildCollapsedRange(2, "heartbeat", None, None)
    ensures !Includes(summary, "s1")
  {
    assert Decimals.Decimal(2) == ['2'];
    assert '1' !in "[collapsed " && '1' !in "heartbeat" && '1' !in " lines]" && '1' !in " ";
    if Includes(summary, "s1") {
      IncludesMeans(summary, "s1", "s1"[1]);
    }
  }

  lemma {:induction false} SampleIsAHeartbeat(line: string)
    requires line == "heartbeat s1"
    ensures Includes(line, "s1") && Parse(PLAIN, line) == Entry(line, None, line, true)
  {
    assert "s1" <= line[10..] && "heartbeat" <= line[0..];
    KeywordsMissing(line);
  }

  lemma {:induction false} PairIsSilent(e: Entry, session: string)
    requires e.heartbeat && e.timestamp.None? && session == "s1"
    ensures Runs([e, e]) == [[e, e]] && Silent(Runs([e, e]), session)
  {
    TwoAlike(e);
    SummaryWithoutSession(Summary([e, e]));
  }

  /** Two heartbeats in a row mention a related session, and no line of the report does. */
  lemma {:induction false} HeartbeatsLoseMentions()
    ensures var lines, context := ["heartbeat s1", "heartbeat s1"], Context(None, ["s1"]);
            && Includes(lines[0], "s1") && "s1" in context.relatedSessionIds
            && forall line :: line in Report(PLAIN, lines, context) ==> !Includes(line, "s1")
  {
    hide Includes, Report, Runs, Silent, Parse;
    var line, session := "heartbeat s1", "s1";
    var lines, context := [line, line], Context(None, [session]);
    SampleIsAHeartbeat(line);
    var e := Parse(PLAIN, line);
    assert ParseAll(PLAIN, lines) == [e, e];
    PairIsSilent(e, session);
    SessionIsReportedExactlyWhen(PLAIN, lines, context, session);
    assert !Alone([e, e], 0) && !Alone([e, e], 1);
  }
}
