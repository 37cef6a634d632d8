/** Which lines of the collapsed log go into a bug report. */
module LogSelection {
  import opened Collections
  import opened LogCollapse

  const FALLBACK_LOG_LINES := 100
  const LOG_SIGNAL_CONTEXT_LINES := 8
  const LOG_SESSION_COVERAGE_CONTEXT_LINES := 4
  const LOG_SCORE_THRESHOLD := 45
  const CONFIG_SIGNAL_KEYWORDS: seq<string> :=
    ["byok", "provider", "model", "reasoning", "api key", "auth", "credential", "session settings", "inherit",
     "override", "setting"]
  const MISSION_SIGNAL_KEYWORDS: seq<string> :=
    ["mission", "worker", "validator", "validation", "orchestrator", "handoff", "retry", "spawn"]

  datatype Context = Context(missionId: Option<string>, relatedSessionIds: seq<string>)

  function Points(c: bool, n: int): int { if c then n else 0 }

  function Score(x: LogSyntax, line: string, context: Context): int {
    var lower := x.lower(line);
    Points(IncludesAny(lower, HIGH_SIGNAL_KEYWORDS), 100)
    + Points(IncludesAny(lower, WARNING_KEYWORDS), 40)
    + Points(IncludesAny(lower, CONFIG_SIGNAL_KEYWORDS), 55)
    + Points(IncludesAny(lower, MISSION_SIGNAL_KEYWORDS), 25)
    + Points(Truthy(context.missionId) && Includes(line, context.missionId.value), 70)
    + Points(IncludesAny(line, context.relatedSessionIds), 65)
    + Points(IsLowSignalHeartbeatLine(lower), -80)
  }

  // ----- the selected positions

  predicate Near(i: int, k: int, radius: int) { -radius <= i - k <= radius }

  predicate Within(k: int, low: int, high: int) { low <= k < high }

  function Between(low: int, high: int): set<nat> {
    set k: nat | k < high && Within(k, low, high)
  }

  /** The positions within the radius of index, cut at both ends. */
  function Range(index: nat, radius: nat, n: nat): set<nat> {
    set k: nat | k < n && Near(index, k, radius)
  }

  function Tail(n: nat): set<nat> {
    Between(n - FALLBACK_LOG_LINES, n)
  }

  predicate NearSignal(signal: seq<bool>, k: nat) {
    exists i :: 0 <= i < |signal| && signal[i] && Near(i, k, LOG_SIGNAL_CONTEXT_LINES)
  }

  /** signal tells of each line whether it scores high enough. */
  function AroundSignals(signal: seq<bool>, n: nat): set<nat> {
    set k: nat | k < n && NearSignal(signal, k)
  }

  function Mentions(lines: seq<string>, sessionId: string): set<nat> {
    set i: nat | i < |lines| && Includes(lines[i], sessionId)
  }

  predicate Below(m: nat, s: set<nat>) { forall k :: k in s ==> m <= k }

  predicate Above(m: nat, s: set<nat>) { forall k :: k in s ==> k <= m }

  lemma {:induction false} HasFirst(s: set<nat>)
    requires s != {}
    ensures exists m :: m in s && Below(m, s)
    decreases |s|
  {
    var x :| x in s;
    if !Below(x, s) {
      var rest := set k | k in s && k < x;
      assert rest < s by { assert x !in rest; }
      SmallerSet(rest, s);
      var y :| y in s && y < x;
      assert y in rest;
      HasFirst(rest);
      var m :| m in rest && Below(m, rest);
      forall k | k in s ensures m <= k { assert k < x ==> k in rest; }
      assert m in s && Below(m, s);
    }
  }

  lemma {:induction false} HasFinal(s: set<nat>)
    requires s != {}
    ensures exists m :: m in s && Above(m, s)
    decreases |s|
  {
    var x :| x in s;
    if !Above(x, s) {
      var rest := set k | k in s && x < k;
      assert rest < s by { assert x !in rest; }
      SmallerSet(rest, s);
      var y :| y in s && x < y;
      assert y in rest;
      HasFinal(rest);
      var m :| m in rest && Above(m, rest);
      forall k | k in s ensures k <= m { assert x < k ==> k in rest; }
      assert m in s && Above(m, s);
    }
  }

  lemma {:induction false} SmallerSet(a: set<nat>, b: set<nat>)
    requires a < b
    ensures |a| < |b|
  {
    assert b == a + (b - a);
    var x :| x in b - a;
  }

  ghost function First(s: set<nat>): (m: nat)
    requires s != {}
    ensures m in s && Below(m, s)
  {
    HasFirst(s);
    var m :| m in s && Below(m, s);
    m
  }

  ghost function Final(s: set<nat>): (m: nat)
    requires s != {}
    ensures m in s && Above(m, s)
  {
    HasFinal(s);
    var m :| m in s && Above(m, s);
    m
  }

  /** A session that is mentioned but not covered gets its first and its last mention. */
  ghost function Cover(selected: set<nat>, mentions: set<nat>, n: nat): set<nat> {
    if mentions == {} || selected * mentions != {} then selected
    else
      selected + Range(First(mentions), LOG_SESSION_COVERAGE_CONTEXT_LINES, n)
      + Range(Final(mentions), LOG_SESSION_COVERAGE_CONTEXT_LINES, n)
  }

  ghost function CoverAll(selected: set<nat>, lines: seq<string>, sessions: seq<string>): set<nat> {
    if sessions == [] then selected
    else Cover(CoverAll(selected, lines, Front(sessions)), Mentions(lines, Last(sessions)), |lines|)
  }

  ghost function Selection(signal: seq<bool>, lines: seq<string>, sessions: seq<string>): set<nat> {
    CoverAll(AroundSignals(signal, |lines|), lines, sessions) + Tail(|lines|)
  }

  function Signals(x: LogSyntax, lines: seq<string>, context: Context): seq<bool> {
    seq(|lines|, i requires 0 <= i < |lines| => Score(x, lines[i], context) >= LOG_SCORE_THRESHOLD)
  }

  /** The selected positions in increasing order. */
  function Positions(selected: set<nat>, n: nat): seq<nat> {
    if n == 0 then []
    else if n - 1 in selected then Positions(selected, n - 1) + [n - 1]
    else Positions(selected, n - 1)
  }

  function Pick(lines: seq<string>, selected: set<nat>): seq<string> {
    if lines == [] then []
    else if |lines| - 1 in selected then Pick(Front(lines), selected) + [Last(lines)]
    else Pick(Front(lines), selected)
  }

  /** The lines of a log that go into the report. */
  ghost function Report(x: LogSyntax, lines: seq<string>, context: Context): seq<string> {
    var collapsed := Collapsed(x, lines);
    Pick(collapsed, Selection(Signals(x, collapsed, context), collapsed, context.relatedSessionIds))
  }

  // ----- what is promised of the selection

  /** The picked lines are those at the selected positions, in the order of the log. */
  lemma {:induction false} PickIsASubsequence(lines: seq<string>, selected: set<nat>)
    ensures var at := Positions(selected, |lines|);
            && |Pick(lines, selected)| == |at|
            && (forall j :: 0 <= j < |at| ==> at[j] < |lines| && Pick(lines, selected)[j] == lines[at[j]])
            && (forall i, j :: 0 <= i < j < |at| ==> at[i] < at[j])
            && (forall k: nat :: k in at <==> k < |lines| && k in selected)
  {
    if lines != [] {
      PickIsASubsequence(Front(lines), selected);
    }
  }

  lemma {:induction false} CoverAllGrows(selected: set<nat>, lines: seq<string>, sessions: seq<string>)
    ensures selected <= CoverAll(selected, lines, sessions)
  {
    if sessions != [] {
      CoverAllGrows(selected, lines, Front(sessions));
    }
  }

  /** The tail is selected, and every line that scores high enough with eight neighbours on each side. */
  lemma {:induction false} TailAndSignalsAreSelected(signal: seq<bool>, lines: seq<string>, sessions: seq<string>, i: nat, k: nat)
    requires |signal| == |lines| && i < |lines| && k < |lines|
    ensures k >= |lines| - 100 ==> k in Selection(signal, lines, sessions)
    ensures signal[i] && i - 8 <= k <= i + 8 ==> k in Selection(signal, lines, sessions)
  {
    CoverAllGrows(AroundSignals(signal, |lines|), lines, sessions);
    if signal[i] && i - 8 <= k <= i + 8 {
      assert Near(i, k, LOG_SIGNAL_CONTEXT_LINES);
    }
  }

  lemma {:induction false} SessionsAreCovered(selected: set<nat>, lines: seq<string>, sessions: seq<string>, j: nat)
    requires j < |sessions| && Mentions(lines, sessions[j]) != {}
    ensures CoverAll(selected, lines, sessions) * Mentions(lines, sessions[j]) != {}
  {
    var before := CoverAll(selected, lines, Front(sessions));
    if j < |sessions| - 1 {
      SessionsAreCovered(selected, lines, Front(sessions), j);
      var i :| i in before * Mentions(lines, sessions[j]);
      assert i in CoverAll(selected, lines, sessions) * Mentions(lines, sessions[j]);
    } else {
      var mentions := Mentions(lines, sessions[j]);
      if before * mentions == {} {
        var first := First(mentions);
        assert Near(first, first, LOG_SESSION_COVERAGE_CONTEXT_LINES);
        assert first in CoverAll(selected, lines, sessions) * mentions;
      }
    }
  }

  /** For every related session that some line mentions, a line that mentions it is selected. */
  lemma {:induction false} MentionedSessionsAreSelected(signal: seq<bool>, lines: seq<string>, sessions: seq<string>, j: nat, i: nat)
    requires j < |sessions| && i < |lines| && Includes(lines[i], sessions[j])
    ensures exists k :: k in Selection(signal, lines, sessions) && k < |lines| && Includes(lines[k], sessions[j])
  {
    assert i in Mentions(lines, sessions[j]);
    SessionsAreCovered(AroundSignals(signal, |lines|), lines, sessions, j);
    var k :| k in CoverAll(AroundSignals(signal, |lines|), lines, sessions) * Mentions(lines, sessions[j]);
    assert k in Selection(signal, lines, sessions);
  }

  /** k is near the first or last mention of a session of which no mention is in selected. */
  ghost predicate CoversSession(k: nat, selected: set<nat>, lines: seq<string>, session: string) {
    var mentions := Mentions(lines, session);
    && mentions != {} && selected * mentions == {}
    && (Near(First(mentions), k, LOG_SESSION_COVERAGE_CONTEXT_LINES)
        || Near(Final(mentions), k, LOG_SESSION_COVERAGE_CONTEXT_LINES))
  }

  lemma {:induction false} OnlyCoverage(selected: set<nat>, lines: seq<string>, sessions: seq<string>, k: nat)
    requires k in CoverAll(selected, lines, sessions)
    ensures k in selected || exists j :: 0 <= j < |sessions| && CoversSession(k, selected, lines, sessions[j])
  {
    if sessions != [] {
      var before := CoverAll(selected, lines, Front(sessions));
      CoverAllGrows(selected, lines, Front(sessions));
      if k in before {
        OnlyCoverage(selected, lines, Front(sessions), k);
        if k !in selected {
          var j :| 0 <= j < |sessions| - 1 && CoversSession(k, selected, lines, Front(sessions)[j]);
          assert CoversSession(k, selected, lines, sessions[j]);
        }
      } else {
        assert CoversSession(k, selected, lines, sessions[|sessions| - 1]);
      }
    }
  }

  /** Nothing else is selected: every selected line is in the tail, near a signal, or covers a session. */
  lemma {:induction false} NothingElseIsSelected(signal: seq<bool>, lines: seq<string>, sessions: seq<string>, k: nat)
    requires |signal| == |lines| && k in Selection(signal, lines, sessions)
    ensures k < |lines|
    ensures || k >= |lines| - 100
            || (exists i :: 0 <= i < |signal| && signal[i] && Near(i, k, 8))
            || exists j :: 0 <= j < |sessions| && CoversSession(k, AroundSignals(signal, |lines|), lines, sessions[j])
  {
    if k !in Tail(|lines|) {
      OnlyCoverage(AroundSignals(signal, |lines|), lines, sessions, k);
    }
    Bounded(AroundSignals(signal, |lines|), lines, sessions);
  }

  lemma {:induction false} Bounded(selected: set<nat>, lines: seq<string>, sessions: seq<string>)
    requires forall k :: k in selected ==> k < |lines|
    ensures forall k :: k in CoverAll(selected, lines, sessions) ==> k < |lines|
  {
    if sessions != [] {
      Bounded(selected, lines, Front(sessions));
    }
  }

  /** A line that mentions a related session scores high enough unless it is a heartbeat. */
  lemma {:induction false} MentionScores(x: LogSyntax, line: string, context: Context, session: string)
    requires session in context.relatedSessionIds && Includes(line, session)
    ensures Score(x, line, context) >= LOG_SCORE_THRESHOLD || IsLowSignalHeartbeatLine(x.lower(line))
  {
    assert IncludesAny(line, context.relatedSessionIds);
  }

  /**
   * Without a heartbeat any strong sign is enough, or a warning about a mission; a heartbeat needs the
   * mission's id and another strong sign, or a related session, a setting and a mission word together.
   */
  lemma {:induction false} ScoresHighExactlyWhen(x: LogSyntax, line: string, context: Context)
    ensures var lower := x.lower(line);
            var config, mission := IncludesAny(lower, CONFIG_SIGNAL_KEYWORDS), IncludesAny(lower, MISSION_SIGNAL_KEYWORDS);
            var id := Truthy(context.missionId) && Includes(line, context.missionId.value);
            var session := IncludesAny(line, context.relatedSessionIds);
            Score(x, line, context) >= LOG_SCORE_THRESHOLD <==>
            if IsLowSignalHeartbeatLine(lower) then (id && (config || session)) || (session && config && mission)
            else IncludesAny(lower, HIGH_SIGNAL_KEYWORDS) || config || id || session
                 || (mission && IncludesAny(lower, WARNING_KEYWORDS))
  {
    hide Includes, IncludesAny;
  }

  // ----- the loops

  method AddRangeToSelection(selectedIndexes: set<nat>, index: nat, radius: nat, totalLines: nat)
    returns (more: set<nat>)
    requires index < totalLines
    ensures more == selectedIndexes + Range(index, radius, totalLines)
  {
    more := selectedIndexes;
    var start := if index - radius > 0 then index - radius else 0;
    var end := if totalLines - 1 < index + radius then totalLines - 1 else index + radius;
    for current := start to end + 1
      invariant more == selectedIndexes + Between(start, current)
    {
      more := more + {current};
    }
  }

  /** The positions below m of the lines that mention a session, in order, perhaps repeated. */
  ghost predicate IsIndex(indexes: seq<nat>, lines: seq<string>, m: nat, session: string)
    requires m <= |lines|
  {
    && (forall i: nat :: i in indexes <==> i < m && Includes(lines[i], session))
    && (forall a, b :: 0 <= a < b < |indexes| ==> indexes[a] <= indexes[b])
  }

  function At(matches: map<string, seq<nat>>, session: string): seq<nat> {
    if session in matches then matches[session] else []
  }

  lemma {:induction false} IndexOneMore(indexes: seq<nat>, lines: seq<string>, m: nat, session: string)
    requires m < |lines|
    requires IsIndex(indexes, lines, m, session) || IsIndex(indexes, lines, m + 1, session)
    ensures if Includes(lines[m], session) then IsIndex(indexes + [m], lines, m + 1, session)
            else IsIndex(indexes, lines, m + 1, session)
  {
    if Includes(lines[m], session) {
      assert forall i :: i in indexes + [m] <==> i in indexes || i == m;
      assert forall a :: 0 <= a < |indexes| ==> indexes[a] in indexes;
    }
  }

  method RecordMentions(matches: map<string, seq<nat>>, lines: seq<string>, m: nat, sessions: seq<string>)
    returns (more: map<string, seq<nat>>)
    requires m < |lines|
    requires forall s :: s in sessions ==> IsIndex(At(matches, s), lines, m, s)
    ensures forall s :: s in sessions ==> IsIndex(At(more, s), lines, m + 1, s)
  {
    more := matches;
    for j := 0 to |sessions|
      invariant forall s :: s in sessions ==> Halfway(At(more, s), lines, m, s, s in sessions[..j])
    {
      var session := sessions[j];
      assert sessions[..j + 1] == sessions[..j] + [session];
      IndexOneMore(At(more, session), lines, m, session);
      if Includes(lines[m], session) {
        more := more[session := At(more, session) + [m]];
      }
    }
    assert sessions[..|sessions|] == sessions;
  }

  /** A session that was handled has its index up to line m, the others up to there or before it. */
  ghost predicate Halfway(indexes: seq<nat>, lines: seq<string>, m: nat, session: string, handled: bool)
    requires m < |lines|
  {
    IsIndex(indexes, lines, m + 1, session) || (!handled && IsIndex(indexes, lines, m, session))
  }

  method SelectRelevantLogLines(x: LogSyntax, lines: seq<string>, context: Context) returns (picked: seq<string>)
    ensures picked == Report(x, lines, context)
  {
    var normalized := CollapseLowSignalLogNoise(x, lines);
    if |lines| == 0 {
      RunsArePartition(ParseAll(x, lines));
      return [];
    }
    OneLinePerRun(x, lines, 0);
    ConcatLength(Runs(ParseAll(x, lines)));
    picked := SelectLines(normalized, Signals(x, normalized, context), context.relatedSessionIds);
  }

  /** The selection itself, from which lines score high enough. */
  method SelectLines(lines: seq<string>, signal: seq<bool>, sessions: seq<string>) returns (picked: seq<string>)
    requires |signal| == |lines| > 0
    ensures picked == Pick(lines, Selection(signal, lines, sessions))
  {
    hide Includes, Near, CoverAll, AroundSignals, Pick;
    var selectedIndexes, matches := SelectSignals(lines, signal, sessions);
    selectedIndexes := CoverSessions(selectedIndexes, matches, lines, sessions);
    var tailStart := if |lines| - FALLBACK_LOG_LINES > 0 then |lines| - FALLBACK_LOG_LINES else 0;
    ghost var covered := selectedIndexes;
    for index := tailStart to |lines|
      invariant selectedIndexes == covered + Between(tailStart, index)
    {
      selectedIndexes := selectedIndexes + {index};
    }
    assert Between(tailStart, |lines|) == Tail(|lines|);
    assert |lines| - 1 in selectedIndexes;
    if |selectedIndexes| == 0 {
      assert false;
    }
    picked := Pick(lines, selectedIndexes);
  }

  method SelectSignals(lines: seq<string>, signal: seq<bool>, sessions: seq<string>)
    returns (selectedIndexes: set<nat>, matches: map<string, seq<nat>>)
    requires |signal| == |lines|
    ensures selectedIndexes == AroundSignals(signal, |lines|)
    ensures forall s :: s in sessions ==> IsIndex(At(matches, s), lines, |lines|, s)
  {
    selectedIndexes, matches := {}, map[];
    for i := 0 to |lines|
      invariant selectedIndexes == AroundSignals(signal[..i], |lines|)
      invariant forall s :: s in sessions ==> IsIndex(At(matches, s), lines, i, s)
    {
      SignalOneMore(signal, i, |lines|);
      if signal[i] {
        selectedIndexes := AddRangeToSelection(selectedIndexes, i, LOG_SIGNAL_CONTEXT_LINES, |lines|);
      }
      matches := RecordMentions(matches, lines, i, sessions);
    }
    assert signal[..|lines|] == signal;
  }

  lemma {:induction false} SignalOneMore(signal: seq<bool>, i: nat, n: nat)
    requires i < |signal|
    ensures AroundSignals(signal[..i + 1], n) ==
            AroundSignals(signal[..i], n) + (if signal[i] then Range(i, LOG_SIGNAL_CONTEXT_LINES, n) else {})
  {
    var a, b := signal[..i], signal[..i + 1];
    assert forall j :: 0 <= j < i ==> a[j] == b[j];
    assert b[i] == signal[i];
  }

  method CoverSessions(selected: set<nat>, matches: map<string, seq<nat>>, lines: seq<string>, sessions: seq<string>)
    returns (selectedIndexes: set<nat>)
    requires forall s :: s in sessions ==> IsIndex(At(matches, s), lines, |lines|, s)
    ensures selectedIndexes == CoverAll(selected, lines, sessions)
  {
    selectedIndexes := selected;
    for j := 0 to |sessions|
      invariant selectedIndexes == CoverAll(selected, lines, sessions[..j])
    {
      assert Front(sessions[..j + 1]) == sessions[..j];
      selectedIndexes := CoverSession(selectedIndexes, At(matches, sessions[j]), lines, sessions[j]);
    }
    assert sessions[..|sessions|] == sessions;
  }

  method CoverSession(selected: set<nat>, indexes: seq<nat>, lines: seq<string>, ghost session: string)
    returns (selectedIndexes: set<nat>)
    requires IsIndex(indexes, lines, |lines|, session)
    ensures selectedIndexes == Cover(selected, Mentions(lines, session), |lines|)
  {
    ghost var mentions := Mentions(lines, session);
    assert mentions == (set i | i in indexes);
    selectedIndexes := selected;
    if |indexes| == 0 {
      return;
    }
    Ends(indexes, lines, session);
    if exists i :: i in indexes && i in selectedIndexes {
      ghost var i :| i in indexes && i in selectedIndexes;
      assert i in selected * mentions;
      return;
    }
    assert selected * mentions == {};
    assert indexes[0] in indexes && indexes[|indexes| - 1] in indexes;
    selectedIndexes :=
      AddRangeToSelection(selectedIndexes, indexes[0], LOG_SESSION_COVERAGE_CONTEXT_LINES, |lines|);
    var lastIndex := indexes[|indexes| - 1];
    if lastIndex != indexes[0] {
      selectedIndexes :=
        AddRangeToSelection(selectedIndexes, lastIndex, LOG_SESSION_COVERAGE_CONTEXT_LINES, |lines|);
    }
  }

  lemma {:induction false} Ends(indexes: seq<nat>, lines: seq<string>, session: string)
    requires IsIndex(indexes, lines, |lines|, session) && indexes != []
    ensures var mentions := Mentions(lines, session);
            && mentions == (set i | i in indexes) && mentions != {}
            && First(mentions) == indexes[0] && Final(mentions) == indexes[|indexes| - 1]
  {
    var mentions := Mentions(lines, session);
    assert mentions == (set i | i in indexes);
    assert indexes[0] in mentions && indexes[|indexes| - 1] in mentions;
    var a :| 0 <= a < |indexes| && indexes[a] == First(mentions);
    var b :| 0 <= b < |indexes| && indexes[b] == Final(mentions);
  }
}
