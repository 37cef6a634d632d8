/** Exactly when each tool is asked about, tool by tool, and what an answer approves. */
module ConfirmationThresholds {
  import opened Collections
  import opened Autonomy
  import opened ConfirmationOutcomes
  import opened Confirmation
  import opened ConfirmationProperties

  /** A risk that the session does not take by itself: Mission mode takes every risk, Low takes low ones, and so on. */
  predicate TooRisky(s: Session, risk: Risk) {
    s.mode != MissionMode &&
    match risk
    case LowRisk => s.level == Off
    case MediumRisk => s.level == Off || s.level == Low
    case HighRisk => s.level != High
  }

  // ----- a batch is its tools one by one

  /** A batch is asked about tool by tool, in order: no tool's answer depends on the others. */
  lemma {:induction false} EachToolByItself(r: Runtime, s: Session, a: seq<ToolUse>, b: seq<ToolUse>)
    ensures Flagged(r, s, a + b) == Flagged(r, s, a) + Flagged(r, s, b)
  {
    hide ShouldConfirm;
    if b == [] {
      assert a + b == a;
    } else {
      EachToolByItself(r, s, a, Front(b));
      assert Front(a + b) == a + Front(b);
    }
  }

  lemma {:induction false} OfOne(r: Runtime, s: Session, use: ToolUse)
    ensures Flagged(r, s, [use]) ==
            if ShouldConfirm(r, s, use).Some? then [ShouldConfirm(r, s, use).value] else []
  {
    hide ShouldConfirm;
    assert Front([use]) == [];
  }

  // ----- tool by tool

  /**
   * Wherever it stands in a batch, an MCP tool is asked about exactly when it was not approved for good and
   * its own risk is above the session's level; the prompt then names its risk and its server.
   */
  lemma {:induction false} McpToolsAskAboveTheLevel(r: Runtime, s: Session, before: seq<ToolUse>, id: nat, risk: Risk,
                                                   server: nat, approvedForGood: bool, after: seq<ToolUse>)
    ensures var asks := !r.skipAllConfirmations && !approvedForGood && TooRisky(s, risk);
            Flagged(r, s, before + [ToolUse(id, Mcp(risk, server, approvedForGood))] + after) ==
            Flagged(r, s, before)
            + (if asks then [Info(id, McpKind, Some(risk), false, Some(server))] else [])
            + Flagged(r, s, after)
  {
    var use := ToolUse(id, Mcp(risk, server, approvedForGood));
    EachToolByItself(r, s, before + [use], after);
    EachToolByItself(r, s, before, [use]);
    OfOne(r, s, use);
  }

  /**
   * A command is asked about exactly when it is not blocked, and is denied, or is neither allowed nor within
   * the level. A denied one counts as high.
   */
  lemma {:induction false} CommandsAskAboveTheLevel(r: Runtime, s: Session, before: seq<ToolUse>, id: nat, blocked: bool,
                                                   denied: bool, allowed: bool, risk: Risk, after: seq<ToolUse>)
    ensures var asks := !r.skipAllConfirmations && !blocked && (denied || (!allowed && TooRisky(s, risk)));
            Flagged(r, s, before + [ToolUse(id, Execute(blocked, denied, allowed, risk))] + after) ==
            Flagged(r, s, before)
            + (if asks then [Info(id, ExecuteKind, Some(if denied then HighRisk else risk), denied, None)] else [])
            + Flagged(r, s, after)
  {
    var use := ToolUse(id, Execute(blocked, denied, allowed, risk));
    EachToolByItself(r, s, before + [use], after);
    EachToolByItself(r, s, before, [use]);
    OfOne(r, s, use);
  }

  predicate IsAutomation(tool: Tool) { tool.CreateAutomation? || tool.EditAutomation? || tool.DeleteAutomation? }

  /** Creating and editing an automation need Medium, deleting one needs High; a prompt says so. */
  lemma {:induction false} AutomationsAskAboveTheLevel(r: Runtime, s: Session, before: seq<ToolUse>, id: nat, tool: Tool,
                                                      after: seq<ToolUse>)
    requires IsAutomation(tool)
    ensures var risk := if tool.DeleteAutomation? then HighRisk else MediumRisk;
            var asks := !r.skipAllConfirmations && TooRisky(s, risk);
            Flagged(r, s, before + [ToolUse(id, tool)] + after) ==
            Flagged(r, s, before)
            + (if asks then [Info(id, ExecuteKind, Some(risk), tool.summaryDenied, None)] else [])
            + Flagged(r, s, after)
  {
    EachToolByItself(r, s, before + [ToolUse(id, tool)], after);
    EachToolByItself(r, s, before, [ToolUse(id, tool)]);
    OfOne(r, s, ToolUse(id, tool));
  }

  /** A file edit is asked about in Spec mode, and in Auto mode at Off; plans and missions in every mode of an attended session. */
  lemma {:induction false} EditsAndPlansAsk(r: Runtime, s: Session, before: seq<ToolUse>, id: nat, tool: Tool,
                                           after: seq<ToolUse>)
    requires !IsAutomation(tool) && !tool.Mcp? && !tool.Execute?
    ensures var kind := match tool
              case Create => CreateKind
              case Edit => EditKind
              case ApplyPatch => ApplyPatchKind
              case ExitSpecMode(_) => ExitSpecKind
              case _ => ProposeMissionKind;
            var asks := !r.skipAllConfirmations &&
              match tool
              case ExitSpecMode(unresolved) => !r.nonInteractive && !unresolved
              case ProposeMission => !r.nonInteractive
              case Passive => false
              case _ => s.mode == SpecMode || (s.mode == AutoMode && s.level == Off);
            Flagged(r, s, before + [ToolUse(id, tool)] + after) ==
            Flagged(r, s, before) + (if asks then [Info(id, kind, None, false, None)] else []) + Flagged(r, s, after)
  {
    EachToolByItself(r, s, before + [ToolUse(id, tool)], after);
    EachToolByItself(r, s, before, [ToolUse(id, tool)]);
    OfOne(r, s, ToolUse(id, tool));
  }

  // ----- answers

  /**
   * Approving once approves exactly the chosen tools, or all when none were chosen; every other approval
   * approves all tools of the prompt whatever was chosen, in their order, and Cancel none.
   */
  lemma {:induction false} WhatIsApproved(outcome: Outcome, infos: seq<Info>, chosen: Option<seq<nat>>)
    ensures var approved := Approved(outcome, infos, chosen);
            if outcome == Cancel then approved == []
            else if chosen.Some? && (outcome == ProceedOnce || outcome == ProceedAutoRun) then approved == chosen.value
            else |approved| == |infos| && forall i :: 0 <= i < |infos| ==> approved[i] == infos[i].toolUseId
  {}

  /** Only "always allow" for tools other than sandbox ones, and the approval of a plan, change the session. */
  lemma {:induction false} OtherAnswersChangeNothing(s: Session, outcome: Outcome, infos: seq<Info>,
                                                    chosen: Option<seq<nat>>, max: Option<Level>)
    requires After(s, outcome, infos, chosen, max) != s
    ensures || ((outcome == ProceedAlways || outcome == ProceedAlwaysForExactPath)
                && exists i :: 0 <= i < |infos| && infos[i].kind != SandboxKind)
            || exists i :: 0 <= i < |infos| && infos[i].kind == ExitSpecKind
                           && infos[i].toolUseId in Approved(outcome, infos, chosen)
  {
    hide Required;
    if HasExitSpec(infos) {
      var i :| 0 <= i < |infos| && infos[i].kind == ExitSpecKind;
      assert Ids(infos)[i] == infos[i].toolUseId;
    }
  }

  /** "Always allow this server" is offered exactly when the tools may be approved for good and name one server. */
  lemma {:induction false} ServerIsOfferedExactlyWhen(infos: seq<Info>, max: Option<Level>, newSessionHandoff: bool)
    ensures ProceedAlwaysServer in Options(infos, max, newSessionHandoff) <==>
            && ProceedAlwaysTools in Options(infos, max, newSessionHandoff)
            && exists server ::
                 && (exists i :: 0 <= i < |infos| && infos[i].server == Some(server))
                 && (forall i :: 0 <= i < |infos| && infos[i].server.Some? ==> infos[i].server.value == server)
  {
    hide AllowedTiers, Required, SpecOptions, MaxImpact;
    PlanOptions(max, newSessionHandoff, ProceedAlwaysServer);
    PlanOptions(max, newSessionHandoff, ProceedAlwaysTools);
    OneServer(infos);
  }

  lemma {:induction false} OneServer(infos: seq<Info>)
    ensures |Servers(infos)| == 1 <==>
            exists server ::
              && (exists i :: 0 <= i < |infos| && infos[i].server == Some(server))
              && (forall i :: 0 <= i < |infos| && infos[i].server.Some? ==> infos[i].server.value == server)
  {
    if |Servers(infos)| == 1 {
      var server :| server in Servers(infos);
      var rest := Servers(infos) - {server};
      assert Servers(infos) == {server} + rest && rest == {};
      forall i | 0 <= i < |infos| && infos[i].server.Some? ensures infos[i].server.value == server {
        assert infos[i].server.value in Servers(infos);
      }
      var i :| 0 <= i < |infos| && infos[i].server.Some? && infos[i].server.value == server;
      assert infos[i].server == Some(server);
    }
    if server :| (exists i :: 0 <= i < |infos| && infos[i].server == Some(server))
                 && (forall i :: 0 <= i < |infos| && infos[i].server.Some? ==> infos[i].server.value == server)
    {
      assert Servers(infos) == {server};
    }
  }
}
