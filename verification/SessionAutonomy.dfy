/** The session's autonomy settings, and what the answer to a prompt changes in them. */
module SessionAutonomy {
  import opened Collections
  import opened Autonomy
  import opened ConfirmationOutcomes
  import opened Confirmation

  class SessionService {
    const maxAutonomyLevel: Option<Level>
    var autonomyLevel: Option<Level>
    var interactionMode: Option<InteractionMode>
    var autonomyMode: Option<AutonomyMode>

    constructor (max: Option<Level>)
      ensures maxAutonomyLevel == max && Now() == Session(AutoMode, Off)
    {
      maxAutonomyLevel := max;
      autonomyLevel, interactionMode, autonomyMode := None, None, None;
    }

    function GetInteractionMode(): InteractionMode
      reads this
    {
      if interactionMode.Some? then interactionMode.value else AutoMode
    }

    /** Settings of an older version hold the combined mode only. */
    function GetAutonomyLevel(): Level
      reads this
    {
      if autonomyLevel.Some? then autonomyLevel.value
      else if autonomyMode.Some? then ParseAutonomyMode(autonomyMode.value).1
      else Off
    }

    function Now(): Session
      reads this
    {
      Session(GetInteractionMode(), GetAutonomyLevel())
    }

    /** The combined mode says what the two settings say. */
    predicate InStep()
      reads this
    {
      autonomyMode == Some(DeriveAutonomyMode(GetInteractionMode(), GetAutonomyLevel()))
    }

    method SetAutonomyMode(mode: AutonomyMode)
      modifies this
      ensures Now() == Confirmation.SetAutonomyMode(mode, maxAutonomyLevel) && InStep()
    {
      var (newInteractionMode, newAutonomyLevel) := ParseAutonomyMode(mode);
      var cappedLevel := Clamp(newAutonomyLevel, maxAutonomyLevel);
      autonomyLevel := Some(cappedLevel);
      autonomyMode := Some(DeriveAutonomyMode(newInteractionMode, cappedLevel));
      interactionMode := Some(newInteractionMode);
    }

    method SetAutonomyLevel(level: Level)
      modifies this
      ensures Now() == Confirmation.SetAutonomyLevel(old(Now()), level, maxAutonomyLevel) && InStep()
    {
      var cappedLevel := Clamp(level, maxAutonomyLevel);
      var currentMode := GetInteractionMode();
      autonomyLevel := Some(cappedLevel);
      interactionMode := Some(currentMode);
      autonomyMode := Some(DeriveAutonomyMode(currentMode, cappedLevel));
    }

    /** Sets the mode for each plan among the tools whose ids are approved. */
    method LeaveSpecMode(tools: seq<Info>, approved: seq<nat>, mode: AutonomyMode)
      modifies this
      ensures Now() == if ApprovesExitSpec(tools, approved) then Confirmation.SetAutonomyMode(mode, maxAutonomyLevel)
                       else old(Now())
    {
      for i := 0 to |tools|
        invariant Now() == if ApprovesExitSpec(tools[..i], approved)
                           then Confirmation.SetAutonomyMode(mode, maxAutonomyLevel) else old(Now())
      {
        OneMore(tools, approved, i);
        if tools[i].toolUseId in approved && tools[i].kind == ExitSpecKind {
          SetAutonomyMode(mode);
        }
      }
      assert tools[..|tools|] == tools;
    }

    lemma {:induction false} OneMore(tools: seq<Info>, approved: seq<nat>, i: nat)
      requires i < |tools|
      ensures ApprovesExitSpec(tools[..i + 1], approved) <==>
              ApprovesExitSpec(tools[..i], approved)
              || (tools[i].kind == ExitSpecKind && tools[i].toolUseId in approved)
    {
      var a, b := tools[..i], tools[..i + 1];
      assert b[i] == tools[i] && forall j :: 0 <= j < i ==> a[j] == b[j];
      if ApprovesExitSpec(b, approved) {
        var j :| 0 <= j < |b| && b[j].kind == ExitSpecKind && b[j].toolUseId in approved;
        assert j < i ==> a[j].kind == ExitSpecKind;
      }
    }

    lemma {:induction false} AllIdsApprove(tools: seq<Info>)
      ensures ApprovesExitSpec(tools, Ids(tools)) <==> HasExitSpec(tools)
    {
      forall i | 0 <= i < |tools| ensures tools[i].toolUseId in Ids(tools) {
        assert Ids(tools)[i] == tools[i].toolUseId;
      }
    }

    method ProcessConfirmationOutcome(outcome: Outcome, tools: seq<Info>, approvedToolIds: Option<seq<nat>>)
      returns (approved: seq<nat>)
      modifies this
      ensures approved == Approved(outcome, tools, approvedToolIds)
      ensures Now() == After(old(Now()), outcome, tools, approvedToolIds, maxAutonomyLevel)
    {
      AllIdsApprove(tools);
      if outcome == Cancel {
        return [];
      }
      if outcome == ProceedAlways || outcome == ProceedAlwaysForExactPath {
        if !SandboxOnly(tools) {
          var requiredAutonomyMode := GetRequiredAutonomyLevel(tools);
          SetAutonomyLevel(LevelForAutoApproval(requiredAutonomyMode));
        }
        return Ids(tools);
      }
      if outcome == ProceedAlwaysTools || outcome == ProceedAlwaysServer {
        return Ids(tools);
      }
      if outcome == ProceedEdit || IsNewSession(outcome) {
        LeaveSpecMode(tools, Ids(tools), Normal);
        return Ids(tools);
      }
      if outcome == ProceedAutoRunLow || outcome == ProceedAutoRunMedium || outcome == ProceedAutoRunHigh {
        LeaveSpecMode(tools, Ids(tools), AutoRunMode(outcome));
        return Ids(tools);
      }
      approved := if approvedToolIds.Some? then approvedToolIds.value else Ids(tools);
      LeaveSpecMode(tools, approved, Normal);
    }
  }
}
