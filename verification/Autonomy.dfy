/** Autonomy levels and modes, the managed maximum, and the level a batch of tools requires. */
module Autonomy {
  import opened Collections

  datatype Level = Off | Low | Medium | High

  datatype InteractionMode = AutoMode | SpecMode | MissionMode

  datatype AutonomyMode = Normal | Spec | AutoLow | AutoMedium | AutoHigh

  datatype Risk = LowRisk | MediumRisk | HighRisk

  function LevelNumber(level: Level): nat {
    match level
    case Off => 0
    case Low => 1
    case Medium => 2
    case High => 3
  }

  function RiskNumber(risk: Risk): nat {
    match risk
    case LowRisk => 1
    case MediumRisk => 2
    case HighRisk => 3
  }

  /** No maximum allows every level. */
  predicate IsAllowed(level: Level, max: Option<Level>) {
    max.None? || LevelNumber(level) <= LevelNumber(max.value)
  }

  function Clamp(level: Level, max: Option<Level>): Level {
    if IsAllowed(level, max) then level else max.value
  }

  function DeriveAutonomyMode(mode: InteractionMode, level: Level): AutonomyMode {
    if mode == SpecMode then Spec
    else
      match level
      case Off => Normal
      case Low => AutoLow
      case Medium => AutoMedium
      case High => AutoHigh
  }

  function ParseAutonomyMode(mode: AutonomyMode): (InteractionMode, Level) {
    match mode
    case Spec => (SpecMode, Off)
    case Normal => (AutoMode, Off)
    case AutoLow => (AutoMode, Low)
    case AutoMedium => (AutoMode, Medium)
    case AutoHigh => (AutoMode, High)
  }

  function LevelForAutoApproval(mode: AutonomyMode): Level {
    match mode
    case AutoMedium => Medium
    case AutoHigh => High
    case _ => Low
  }

  /**
   * The combined mode holds the two settings exactly in Auto mode and in Spec mode at Off; what it holds
   * comes back.
   */
  lemma {:induction false} CombinedModeHolds(mode: InteractionMode, level: Level, combined: AutonomyMode)
    ensures ParseAutonomyMode(DeriveAutonomyMode(mode, level)) == (mode, level) <==>
            mode == AutoMode || (mode == SpecMode && level == Off)
    ensures var (m, l) := ParseAutonomyMode(combined); DeriveAutonomyMode(m, l) == combined
  {}

  /** Capping gives an allowed level, changes no allowed one, and changes nothing the second time. */
  lemma {:induction false} ClampIsTheNearestAllowed(level: Level, max: Option<Level>, other: Level)
    ensures IsAllowed(Clamp(level, max), max)
    ensures LevelNumber(Clamp(level, max)) <= LevelNumber(level)
    ensures IsAllowed(other, max) && LevelNumber(other) <= LevelNumber(level) ==>
              LevelNumber(other) <= LevelNumber(Clamp(level, max))
  {}

  // ----- what a prompt knows of a tool

  datatype Kind = ExecuteKind | McpKind | CreateKind | EditKind | ApplyPatchKind | ExitSpecKind | ProposeMissionKind
    | SandboxKind

  /** A tool of a prompt. denied says that its command is on the deny list. */
  datatype Info = Info(toolUseId: nat, kind: Kind, impact: Option<Risk>, denied: bool, server: Option<nat>)

  predicate HasImpact(info: Info) { info.kind == ExecuteKind || info.kind == McpKind }

  /** A missing impact counts as high. */
  function RequiredOf(info: Info): Level {
    if !HasImpact(info) then Low
    else
      match info.impact
      case None => High
      case Some(HighRisk) => High
      case Some(MediumRisk) => Medium
      case Some(LowRisk) => Low
  }

  /** level is the highest that some tool requires, and at least Low. */
  ghost predicate IsRequired(level: Level, infos: seq<Info>) {
    && level != Off
    && (forall i :: 0 <= i < |infos| ==> LevelNumber(RequiredOf(infos[i])) <= LevelNumber(level))
    && (level == Low || exists i :: 0 <= i < |infos| && RequiredOf(infos[i]) == level)
  }

  function Required(infos: seq<Info>): Level {
    if exists i :: 0 <= i < |infos| && RequiredOf(infos[i]) == High then High
    else if exists i :: 0 <= i < |infos| && RequiredOf(infos[i]) == Medium then Medium
    else Low
  }

  lemma {:induction false} RequiredIsTheHighest(infos: seq<Info>, level: Level)
    ensures IsRequired(level, infos) <==> level == Required(infos)
  {
    if IsRequired(level, infos) && level == Low {
      forall i | 0 <= i < |infos| ensures RequiredOf(infos[i]) == Low {
        assert LevelNumber(RequiredOf(infos[i])) <= 1;
      }
    }
    forall i | 0 <= i < |infos|
      ensures LevelNumber(RequiredOf(infos[i])) <= LevelNumber(Required(infos))
    {
      assert RequiredOf(infos[i]) == High || RequiredOf(infos[i]) == Medium || RequiredOf(infos[i]) == Low;
    }
  }

  function ModeForRequired(level: Level): AutonomyMode {
    if level == High then AutoHigh else if level == Medium then AutoMedium else AutoLow
  }

  method GetRequiredAutonomyLevel(tools: seq<Info>) returns (mode: AutonomyMode)
    ensures mode == ModeForRequired(Required(tools)) && LevelForAutoApproval(mode) == Required(tools)
  {
    mode := AutoLow;
    for i := 0 to |tools|
      invariant forall j :: 0 <= j < i ==> RequiredOf(tools[j]) != High
      invariant mode == AutoLow || mode == AutoMedium
      invariant mode == AutoMedium <==> exists j :: 0 <= j < i && RequiredOf(tools[j]) == Medium
    {
      var tool := tools[i];
      if tool.kind == ExecuteKind || tool.kind == McpKind {
        if tool.impact == Some(HighRisk) || tool.impact.None? {
          assert RequiredOf(tools[i]) == High;
          return AutoHigh;
        }
        if tool.impact == Some(MediumRisk) {
          mode := AutoMedium;
        }
      }
    }
  }
}

/** Which tools need a confirmation, and which options a prompt offers for them. */
module Confirmation {
  import opened Collections
  import opened Autonomy
  import opened ConfirmationOutcomes

  datatype Session = Session(mode: InteractionMode, level: Level)

  /** Fixed while a run lasts. */
  datatype Runtime = Runtime(skipAllConfirmations: bool, nonInteractive: bool)

  /**
   * The calls of tools, with what the session's configuration says of them: whether a command is blocked,
   * denied or allowed, whether a summary matches the deny list, whether an MCP tool was approved for good.
   */
  datatype Tool =
    | Create
    | Edit
    | ApplyPatch
    | Execute(blocked: bool, denied: bool, allowed: bool, risk: Risk)
    | CreateAutomation(summaryDenied: bool)
    | EditAutomation(summaryDenied: bool)
    | DeleteAutomation(summaryDenied: bool)
    | Mcp(risk: Risk, server: nat, approvedForGood: bool)
    | ExitSpecMode(unresolved: bool)
    | ProposeMission
    | Passive

  datatype ToolUse = ToolUse(id: nat, tool: Tool)

  predicate ShouldAutoApproveFileEdits(s: Session) {
    s.mode == MissionMode || (s.mode == AutoMode && s.level != Off)
  }

  function Threshold(s: Session): Level {
    if s.mode == MissionMode then High else s.level
  }

  predicate Within(risk: Risk, s: Session) { RiskNumber(risk) <= LevelNumber(Threshold(s)) }

  function AskFileEdit(s: Session, id: nat, kind: Kind): Option<Info> {
    if ShouldAutoApproveFileEdits(s) then None else Some(Info(id, kind, None, false, None))
  }

  function AskAutomation(s: Session, id: nat, risk: Risk, denied: bool): Option<Info> {
    if Within(risk, s) then None else Some(Info(id, ExecuteKind, Some(risk), denied, None))
  }

  function AskCommand(s: Session, id: nat, tool: Tool): Option<Info>
    requires tool.Execute?
  {
    if tool.blocked then None
    else if !tool.denied && tool.allowed then None
    else if tool.denied then Some(Info(id, ExecuteKind, Some(HighRisk), true, None))
    else if Within(tool.risk, s) then None
    else Some(Info(id, ExecuteKind, Some(tool.risk), false, None))
  }

  function ShouldConfirm(r: Runtime, s: Session, use: ToolUse): Option<Info> {
    if r.skipAllConfirmations then None
    else
      match use.tool
      case Create => AskFileEdit(s, use.id, CreateKind)
      case Edit => AskFileEdit(s, use.id, EditKind)
      case ApplyPatch => AskFileEdit(s, use.id, ApplyPatchKind)
      case Execute(_, _, _, _) => AskCommand(s, use.id, use.tool)
      case CreateAutomation(denied) => AskAutomation(s, use.id, MediumRisk, denied)
      case EditAutomation(denied) => AskAutomation(s, use.id, MediumRisk, denied)
      case DeleteAutomation(denied) => AskAutomation(s, use.id, HighRisk, denied)
      case Mcp(risk, server, approvedForGood) =>
        if approvedForGood || Within(risk, s) then None
        else Some(Info(use.id, McpKind, Some(risk), false, Some(server)))
      case ExitSpecMode(unresolved) =>
        if r.nonInteractive || unresolved then None else Some(Info(use.id, ExitSpecKind, None, false, None))
      case ProposeMission =>
        if r.nonInteractive then None else Some(Info(use.id, ProposeMissionKind, None, false, None))
      case Passive => None
  }

  /** The tools of a batch that need a confirmation, in order. */
  function Flagged(r: Runtime, s: Session, uses: seq<ToolUse>): seq<Info> {
    if uses == [] then []
    else
      var asked := ShouldConfirm(r, s, Last(uses));
      if asked.Some? then Flagged(r, s, Front(uses)) + [asked.value] else Flagged(r, s, Front(uses))
  }

  // ----- options

  datatype Tier = Tier(level: Level, outcome: Outcome)

  const AUTO_RUN_TIERS: seq<Tier> :=
    [Tier(Low, ProceedAutoRunLow), Tier(Medium, ProceedAutoRunMedium), Tier(High, ProceedAutoRunHigh)]
  const NEW_SESSION_TIERS: seq<Tier> :=
    [Tier(Low, ProceedNewSessionLow), Tier(Medium, ProceedNewSessionMedium), Tier(High, ProceedNewSessionHigh)]

  function AllowedTiers(tiers: seq<Tier>, max: Option<Level>): seq<Outcome> {
    if tiers == [] then []
    else if IsAllowed(Last(tiers).level, max) then AllowedTiers(Front(tiers), max) + [Last(tiers).outcome]
    else AllowedTiers(Front(tiers), max)
  }

  method PushAutonomyTierOptions(options: seq<Outcome>, tiers: seq<Tier>, max: Option<Level>)
    returns (more: seq<Outcome>)
    ensures more == options + AllowedTiers(tiers, max)
  {
    more := options;
    for i := 0 to |tiers|
      invariant more == options + AllowedTiers(tiers[..i], max)
    {
      assert Front(tiers[..i + 1]) == tiers[..i];
      if IsAllowed(tiers[i].level, max) {
        more := more + [tiers[i].outcome];
      }
    }
    assert tiers[..|tiers|] == tiers;
  }

  function SpecOptions(max: Option<Level>, newSessionHandoff: bool): seq<Outcome> {
    [ProceedOnce] + AllowedTiers(AUTO_RUN_TIERS, max)
    + (if newSessionHandoff then [ProceedNewSession] + AllowedTiers(NEW_SESSION_TIERS, max) else [])
    + [Cancel]
  }

  /** The scale of the persistence ceiling, on which a missing impact is 0. */
  function PersistedImpact(info: Info): nat {
    match info.impact
    case None => 0
    case Some(risk) => RiskNumber(risk)
  }

  function MaxImpact(infos: seq<Info>): nat {
    if infos == [] then 0
    else
      var before, last := MaxImpact(Front(infos)), PersistedImpact(Last(infos));
      if before < last then last else before
  }

  function Servers(infos: seq<Info>): set<nat> {
    set i | 0 <= i < |infos| && infos[i].server.Some? :: infos[i].server.value
  }

  predicate AllMcp(infos: seq<Info>) {
    infos != [] && forall i :: 0 <= i < |infos| ==> infos[i].kind == McpKind
  }

  predicate WithinCeiling(impact: nat, max: Option<Level>) {
    max.None? || impact <= LevelNumber(max.value)
  }

  function McpOptions(infos: seq<Info>, max: Option<Level>): seq<Outcome> {
    [ProceedOnce]
    + (if WithinCeiling(MaxImpact(infos), max)
       then [ProceedAlwaysTools] + (if |Servers(infos)| == 1 then [ProceedAlwaysServer] else [])
       else [])
    + [Cancel]
  }

  function PlainOptions(infos: seq<Info>, max: Option<Level>): seq<Outcome> {
    [ProceedOnce] + (if max != Some(Off) && IsAllowed(Required(infos), max) then [ProceedAlways] else []) + [Cancel]
  }

  predicate HasExitSpec(infos: seq<Info>) {
    exists i :: 0 <= i < |infos| && infos[i].kind == ExitSpecKind
  }

  predicate HasDenied(infos: seq<Info>) {
    exists i :: 0 <= i < |infos| && infos[i].kind == ExecuteKind && infos[i].denied
  }

  function Options(infos: seq<Info>, max: Option<Level>, newSessionHandoff: bool): seq<Outcome> {
    if HasExitSpec(infos) then SpecOptions(max, newSessionHandoff)
    else if HasDenied(infos) then [ProceedOnce, Cancel]
    else if AllMcp(infos) then McpOptions(infos, max)
    else PlainOptions(infos, max)
  }

  function McpTools(infos: seq<Info>): seq<Info> {
    if infos == [] then []
    else if Last(infos).kind == McpKind then McpTools(Front(infos)) + [Last(infos)]
    else McpTools(Front(infos))
  }

  lemma {:induction false} AllAreMcp(infos: seq<Info>)
    ensures |McpTools(infos)| <= |infos|
    ensures |McpTools(infos)| == |infos| <==> forall i :: 0 <= i < |infos| ==> infos[i].kind == McpKind
  {
    if infos != [] {
      AllAreMcp(Front(infos));
      assert forall i :: 0 <= i < |infos| ==> infos[i] == if i < |infos| - 1 then Front(infos)[i] else Last(infos);
    }
  }

  lemma {:induction false} McpStep(front: seq<Info>, last: Info)
    requires last.kind == McpKind && McpTools(front) == front
    ensures McpTools(front + [last]) == front + [last]
  {
    assert Front(front + [last]) == front;
  }

  lemma {:induction false} AllMcpTools(infos: seq<Info>, n: nat)
    requires n <= |infos| && forall i :: 0 <= i < |infos| ==> infos[i].kind == McpKind
    ensures McpTools(infos[..n]) == infos[..n]
  {
    hide *;
    if n == 0 {
      NoMcpTools(infos[..0]);
    } else {
      AllMcpTools(infos, n - 1);
      McpStep(infos[..n - 1], infos[n - 1]);
      assert infos[..n] == infos[..n - 1] + [infos[n - 1]];
    }
  }

  lemma {:induction false} NoMcpTools(infos: seq<Info>)
    requires infos == []
    ensures McpTools(infos) == infos
  {}

  /** The options for any flags and count that a caller passes with the tools. */
  function BatchOptions(hasExitSpecMode: bool, toolCount: nat, tools: seq<Info>, hasDeniedCommands: bool,
                        max: Option<Level>, newSessionHandoff: bool): seq<Outcome>
  {
    if hasExitSpecMode then SpecOptions(max, newSessionHandoff)
    else if hasDeniedCommands then [ProceedOnce, Cancel]
    else if |McpTools(tools)| == toolCount && toolCount > 0 then McpOptions(McpTools(tools), max)
    else PlainOptions(tools, max)
  }

  lemma {:induction false} OptionsOfABatch(infos: seq<Info>, max: Option<Level>, newSessionHandoff: bool)
    ensures BatchOptions(HasExitSpec(infos), |infos|, infos, HasDenied(infos), max, newSessionHandoff)
            == Options(infos, max, newSessionHandoff)
  {
    hide McpOptions, PlainOptions, SpecOptions, HasExitSpec, HasDenied, McpTools;
    AllAreMcp(infos);
    if |McpTools(infos)| == |infos| {
      AllMcpTools(infos, |infos|);
      assert infos[..|infos|] == infos;
    }
  }

  method GetBatchConfirmationOptions(hasExitSpecMode: bool, toolCount: nat, tools: seq<Info>, hasDeniedCommands: bool,
                                     max: Option<Level>, newSessionHandoff: bool)
    returns (options: seq<Outcome>)
    ensures options == BatchOptions(hasExitSpecMode, toolCount, tools, hasDeniedCommands, max, newSessionHandoff)
  {
    hide McpOptions, Required, AllowedTiers, McpTools;
    if hasExitSpecMode {
      options := [ProceedOnce];
      options := PushAutonomyTierOptions(options, AUTO_RUN_TIERS, max);
      if newSessionHandoff {
        options := options + [ProceedNewSession];
        options := PushAutonomyTierOptions(options, NEW_SESSION_TIERS, max);
      }
      options := options + [Cancel];
      return;
    }
    var requiredAutonomyMode := GetRequiredAutonomyLevel(tools);
    var isAboveManagedMax := !IsAllowed(LevelForAutoApproval(requiredAutonomyMode), max);
    if hasDeniedCommands {
      return [ProceedOnce, Cancel];
    }
    var mcpTools := McpTools(tools);
    if |mcpTools| == toolCount && |mcpTools| > 0 {
      options := McpPrompt(mcpTools, max);
      return;
    }
    options := [ProceedOnce];
    if max != Some(Off) && !isAboveManagedMax {
      options := options + [ProceedAlways];
    }
    options := options + [Cancel];
  }

  method McpPrompt(tools: seq<Info>, max: Option<Level>) returns (options: seq<Outcome>)
    ensures options == McpOptions(tools, max)
  {
    var uniqueServers: set<nat> := {};
    var batchMaxImpactNumber := 0;
    for i := 0 to |tools|
      invariant uniqueServers == Servers(tools[..i]) && batchMaxImpactNumber == MaxImpact(tools[..i])
    {
      assert Front(tools[..i + 1]) == tools[..i];
      assert Servers(tools[..i + 1]) ==
             Servers(tools[..i]) + (if tools[i].server.Some? then {tools[i].server.value} else {}) by {
        assert forall j :: 0 <= j < i ==> tools[..i][j] == tools[..i + 1][j];
        assert tools[..i + 1][i] == tools[i];
      }
      if tools[i].server.Some? {
        uniqueServers := uniqueServers + {tools[i].server.value};
      }
      if batchMaxImpactNumber < PersistedImpact(tools[i]) {
        batchMaxImpactNumber := PersistedImpact(tools[i]);
      }
    }
    assert tools[..|tools|] == tools;
    options := [ProceedOnce];
    if WithinCeiling(batchMaxImpactNumber, max) {
      options := options + [ProceedAlwaysTools];
      if |uniqueServers| == 1 {
        options := options + [ProceedAlwaysServer];
      }
    }
    options := options + [Cancel];
  }

  method GetToolConfirmationInfo(r: Runtime, s: Session, toolUses: seq<ToolUse>, max: Option<Level>,
                                 newSessionHandoff: bool)
    returns (infos: seq<Info>, options: seq<Outcome>)
    ensures infos == Flagged(r, s, toolUses) && options == Options(infos, max, newSessionHandoff)
  {
    infos := [];
    for i := 0 to |toolUses|
      invariant infos == Flagged(r, s, toolUses[..i])
    {
      assert Front(toolUses[..i + 1]) == toolUses[..i];
      var asked := ShouldConfirm(r, s, toolUses[i]);
      if asked.Some? {
        infos := infos + [asked.value];
      }
    }
    assert toolUses[..|toolUses|] == toolUses;
    OptionsOfABatch(infos, max, newSessionHandoff);
    options := GetBatchConfirmationOptions(HasExitSpec(infos), |infos|, infos, HasDenied(infos), max,
                                           newSessionHandoff);
  }

  // ----- outcomes

  /** The managed maximum caps each change of the level. */
  function SetAutonomyLevel(s: Session, level: Level, max: Option<Level>): Session {
    s.(level := Clamp(level, max))
  }

  function SetAutonomyMode(mode: AutonomyMode, max: Option<Level>): Session {
    var (interaction, level) := ParseAutonomyMode(mode);
    Session(interaction, Clamp(level, max))
  }

  function Ids(infos: seq<Info>): seq<nat> {
    seq(|infos|, i requires 0 <= i < |infos| => infos[i].toolUseId)
  }

  function AutoRunMode(outcome: Outcome): AutonomyMode {
    if outcome == ProceedAutoRunLow then AutoLow
    else if outcome == ProceedAutoRunMedium then AutoMedium
    else AutoHigh
  }

  predicate IsNewSession(outcome: Outcome) {
    outcome in {ProceedNewSession, ProceedNewSessionLow, ProceedNewSessionMedium, ProceedNewSessionHigh}
  }

  predicate ApprovesExitSpec(infos: seq<Info>, approved: seq<nat>) {
    exists i :: 0 <= i < |infos| && infos[i].kind == ExitSpecKind && infos[i].toolUseId in approved
  }

  predicate SandboxOnly(infos: seq<Info>) {
    forall i :: 0 <= i < |infos| ==> infos[i].kind == SandboxKind
  }

  /** The tools that are approved. */
  function Approved(outcome: Outcome, infos: seq<Info>, chosen: Option<seq<nat>>): seq<nat> {
    if outcome == Cancel then []
    else if outcome in {ProceedOnce, ProceedAutoRun} && chosen.Some? then chosen.value
    else Ids(infos)
  }

  /** The session after an outcome. */
  function After(s: Session, outcome: Outcome, infos: seq<Info>, chosen: Option<seq<nat>>, max: Option<Level>): Session
  {
    match outcome
    case Cancel => s
    case ProceedAlways => if SandboxOnly(infos) then s else SetAutonomyLevel(s, Required(infos), max)
    case ProceedAlwaysForExactPath => if SandboxOnly(infos) then s else SetAutonomyLevel(s, Required(infos), max)
    case ProceedAlwaysTools => s
    case ProceedAlwaysServer => s
    case ProceedAutoRunLow => if HasExitSpec(infos) then SetAutonomyMode(AutoLow, max) else s
    case ProceedAutoRunMedium => if HasExitSpec(infos) then SetAutonomyMode(AutoMedium, max) else s
    case ProceedAutoRunHigh => if HasExitSpec(infos) then SetAutonomyMode(AutoHigh, max) else s
    case ProceedOnce =>
      if ApprovesExitSpec(infos, Approved(outcome, infos, chosen)) then SetAutonomyMode(Normal, max) else s
    case ProceedAutoRun =>
      if ApprovesExitSpec(infos, Approved(outcome, infos, chosen)) then SetAutonomyMode(Normal, max) else s
    case _ => if HasExitSpec(infos) then SetAutonomyMode(Normal, max) else s
  }
}
