/** Asking, offering and answering agree: what "Always allow" achieves, and the managed maximum. */
module ConfirmationProperties {
  import opened Collections
  import opened Autonomy
  import opened ConfirmationOutcomes
  import opened Confirmation

  // ----- the batches of tools that autonomy decides on

  predicate IsFileEdit(tool: Tool) { tool.Create? || tool.Edit? || tool.ApplyPatch? }

  /** No denied command, plan, mission or automation that matches the deny list. */
  predicate Gated(uses: seq<ToolUse>) {
    forall i :: 0 <= i < |uses| ==>
      match uses[i].tool
      case Execute(_, denied, _, _) => !denied
      case CreateAutomation(denied) => !denied
      case EditAutomation(denied) => !denied
      case DeleteAutomation(denied) => !denied
      case ExitSpecMode(_) => false
      case ProposeMission => false
      case _ => true
  }

  predicate HasFileEdit(uses: seq<ToolUse>) {
    exists i :: 0 <= i < |uses| && IsFileEdit(uses[i].tool)
  }

  predicate OnlyFileEdits(infos: seq<Info>) {
    forall i :: 0 <= i < |infos| ==> !HasImpact(infos[i])
  }

  /** Some level at which a tool passes, for a tool that was flagged: the level it requires. */
  lemma {:induction false} AskedNeeds(r: Runtime, s: Session, t: Session, use: ToolUse)
    requires Gated([use]) && ShouldConfirm(r, s, use).Some? && t.mode == s.mode != MissionMode
    ensures var info := ShouldConfirm(r, s, use).value;
            && (HasImpact(info) <==> !IsFileEdit(use.tool))
            && (HasImpact(info) ==> LevelNumber(RequiredOf(info)) > LevelNumber(s.level))
            && (HasImpact(info) ==>
                  (ShouldConfirm(r, t, use).None? <==> LevelNumber(RequiredOf(info)) <= LevelNumber(t.level)))
            && (!HasImpact(info) ==> (ShouldConfirm(r, t, use).None? <==> t.mode == AutoMode && t.level != Off))
            && info.kind != ExitSpecKind && info.kind != SandboxKind
            && !(info.kind == ExecuteKind && info.denied)
  {
    assert [use][0] == use;
  }

  /** A tool that passes keeps passing at a higher level. */
  lemma {:induction false} PassingIsMonotone(r: Runtime, s: Session, t: Session, use: ToolUse)
    requires ShouldConfirm(r, s, use).None? && t.mode == s.mode && LevelNumber(s.level) <= LevelNumber(t.level)
    ensures ShouldConfirm(r, t, use).None?
  {}

  lemma {:induction false} FlaggedAre(r: Runtime, s: Session, uses: seq<ToolUse>)
    ensures forall i :: 0 <= i < |uses| && ShouldConfirm(r, s, uses[i]).Some? ==>
              ShouldConfirm(r, s, uses[i]).value in Flagged(r, s, uses)
    ensures forall info :: info in Flagged(r, s, uses) ==>
              exists i :: 0 <= i < |uses| && ShouldConfirm(r, s, uses[i]) == Some(info)
  {
    hide ShouldConfirm;
    if uses != [] {
      FlaggedAre(r, s, Front(uses));
      forall info | info in Flagged(r, s, uses)
        ensures exists i :: 0 <= i < |uses| && ShouldConfirm(r, s, uses[i]) == Some(info)
      {
        if info in Flagged(r, s, Front(uses)) {
          var i :| 0 <= i < |Front(uses)| && ShouldConfirm(r, s, Front(uses)[i]) == Some(info);
          assert uses[i] == Front(uses)[i];
        } else {
          assert uses[|uses| - 1] == Last(uses);
        }
      }
    }
  }

  /** Nothing of the batch would be asked about. */
  ghost predicate AllPass(r: Runtime, s: Session, uses: seq<ToolUse>) {
    forall i :: 0 <= i < |uses| ==> ShouldConfirm(r, s, uses[i]).None?
  }

  /** A denied command that is not blocked is asked about at every level, and never gets more than yes or no. */
  lemma {:induction false} DeniedCommandsAreAlwaysAsked(r: Runtime, s: Session, uses: seq<ToolUse>, i: nat,
                                                       max: Option<Level>, newSessionHandoff: bool)
    requires !r.skipAllConfirmations && i < |uses|
    requires uses[i].tool.Execute? && uses[i].tool.denied && !uses[i].tool.blocked
    ensures ShouldConfirm(r, s, uses[i]).Some?
    ensures var infos := Flagged(r, s, uses);
            HasExitSpec(infos) || Options(infos, max, newSessionHandoff) == [ProceedOnce, Cancel]
  {
    hide Flagged, SpecOptions, McpOptions, PlainOptions;
    FlaggedAre(r, s, uses);
    var info := ShouldConfirm(r, s, uses[i]).value;
    var infos := Flagged(r, s, uses);
    assert info in infos;
    var j :| 0 <= j < |infos| && infos[j] == info;
    assert HasDenied(infos);
  }

  // ----- "Always allow"

  lemma {:induction false} GatedOne(uses: seq<ToolUse>, i: nat)
    requires Gated(uses) && i < |uses|
    ensures Gated([uses[i]])
  {}

  /** What is known of a flagged batch, at any session t of the same mode. */
  lemma {:induction false} FlaggedNeeds(r: Runtime, s: Session, t: Session, uses: seq<ToolUse>, info: Info)
    returns (i: nat)
    requires Gated(uses) && s.mode == t.mode != MissionMode && info in Flagged(r, s, uses)
    ensures i < |uses| && ShouldConfirm(r, s, uses[i]) == Some(info)
    ensures HasImpact(info) <==> !IsFileEdit(uses[i].tool)
    ensures HasImpact(info) ==> LevelNumber(RequiredOf(info)) > LevelNumber(s.level)
    ensures HasImpact(info) ==>
              (ShouldConfirm(r, t, uses[i]).None? <==> LevelNumber(RequiredOf(info)) <= LevelNumber(t.level))
    ensures !HasImpact(info) ==> (ShouldConfirm(r, t, uses[i]).None? <==> t.mode == AutoMode && t.level != Off)
    ensures info.kind != SandboxKind
  {
    hide ShouldConfirm;
    FlaggedAre(r, s, uses);
    i :| 0 <= i < |uses| && ShouldConfirm(r, s, uses[i]) == Some(info);
    GatedOne(uses, i);
    AskedNeeds(r, s, t, uses[i]);
  }

  /** Mission mode asks about nothing that autonomy decides on. */
  lemma {:induction false} MissionAsksNothing(r: Runtime, s: Session, uses: seq<ToolUse>)
    requires Gated(uses) && s.mode == MissionMode
    ensures Flagged(r, s, uses) == []
  {
    if uses != [] {
      GatedOne(uses, |uses| - 1);
      assert Gated(Front(uses)) by {
        forall i | 0 <= i < |Front(uses)| ensures Front(uses)[i] == uses[i] {}
      }
      MissionAsksNothing(r, s, Front(uses));
    }
  }

  /** The level raised to what the batch requires, in the same mode. */
  function Raised(s: Session, infos: seq<Info>): Session { s.(level := Required(infos)) }

  lemma {:induction false} InfoIsAtMostRequired(infos: seq<Info>, info: Info)
    requires info in infos
    ensures LevelNumber(RequiredOf(info)) <= LevelNumber(Required(infos))
  {
    hide RequiredOf;
    RequiredIsTheHighest(infos, Required(infos));
    var i :| 0 <= i < |infos| && infos[i] == info;
    assert LevelNumber(RequiredOf(infos[i])) <= LevelNumber(Required(infos));
  }

  /**
   * Raising: the required level exceeds the old one, except in Spec mode when only file edits were flagged
   * and the level was not Off.
   */
  lemma {:induction false} AlwaysAllowRaises(r: Runtime, s: Session, uses: seq<ToolUse>)
    requires Gated(uses) && Flagged(r, s, uses) != []
    ensures var infos := Flagged(r, s, uses);
            LevelNumber(Required(infos)) > LevelNumber(s.level) <==>
            !(s.mode == SpecMode && OnlyFileEdits(infos) && s.level != Off)
  {
    hide ShouldConfirm, Required, Flagged;
    var infos := Flagged(r, s, uses);
    if s.mode == MissionMode {
      MissionAsksNothing(r, s, uses);
    } else {
      RequiredIsTheHighest(infos, Required(infos));
      if OnlyFileEdits(infos) {
        assert infos[0] in infos;
        var i := FlaggedNeeds(r, s, s, uses, infos[0]);
      } else {
        var j :| 0 <= j < |infos| && HasImpact(infos[j]);
        var i := FlaggedNeeds(r, s, s, uses, infos[j]);
        InfoIsAtMostRequired(infos, infos[j]);
      }
    }
  }

  lemma {:induction false} FileEditsAreAskedInSpecMode(r: Runtime, s: Session, use: ToolUse)
    requires s.mode == SpecMode && IsFileEdit(use.tool) && !r.skipAllConfirmations
    ensures ShouldConfirm(r, s, use).Some? && !HasImpact(ShouldConfirm(r, s, use).value)
  {}

  /**
   * Sufficient: at the required level every tool of the batch passes, except in Spec mode when the batch
   * has a file edit, which Spec mode asks about at every level.
   */
  lemma {:induction false} AlwaysAllowSuffices(r: Runtime, s: Session, uses: seq<ToolUse>)
    requires Gated(uses) && Flagged(r, s, uses) != []
    ensures AllPass(r, Raised(s, Flagged(r, s, uses)), uses) <==> !(s.mode == SpecMode && HasFileEdit(uses))
  {
    hide ShouldConfirm, Required, Flagged, Gated;
    var infos := Flagged(r, s, uses);
    var t := Raised(s, infos);
    assert !r.skipAllConfirmations by { NotSkipped(r, s, uses); }
    if s.mode == MissionMode {
      MissionAsksNothing(r, s, uses);
    } else if s.mode == SpecMode && HasFileEdit(uses) {
      var i :| 0 <= i < |uses| && IsFileEdit(uses[i].tool);
      FileEditsAreAskedInSpecMode(r, t, uses[i]);
    } else {
      AlwaysAllowRaises(r, s, uses);
      NoEditsFlagged(r, s, uses);
      forall i | 0 <= i < |uses| ensures ShouldConfirm(r, t, uses[i]).None? {
        PassesRaised(r, s, uses, i);
      }
    }
  }

  lemma {:induction false} NotSkipped(r: Runtime, s: Session, uses: seq<ToolUse>)
    requires Flagged(r, s, uses) != []
    ensures !r.skipAllConfirmations
  {
    FlaggedAre(r, s, uses);
    assert Flagged(r, s, uses)[0] in Flagged(r, s, uses);
  }

  /** In Spec mode without file edits, something with an impact was flagged. */
  lemma {:induction false} NoEditsFlagged(r: Runtime, s: Session, uses: seq<ToolUse>)
    requires Gated(uses) && Flagged(r, s, uses) != [] && !(s.mode == SpecMode && HasFileEdit(uses))
    ensures s.mode == SpecMode ==> !OnlyFileEdits(Flagged(r, s, uses))
  {
    hide ShouldConfirm, Flagged, Gated;
    if s.mode == SpecMode {
      var infos := Flagged(r, s, uses);
      assert infos[0] in infos;
      var i := FlaggedNeeds(r, s, s, uses, infos[0]);
      assert HasImpact(infos[0]);
    }
  }

  lemma {:induction false} PassesRaised(r: Runtime, s: Session, uses: seq<ToolUse>, i: nat)
    requires Gated(uses) && i < |uses| && s.mode != MissionMode && !(s.mode == SpecMode && HasFileEdit(uses))
    requires LevelNumber(Required(Flagged(r, s, uses))) > LevelNumber(s.level)
    ensures ShouldConfirm(r, Raised(s, Flagged(r, s, uses)), uses[i]).None?
  {
    hide ShouldConfirm, Required, Flagged, Gated;
    var infos := Flagged(r, s, uses);
    var t := Raised(s, infos);
    var asked := ShouldConfirm(r, s, uses[i]);
    if asked.None? {
      PassingIsMonotone(r, s, t, uses[i]);
    } else {
      FlaggedAre(r, s, uses);
      GatedOne(uses, i);
      AskedNeeds(r, s, t, uses[i]);
      InfoIsAtMostRequired(infos, asked.value);
      RequiredIsTheHighest(infos, Required(infos));
    }
  }

  /** Least: at every lower level of the same mode some tool of the batch is still asked about. */
  lemma {:induction false} AlwaysAllowIsLeast(r: Runtime, s: Session, uses: seq<ToolUse>, lower: Level)
    requires Gated(uses) && Flagged(r, s, uses) != []
    requires LevelNumber(lower) < LevelNumber(Required(Flagged(r, s, uses)))
    ensures !AllPass(r, s.(level := lower), uses)
  {
    hide ShouldConfirm, Required, Flagged, Gated;
    var infos := Flagged(r, s, uses);
    var t := s.(level := lower);
    if s.mode == MissionMode {
      MissionAsksNothing(r, s, uses);
    } else {
      RequiredIsTheHighest(infos, Required(infos));
      if Required(infos) == Low {
        assert infos[0] in infos;
        var i := FlaggedNeeds(r, s, t, uses, infos[0]);
        assert ShouldConfirm(r, t, uses[i]).Some?;
      } else {
        var j :| 0 <= j < |infos| && RequiredOf(infos[j]) == Required(infos);
        assert infos[j] in infos;
        var i := FlaggedNeeds(r, s, t, uses, infos[j]);
        assert ShouldConfirm(r, t, uses[i]).Some?;
      }
    }
  }

  /** What the answer does to the session is what these lemmas speak of, when the maximum allows the level. */
  lemma {:induction false} AlwaysAllowSetsTheRequiredLevel(r: Runtime, s: Session, uses: seq<ToolUse>, max: Option<Level>,
                                                          chosen: Option<seq<nat>>)
    requires Gated(uses) && Flagged(r, s, uses) != [] && IsAllowed(Required(Flagged(r, s, uses)), max)
    ensures var infos := Flagged(r, s, uses);
            After(s, ProceedAlways, infos, chosen, max) == Raised(s, infos)
  {
    hide ShouldConfirm, Required, Flagged, Gated;
    var infos := Flagged(r, s, uses);
    if s.mode == MissionMode {
      MissionAsksNothing(r, s, uses);
    } else {
      assert infos[0] in infos;
      var i := FlaggedNeeds(r, s, s, uses, infos[0]);
      assert !SandboxOnly(infos);
    }
  }

  /**
   * In Spec mode the answer can lower the level: one edit at level High leaves Low. The edits that get as far
   * as a prompt in Spec mode are those of specs.
   */
  lemma {:induction false} AlwaysAllowCanLower()
    ensures var s := Session(SpecMode, High);
            var r := Runtime(false, false);
            var uses := [ToolUse(1, Edit), ToolUse(2, Execute(false, false, false, HighRisk))];
            var infos := Flagged(r, s, uses);
            var t := After(s, ProceedAlways, infos, None, None);
            && ProceedAlways in Options(infos, None, true)
            && t.level == Low && !AllPass(r, t, uses)
            && ShouldConfirm(r, s, uses[1]).None? && ShouldConfirm(r, t, uses[1]).Some?
  {
    var s, r := Session(SpecMode, High), Runtime(false, false);
    var uses := [ToolUse(1, Edit), ToolUse(2, Execute(false, false, false, HighRisk))];
    assert Front(uses) == [uses[0]] && Front([uses[0]]) == [];
    var info := Info(1, EditKind, None, false, None);
    assert Flagged(r, s, [uses[0]]) == [info];
    assert Flagged(r, s, uses) == [info];
    assert Required([info]) == Low && [info][0].kind == EditKind;
    assert Options([info], None, true) == PlainOptions([info], None);
    assert PlainOptions([info], None)[1] == ProceedAlways;
    assert ShouldConfirm(r, Session(SpecMode, Low), uses[1]).Some?;
  }

  // ----- the managed maximum

  /** What an outcome would do without the cap. */
  function Uncapped(s: Session, outcome: Outcome, infos: seq<Info>, chosen: Option<seq<nat>>): Session {
    After(s, outcome, infos, chosen, None)
  }

  lemma {:induction false} ThreeTiers(a: Tier, b: Tier, c: Tier, max: Option<Level>, outcome: Outcome)
    ensures outcome in AllowedTiers([a, b, c], max) <==>
            exists tier :: tier in [a, b, c] && tier.outcome == outcome && IsAllowed(tier.level, max)
  {
    assert Front([a, b, c]) == [a, b] && Front([a, b]) == [a] && Front([a]) == [];
    var none, one, two := AllowedTiers([], max), AllowedTiers([a], max), AllowedTiers([a, b], max);
    assert none == [];
    assert one == if IsAllowed(a.level, max) then none + [a.outcome] else none;
    assert two == if IsAllowed(b.level, max) then one + [b.outcome] else one;
    assert AllowedTiers([a, b, c], max) == if IsAllowed(c.level, max) then two + [c.outcome] else two;
    assert a in [a, b, c] && b in [a, b, c] && c in [a, b, c];
  }

  /** The level that an option for a plan names, Off when it names none. */
  function NamedLevel(outcome: Outcome): Level {
    match outcome
    case ProceedAutoRunLow => Low
    case ProceedAutoRunMedium => Medium
    case ProceedAutoRunHigh => High
    case ProceedNewSessionLow => Low
    case ProceedNewSessionMedium => Medium
    case ProceedNewSessionHigh => High
    case _ => Off
  }

  predicate IsAutoRun(outcome: Outcome) {
    outcome in {ProceedAutoRunLow, ProceedAutoRunMedium, ProceedAutoRunHigh}
  }

  /** A plan's prompt offers exactly the options whose level the maximum allows. */
  lemma {:induction false} PlanOptions(max: Option<Level>, newSessionHandoff: bool, outcome: Outcome)
    ensures outcome in SpecOptions(max, newSessionHandoff) <==>
            || outcome == ProceedOnce || outcome == Cancel
            || (IsAutoRun(outcome) && IsAllowed(NamedLevel(outcome), max))
            || (newSessionHandoff && IsNewSession(outcome) && IsAllowed(NamedLevel(outcome), max))
  {
    hide AllowedTiers;
    ThreeTiers(Tier(Low, ProceedAutoRunLow), Tier(Medium, ProceedAutoRunMedium), Tier(High, ProceedAutoRunHigh),
               max, outcome);
    ThreeTiers(Tier(Low, ProceedNewSessionLow), Tier(Medium, ProceedNewSessionMedium),
               Tier(High, ProceedNewSessionHigh), max, outcome);
    var auto, handoff := outcome in AllowedTiers(AUTO_RUN_TIERS, max), outcome in AllowedTiers(NEW_SESSION_TIERS, max);
    assert auto <==> IsAutoRun(outcome) && IsAllowed(NamedLevel(outcome), max) by {
      assert Tier(Low, ProceedAutoRunLow) in AUTO_RUN_TIERS && Tier(Medium, ProceedAutoRunMedium) in AUTO_RUN_TIERS
             && Tier(High, ProceedAutoRunHigh) in AUTO_RUN_TIERS;
    }
    assert handoff <==> IsNewSession(outcome) && outcome != ProceedNewSession && IsAllowed(NamedLevel(outcome), max) by {
      assert Tier(Low, ProceedNewSessionLow) in NEW_SESSION_TIERS
             && Tier(Medium, ProceedNewSessionMedium) in NEW_SESSION_TIERS
             && Tier(High, ProceedNewSessionHigh) in NEW_SESSION_TIERS;
    }
  }

  /** An option that a prompt offers never needs the cap. */
  lemma {:induction false} OfferedNeedsNoCap(s: Session, infos: seq<Info>, outcome: Outcome, chosen: Option<seq<nat>>,
                                            max: Option<Level>, newSessionHandoff: bool)
    requires outcome in Options(infos, max, newSessionHandoff)
    ensures After(s, outcome, infos, chosen, max) == Uncapped(s, outcome, infos, chosen)
  {
    hide AllowedTiers, Required, SpecOptions;
    if HasExitSpec(infos) {
      PlanOptions(max, newSessionHandoff, outcome);
    }
  }

  /**
   * "Always allow" is offered exactly when nothing is a plan or denied, not all tools are MCP tools, and the
   * required level is within the maximum.
   */
  lemma {:induction false} AlwaysOfferedExactlyWhen(infos: seq<Info>, max: Option<Level>, newSessionHandoff: bool)
    ensures ProceedAlways in Options(infos, max, newSessionHandoff) <==>
            !HasExitSpec(infos) && !HasDenied(infos) && !AllMcp(infos) && IsAllowed(Required(infos), max)
  {
    hide SpecOptions, MaxImpact, Servers, HasExitSpec, HasDenied, AllMcp;
    PlanOptions(max, newSessionHandoff, ProceedAlways);
  }

  /** Every prompt begins with approving once and ends with the way out. */
  lemma {:induction false} EveryPromptHasAWayOut(infos: seq<Info>, max: Option<Level>, newSessionHandoff: bool)
    ensures var options := Options(infos, max, newSessionHandoff);
            |options| >= 2 && options[0] == ProceedOnce && Last(options) == Cancel
  {
    hide AllowedTiers, MaxImpact, Servers, Required;
  }

  /** A prompt and the user's answer to it. */
  datatype Answer = Answer(r: Runtime, uses: seq<ToolUse>, newSessionHandoff: bool, outcome: Outcome,
                           chosen: Option<seq<nat>>)

  function RunAnswers(s: Session, answers: seq<Answer>, max: Option<Level>, cap: Option<Level>): Session {
    if answers == [] then s
    else
      var before, a := RunAnswers(s, Front(answers), max, cap), Last(answers);
      After(before, a.outcome, Flagged(a.r, before, a.uses), a.chosen, cap)
  }

  /** Every answer is one of the options that its prompt offered under the maximum. */
  ghost predicate AnswersOffered(s: Session, answers: seq<Answer>, max: Option<Level>, cap: Option<Level>) {
    answers != [] ==>
      var before, a := RunAnswers(s, Front(answers), max, cap), Last(answers);
      && AnswersOffered(s, Front(answers), max, cap)
      && a.outcome in Options(Flagged(a.r, before, a.uses), max, a.newSessionHandoff)
  }

  lemma {:induction false} StaysWithin(s: Session, outcome: Outcome, infos: seq<Info>, chosen: Option<seq<nat>>,
                                      max: Option<Level>)
    requires IsAllowed(s.level, max)
    ensures IsAllowed(After(s, outcome, infos, chosen, max).level, max)
  {
    hide Required, SandboxOnly, HasExitSpec, ApprovesExitSpec;
  }

  /**
   * From a level within the maximum, answering any prompts with options they offered keeps the level within
   * it, even if no cap is applied anywhere.
   */
  lemma {:induction false} OptionsAloneKeepTheMaximum(s: Session, answers: seq<Answer>, max: Option<Level>)
    requires IsAllowed(s.level, max) && AnswersOffered(s, answers, max, None)
    ensures IsAllowed(RunAnswers(s, answers, max, None).level, max)
    ensures RunAnswers(s, answers, max, None) == RunAnswers(s, answers, max, max)
  {
    hide Options, After, Flagged, Uncapped;
    if answers != [] {
      OptionsAloneKeepTheMaximum(s, Front(answers), max);
      var before, a := RunAnswers(s, Front(answers), max, None), Last(answers);
      var infos := Flagged(a.r, before, a.uses);
      OfferedNeedsNoCap(before, infos, a.outcome, a.chosen, max, a.newSessionHandoff);
      StaysWithin(before, a.outcome, infos, a.chosen, max);
      assert Uncapped(before, a.outcome, infos, a.chosen) == After(before, a.outcome, infos, a.chosen, None) by {
        UncappedIs(before, a.outcome, infos, a.chosen);
      }
    }
  }

  lemma {:induction false} UncappedIs(s: Session, outcome: Outcome, infos: seq<Info>, chosen: Option<seq<nat>>)
    ensures Uncapped(s, outcome, infos, chosen) == After(s, outcome, infos, chosen, None)
  {}

  // ----- persistent permissions

  lemma {:induction false} MaxImpactIs(infos: seq<Info>, limit: nat)
    ensures MaxImpact(infos) <= limit <==> forall i :: 0 <= i < |infos| ==> PersistedImpact(infos[i]) <= limit
  {
    if infos != [] {
      MaxImpactIs(Front(infos), limit);
      assert forall i :: 0 <= i < |infos| ==> infos[i] == (if i < |infos| - 1 then Front(infos)[i] else Last(infos));
    }
  }

  /** A prompt offers to approve tools for good exactly when all are MCP tools with an impact within the maximum. */
  lemma {:induction false} PersistenceWithinMaximum(infos: seq<Info>, max: Option<Level>, newSessionHandoff: bool)
    ensures ProceedAlwaysTools in Options(infos, max, newSessionHandoff) <==>
            && AllMcp(infos)
            && forall i :: 0 <= i < |infos| && infos[i].impact.Some? ==>
                 max.None? || RiskNumber(infos[i].impact.value) <= LevelNumber(max.value)
  {
    hide AllowedTiers, Required, SpecOptions;
    if HasExitSpec(infos) {
      PlanOptions(max, newSessionHandoff, ProceedAlwaysTools);
    } else if max.Some? {
      MaxImpactIs(infos, LevelNumber(max.value));
      forall i | 0 <= i < |infos|
        ensures PersistedImpact(infos[i]) <= LevelNumber(max.value) <==>
                (infos[i].impact.Some? ==> RiskNumber(infos[i].impact.value) <= LevelNumber(max.value))
      {}
    }
  }

  /**
   * The two scales agree on MCP batches exactly when no impact is missing or one is high: persistence counts
   * a missing one as none, "Always allow" as high. A prompt never misses one.
   */
  lemma {:induction false} ScalesAgree(infos: seq<Info>)
    requires AllMcp(infos)
    ensures MaxImpact(infos) == LevelNumber(Required(infos)) <==>
            (forall i :: 0 <= i < |infos| ==> infos[i].impact.Some?)
            || exists i :: 0 <= i < |infos| && infos[i].impact == Some(HighRisk)
  {
    MaxImpactIs(infos, 0);
    MaxImpactIs(infos, 1);
    MaxImpactIs(infos, 2);
    MaxImpactIs(infos, 3);
    RequiredIsTheHighest(infos, Required(infos));
    forall i | 0 <= i < |infos|
      ensures infos[i].impact.Some? ==> PersistedImpact(infos[i]) == LevelNumber(RequiredOf(infos[i]))
      ensures infos[i].impact.None? ==> PersistedImpact(infos[i]) == 0 && RequiredOf(infos[i]) == High
    {}
  }

  lemma {:induction false} PromptsCarryImpacts(r: Runtime, s: Session, uses: seq<ToolUse>)
    ensures forall i :: 0 <= i < |Flagged(r, s, uses)| && HasImpact(Flagged(r, s, uses)[i]) ==>
              Flagged(r, s, uses)[i].impact.Some?
  {
    if uses != [] {
      PromptsCarryImpacts(r, s, Front(uses));
    }
  }

  /** On the prompts for MCP tools the scales agree. */
  lemma {:induction false} ScalesAgreeOnPrompts(r: Runtime, s: Session, uses: seq<ToolUse>)
    requires AllMcp(Flagged(r, s, uses))
    ensures MaxImpact(Flagged(r, s, uses)) == LevelNumber(Required(Flagged(r, s, uses)))
  {
    hide Flagged, MaxImpact, Required;
    PromptsCarryImpacts(r, s, uses);
    ScalesAgree(Flagged(r, s, uses));
  }

  // ----- leaving Spec mode

  /**
   * Every offered answer to a plan other than Cancel that approves it leaves Spec mode, at the level that an
   * auto-run option names and at Off otherwise; Cancel changes nothing and approves nothing.
   */
  lemma {:induction false} PlansLeaveSpecMode(s: Session, infos: seq<Info>, outcome: Outcome, chosen: Option<seq<nat>>,
                                             max: Option<Level>, newSessionHandoff: bool)
    requires HasExitSpec(infos) && outcome in Options(infos, max, newSessionHandoff)
    ensures outcome == Cancel ==>
              After(s, outcome, infos, chosen, max) == s && Approved(outcome, infos, chosen) == []
    ensures outcome != Cancel && ApprovesExitSpec(infos, Approved(outcome, infos, chosen)) ==>
              After(s, outcome, infos, chosen, max) ==
              Session(AutoMode, if IsAutoRun(outcome) then NamedLevel(outcome) else Off)
    ensures !ApprovesExitSpec(infos, Approved(outcome, infos, chosen)) ==> outcome in {ProceedOnce, Cancel}
  {
    hide AllowedTiers, Required, SpecOptions;
    OfferedNeedsNoCap(s, infos, outcome, chosen, max, newSessionHandoff);
    PlanOptions(max, newSessionHandoff, outcome);
    if outcome != ProceedOnce && outcome != Cancel {
      var i :| 0 <= i < |infos| && infos[i].kind == ExitSpecKind;
      assert Ids(infos)[i] == infos[i].toolUseId;
    }
  }
}
