/** The actionable-error engine: the write-once run context, the per-phase
    registry of known problems, classification, re-classification outside a
    phase, and the rendering of suggestions. */
module Errors {
  import opened Wrappers
  import opened Proto
  import opened Runcontext
  import opened Problems

  /** A pipeline phase. Any string is a phase; seven of them are named. */
  type Phase = string

  const Init: Phase := "Init"
  const Build: Phase := "Build"
  const Deploy: Phase := "Deploy"
  const StatusCheck: Phase := "StatusCheck"
  const FileSync: Phase := "FileSync"
  const DevInit: Phase := "DevInit"
  const Cleanup: Phase := "Cleanup"

  /** The phases the registry has an entry for. */
  const RegisteredPhases: set<Phase> := {Init, Build, Deploy, StatusCheck, FileSync, DevInit, Cleanup}

  const ReportIssueText :=
    "If above error is unexpected, please open an issue https://github.com/GoogleContainerTools/skaffold/issues/new to report this error"

  /** The suggestion every catch-all carries, whatever the run context. */
  function ReportIssueSuggestion(rc: RunContext): Suggestions {
    Slice([Suggestion(OpenIssue, ReportIssueText)])
  }

  // ---------------------------------------------------------------------------
  // Write-once run context

  /** The process-wide run-context holder: empty until the first set. */
  datatype RunContextHolder = RunContextHolder(stored: Option<RunContext>) {

    /** What a reader sees: the stored context, or the zero value before any set. */
    function Current(): RunContext {
      stored.GetOr(Zero)
    }
  }

  const Unset := RunContextHolder(None)

  /** Stores `rc` unless a context is already stored. */
  function SetRunContext(h: RunContextHolder, rc: RunContext): (h': RunContextHolder)
    ensures h.stored.Some? ==> h' == h
    ensures h.stored.None? ==> h'.Current() == rc && h'.stored.Some?
  {
    if h.stored.None? then RunContextHolder(Some(rc)) else h
  }

  /** The holder after the calls `SetRunContext(rcs[0])`, `SetRunContext(rcs[1])`, ... in order. */
  function SetRunContexts(h: RunContextHolder, rcs: seq<RunContext>): RunContextHolder
    decreases |rcs|
  {
    if |rcs| == 0 then h else SetRunContexts(SetRunContext(h, rcs[0]), rcs[1..])
  }

  /** Once a context is stored, no later set changes the holder. */
  lemma {:induction false} StoredContextIsFinal(h: RunContextHolder, rcs: seq<RunContext>)
    requires h.stored.Some?
    ensures SetRunContexts(h, rcs) == h
    decreases |rcs|
  {
    if |rcs| > 0 {
      StoredContextIsFinal(SetRunContext(h, rcs[0]), rcs[1..]);
    }
  }

  /** Write-once: starting from an empty holder, every reader after any
      sequence of sets sees the first context set, or the zero value if none was. */
  lemma FirstSetWins(rcs: seq<RunContext>)
    ensures SetRunContexts(Unset, rcs).Current() == if |rcs| == 0 then Zero else rcs[0]
  {
    if |rcs| > 0 {
      StoredContextIsFinal(SetRunContext(Unset, rcs[0]), rcs[1..]);
    }
  }

  // ---------------------------------------------------------------------------
  // The registry

  /** The known-problem tables the registry is built from; their contents
      live outside this model. */
  datatype KnownProblems = KnownProblems(
    build: seq<Problem>,
    deploy: seq<Problem>,
    init: seq<Problem>,
    oldImageManifest: Problem)

  /** The `.*` descriptor that ends a phase's list, with that phase's unknown code. */
  function CatchAll(code: StatusCode): Problem {
    Problem(_ => true, code, ReportIssueSuggestion, msg => msg)
  }

  /** A descriptor that matches every message and carries `code` and the
      report-issue suggestion. */
  ghost predicate IsCatchAll(p: Problem, code: StatusCode) {
    && p.errCode == code
    && (forall msg :: p.matches(msg))
    && (forall rc :: p.suggestion(rc) == ReportIssueSuggestion(rc))
  }

  /** The per-phase registry, `allErrors`. */
  function AllErrors(k: KnownProblems): map<Phase, seq<Problem>> {
    map[
      Build := k.build + [CatchAll(BuildUnknown)],
      Init := k.init + [CatchAll(InitUnknown)],
      Deploy := k.deploy + [CatchAll(DeployUnknown)],
      StatusCheck := [CatchAll(StatusCheckUnknown)],
      FileSync := [CatchAll(SyncUnknown)],
      DevInit := [k.oldImageManifest, CatchAll(DevInitUnknown)],
      Cleanup := [CatchAll(CleanupUnknown)]
    ]
  }

  /** The unknown code of each registered phase. */
  function UnknownCode(phase: Phase): StatusCode {
    if phase == Build then BuildUnknown
    else if phase == Init then InitUnknown
    else if phase == Deploy then DeployUnknown
    else if phase == StatusCheck then StatusCheckUnknown
    else if phase == FileSync then SyncUnknown
    else if phase == DevInit then DevInitUnknown
    else if phase == Cleanup then CleanupUnknown
    else UnknownError
  }

  /** The specific descriptors a registered phase lists before its catch-all. */
  function KnownFor(phase: Phase, k: KnownProblems): seq<Problem> {
    if phase == Build then k.build
    else if phase == Init then k.init
    else if phase == Deploy then k.deploy
    else if phase == DevInit then [k.oldImageManifest]
    else []
  }

  /** The registry has an entry for exactly the seven phases, and each entry is
      that phase's specific descriptors followed by a catch-all carrying the
      phase's own unknown code, never the generic one. */
  lemma RegistryShape(k: KnownProblems, phase: Phase)
    ensures AllErrors(k).Keys == RegisteredPhases
    ensures phase in RegisteredPhases ==>
      && UnknownCode(phase) != UnknownError
      && var ps := AllErrors(k)[phase];
      && |ps| > 0
      && ps[..|ps| - 1] == KnownFor(phase, k)
      && IsCatchAll(ps[|ps| - 1], UnknownCode(phase))
  {
  }

  // ---------------------------------------------------------------------------
  // Classification

  /** A status code with its suggestions. */
  datatype Classification = Classification(code: StatusCode, suggestions: Suggestions)

  /** What a matched descriptor yields in a run context. */
  function Yield(p: Problem, rc: RunContext): Classification {
    Classification(p.errCode, p.suggestion(rc))
  }

  /** `getErrorCodeFromError`: the status code and suggestions for an error
      surfaced in `phase`, with `rc` the run context the holder currently shows. */
  function GetErrorCodeFromError(phase: Phase, err: Err, rc: RunContext, k: KnownProblems): (r: Classification)
    ensures err.SkaffoldErr? ==> r == Classification(err.code, err.suggestions)
    ensures err.ProblemErr? ==> r == Yield(err.problem, rc)
    ensures err.Raw? && phase !in RegisteredPhases ==> r == Classification(UnknownError, Nil)
    ensures err.Raw? && phase in RegisteredPhases ==>
      forall i :: IsFirstMatch(AllErrors(k)[phase], err.text, i) ==> r == Yield(AllErrors(k)[phase][i], rc)
  {
    RegistryShape(k, phase);
    match err
    case SkaffoldErr(code, suggestions, _) => Classification(code, suggestions)
    case ProblemErr(p, _) => Yield(p, rc)
    case Raw(msg) =>
      if phase in AllErrors(k) then
        var problems := AllErrors(k)[phase];
        match FirstMatch(problems, msg)
        case Some(i) => Yield(problems[i], rc)
        case None => Classification(UnknownError, Nil)
      else
        Classification(UnknownError, Nil)
  }

  /** Totality and ordering in a registered phase: a raw error gets the first
      matching specific descriptor of the phase, and only when none matches
      the phase's catch-all with the report-issue suggestion. */
  lemma RegisteredPhaseClassification(phase: Phase, msg: string, rc: RunContext, k: KnownProblems)
    requires phase in RegisteredPhases
    ensures var r := GetErrorCodeFromError(phase, Raw(msg), rc, k);
      var known := KnownFor(phase, k);
      && (forall i :: IsFirstMatch(known, msg, i) ==> r == Yield(known[i], rc))
      && (NoMatch(known, msg) ==> r == Classification(UnknownCode(phase), ReportIssueSuggestion(rc)))
  {
    RegistryShape(k, phase);
    var ps := AllErrors(k)[phase];
    var known := KnownFor(phase, k);
    var last := ps[|ps| - 1];
    assert ps == known + [last];
    FirstMatchOfConcat(known, [last], msg);
    forall i | IsFirstMatch(known, msg, i)
      ensures GetErrorCodeFromError(phase, Raw(msg), rc, k) == Yield(known[i], rc)
    {
      assert IsFirstMatch(ps, msg, i);
      assert ps[i] == known[i];
    }
    if NoMatch(known, msg) {
      assert last.matches(msg);
      assert IsFirstMatch([last], msg, 0);
      assert IsFirstMatch(ps, msg, |known|);
    }
  }

  /** A raw error in a registered phase never gets the generic UNKNOWN_ERROR,
      provided no specific descriptor of the phase carries that code. */
  lemma RegisteredPhaseNeverUnknownError(phase: Phase, msg: string, rc: RunContext, k: KnownProblems)
    requires phase in RegisteredPhases
    requires forall j :: 0 <= j < |KnownFor(phase, k)| ==> KnownFor(phase, k)[j].errCode != UnknownError
    ensures GetErrorCodeFromError(phase, Raw(msg), rc, k).code != UnknownError
  {
    RegistryShape(k, phase);
    RegisteredPhaseClassification(phase, msg, rc, k);
    var known := KnownFor(phase, k);
    match FirstMatch(known, msg)
    case Some(i) =>
    case None =>
  }

  /** An already classified error keeps its classification in every phase. */
  lemma ClassifiedIgnoresPhase(p1: Phase, p2: Phase, err: Err, rc: RunContext, k: KnownProblems)
    requires Classified(err)
    ensures GetErrorCodeFromError(p1, err, rc, k) == GetErrorCodeFromError(p2, err, rc, k)
  {
  }

  /** `ActionableErr`: the message of the error with the code and suggestions
      classification gives it. */
  function ActionableErr(phase: Phase, err: Err, rc: RunContext, k: KnownProblems): (r: Proto.ActionableErr)
    ensures r.message == Message(err)
    ensures Classification(r.errCode, r.suggestions) == GetErrorCodeFromError(phase, err, rc, k)
  {
    var c := GetErrorCodeFromError(phase, err, rc, k);
    Proto.ActionableErr(c.code, Message(err), c.suggestions)
  }

  // ---------------------------------------------------------------------------
  // Re-classification without a phase

  /** The result of `ShowAIError`: the error returned, and the status codes
      reported to telemetry, in order. */
  datatype Shown = Shown(err: Err, recorded: seq<StatusCode>)

  /** The known problems `ShowAIError` scans: build, then deploy, then init,
      without catch-alls. */
  function KnownProblemsInOrder(k: KnownProblems): seq<Problem> {
    k.build + k.deploy + k.init
  }

  /** `ShowAIError`: reports an already classified error's code and returns
      it as it is; otherwise binds the raw error to the first known problem
      that matches it, reporting that problem's code, or returns the error
      unchanged with nothing reported. */
  function ShowAIError(err: Err, k: KnownProblems): (r: Shown)
    ensures err.SkaffoldErr? ==> r.err == err && r.recorded == [err.code]
    ensures err.ProblemErr? ==> r.err == err && r.recorded == [err.problem.errCode]
    ensures err.Raw? ==> forall i :: IsFirstMatch(KnownProblemsInOrder(k), err.text, i) ==>
      && r.err == ProblemErr(KnownProblemsInOrder(k)[i], err.text)
      && r.recorded == [KnownProblemsInOrder(k)[i].errCode]
    ensures |r.recorded| <= 1
    ensures r.recorded == [] <==> err.Raw? && NoMatch(KnownProblemsInOrder(k), err.text)
    ensures r.recorded == [] ==> r.err == err
  {
    match err
    case SkaffoldErr(code, _, _) => Shown(err, [code])
    case ProblemErr(p, _) => Shown(err, [p.errCode])
    case Raw(msg) =>
      var known := KnownProblemsInOrder(k);
      match FirstMatch(known, msg)
      case Some(i) => Shown(ProblemErr(known[i], msg), [known[i].errCode])
      case None => Shown(err, [])
  }

  /** The scan order is build, then deploy, then init: a known problem of a
      later table is chosen only when no earlier table matches. */
  lemma ShowAIErrorScanOrder(msg: string, k: KnownProblems)
    ensures forall i :: IsFirstMatch(k.build, msg, i) ==>
      ShowAIError(Raw(msg), k).recorded == [k.build[i].errCode]
    ensures NoMatch(k.build, msg) ==> forall i :: IsFirstMatch(k.deploy, msg, i) ==>
      ShowAIError(Raw(msg), k).recorded == [k.deploy[i].errCode]
    ensures NoMatch(k.build, msg) && NoMatch(k.deploy, msg) ==> forall i :: IsFirstMatch(k.init, msg, i) ==>
      ShowAIError(Raw(msg), k).recorded == [k.init[i].errCode]
  {
    var bd := k.build + k.deploy;
    assert KnownProblemsInOrder(k) == bd + k.init;
    FirstMatchOfConcat(k.build, k.deploy, msg);
    FirstMatchOfConcat(bd, k.init, msg);
    forall i | IsFirstMatch(k.build, msg, i)
      ensures ShowAIError(Raw(msg), k).recorded == [k.build[i].errCode]
    {
      assert bd[i] == k.build[i];
      assert (bd + k.init)[i] == bd[i];
    }
    if NoMatch(k.build, msg) {
      forall i | IsFirstMatch(k.deploy, msg, i)
        ensures ShowAIError(Raw(msg), k).recorded == [k.deploy[i].errCode]
      {
        var j := |k.build| + i;
        assert bd[j] == k.deploy[i];
        assert (bd + k.init)[j] == bd[j];
      }
      if NoMatch(k.deploy, msg) {
        forall i | IsFirstMatch(k.init, msg, i)
          ensures ShowAIError(Raw(msg), k).recorded == [k.init[i].errCode]
        {
          assert (bd + k.init)[|bd| + i] == k.init[i];
        }
      }
    }
  }

  /** Re-running `ShowAIError` on its own result returns the same error and
      reports the same codes: a classified result is never re-classified. */
  lemma ShowAIErrorIdempotent(err: Err, k: KnownProblems)
    ensures ShowAIError(ShowAIError(err, k).err, k).err == ShowAIError(err, k).err
    ensures ShowAIError(ShowAIError(err, k).err, k).recorded == ShowAIError(err, k).recorded
  {
  }

  /** In any phase, classifying what `ShowAIError` returned yields the very
      code it reported. */
  lemma ShowAIErrorAgreesWithClassification(err: Err, k: KnownProblems, phase: Phase, rc: RunContext)
    requires ShowAIError(err, k).recorded != []
    ensures GetErrorCodeFromError(phase, ShowAIError(err, k).err, rc, k).code == ShowAIError(err, k).recorded[0]
  {
  }

  /** A raw error some known build problem matches gets the same code from
      `ShowAIError` as from classification in the build phase. */
  lemma ShowAIErrorAgreesWithBuildPhase(msg: string, k: KnownProblems, rc: RunContext)
    requires !NoMatch(k.build, msg)
    ensures ShowAIError(Raw(msg), k).recorded == [GetErrorCodeFromError(Build, Raw(msg), rc, k).code]
  {
    var i := FirstMatch(k.build, msg).value;
    ShowAIErrorScanOrder(msg, k);
    RegisteredPhaseClassification(Build, msg, rc, k);
    assert KnownFor(Build, k) == k.build;
  }

  // ---------------------------------------------------------------------------
  // Rendering suggestions

  /** One step of `concatSuggestions`'s loop: " or " is written before the
      action only once something has been written. */
  function AppendAction(built: string, action: string): string {
    if built != "" then built + " or " + action else built + action
  }

  /** The loop over the remaining suggestions, from the text built so far. */
  function AppendActions(built: string, ss: seq<Suggestion>): string
    decreases |ss|
  {
    if |ss| == 0 then built else AppendActions(AppendAction(built, ss[0].action), ss[1..])
  }

  /** Every action is empty (vacuously so for no suggestions). */
  predicate AllActionsEmpty(ss: seq<Suggestion>) {
    forall j | 0 <= j < |ss| :: ss[j].action == ""
  }

  /** `k` is the index of the first suggestion whose action is not empty. */
  ghost predicate IsFirstNonEmpty(ss: seq<Suggestion>, k: int) {
    0 <= k < |ss| && ss[k].action != "" && AllActionsEmpty(ss[..k])
  }

  /** " or " before each action, in order: the reference rendering of the
      suggestions after the first shown one. */
  function OrEach(ss: seq<Suggestion>): string
    decreases |ss|
  {
    if |ss| == 0 then "" else " or " + ss[0].action + OrEach(ss[1..])
  }

  /** From non-empty text, the loop appends " or " and the action for every
      suggestion, empty actions included. */
  lemma {:induction false} AppendAfterText(built: string, ss: seq<Suggestion>)
    requires built != ""
    ensures AppendActions(built, ss) == built + OrEach(ss)
    decreases |ss|
  {
    if |ss| > 0 {
      var next := built + " or " + ss[0].action;
      AppendAfterText(next, ss[1..]);
      assert built + OrEach(ss) == next + OrEach(ss[1..]);
    }
  }

  /** From empty text, the loop writes nothing for empty actions. */
  lemma {:induction false} EmptyActionsWriteNothing(ss: seq<Suggestion>)
    requires AllActionsEmpty(ss)
    ensures AppendActions("", ss) == ""
    decreases |ss|
  {
    if |ss| > 0 {
      assert AppendAction("", ss[0].action) == "";
      assert AllActionsEmpty(ss[1..]) by {
        forall j | 0 <= j < |ss[1..]| ensures ss[1..][j].action == "" {
          assert ss[1..][j] == ss[j + 1];
        }
      }
      EmptyActionsWriteNothing(ss[1..]);
    }
  }

  /** From empty text, a prefix of empty actions leaves the text empty. */
  lemma {:induction false} SkipEmptyActions(ss: seq<Suggestion>, k: nat)
    requires k <= |ss| && AllActionsEmpty(ss[..k])
    ensures AppendActions("", ss) == AppendActions("", ss[k..])
    decreases k
  {
    if k > 0 {
      assert ss[..k][0] == ss[0];
      assert AppendAction("", ss[0].action) == "";
      var rest := ss[1..];
      var pre := rest[..k - 1];
      assert AllActionsEmpty(pre) by {
        forall j | 0 <= j < |pre| ensures pre[j].action == "" {
          assert pre[j] == ss[..k][j + 1];
        }
      }
      SkipEmptyActions(rest, k - 1);
      assert rest[k - 1..] == ss[k..];
    }
  }

  /** From empty text, the loop renders the first non-empty action followed by
      " or " and each later action. */
  lemma RenderFromFirstShown(ss: seq<Suggestion>, k: nat)
    requires IsFirstNonEmpty(ss, k)
    ensures AppendActions("", ss) == ss[k].action + OrEach(ss[k + 1..])
  {
    SkipEmptyActions(ss, k);
    var t := ss[k..];
    assert t[0] == ss[k] && t[1..] == ss[k + 1..];
    assert AppendAction("", ss[k].action) == ss[k].action;
    assert AppendActions("", t) == AppendActions(ss[k].action, ss[k + 1..]);
    AppendAfterText(ss[k].action, ss[k + 1..]);
  }

  /** What the loop of `concatSuggestions` builds from empty text: nothing
      exactly when every action is empty, and otherwise the rendering from the
      first non-empty action on. */
  lemma RenderedActions(ss: seq<Suggestion>)
    ensures AppendActions("", ss) == "" <==> AllActionsEmpty(ss)
    ensures forall k :: IsFirstNonEmpty(ss, k) ==> AppendActions("", ss) == ss[k].action + OrEach(ss[k + 1..])
  {
    if AllActionsEmpty(ss) {
      EmptyActionsWriteNothing(ss);
    } else {
      FirstNonEmptyExists(ss);
    }
    forall k | IsFirstNonEmpty(ss, k)
      ensures AppendActions("", ss) == ss[k].action + OrEach(ss[k + 1..])
    {
      RenderFromFirstShown(ss, k);
    }
  }

  /** `concatSuggestions`: the actions joined by " or " and closed by ".",
      with leading empty actions skipped, or "" when there is nothing to show. */
  function ConcatSuggestions(ss: seq<Suggestion>): (r: string)
    ensures r == "" <==> AllActionsEmpty(ss)
    ensures forall k :: IsFirstNonEmpty(ss, k) ==> r == ss[k].action + OrEach(ss[k + 1..]) + "."
  {
    RenderedActions(ss);
    var built := AppendActions("", ss);
    if built == "" then "" else built + "."
  }

  /** Some action is non-empty exactly when there is a first non-empty one. */
  lemma FirstNonEmptyExists(ss: seq<Suggestion>)
    requires !AllActionsEmpty(ss)
    ensures exists k :: IsFirstNonEmpty(ss, k)
  {
    var k :| 0 <= k < |ss| && ss[k].action != "";
    while k > 0 && !AllActionsEmpty(ss[..k])
      invariant 0 <= k < |ss| && ss[k].action != ""
      decreases k
    {
      var j :| 0 <= j < k && ss[..k][j].action != "";
      assert ss[..k][j] == ss[j];
      k := j;
    }
    assert IsFirstNonEmpty(ss, k);
  }

  /** Rendered suggestions end in "." whenever they are not empty. */
  lemma ConcatEndsWithPeriod(ss: seq<Suggestion>)
    requires !AllActionsEmpty(ss)
    ensures var r := ConcatSuggestions(ss); |r| > 0 && r[|r| - 1] == '.'
  {
  }

  /** Two actions "a" and "b" render as "a or b.". */
  lemma ConcatTwoActions(c1: SuggestionCode, c2: SuggestionCode)
    ensures ConcatSuggestions([Suggestion(c1, "a"), Suggestion(c2, "b")]) == "a or b."
  {
    var ss := [Suggestion(c1, "a"), Suggestion(c2, "b")];
    assert IsFirstNonEmpty(ss, 0);
    assert ss[1..] == [Suggestion(c2, "b")];
    assert OrEach([Suggestion(c2, "b")]) == " or b";
  }

  /** With the first action empty, the separator is suppressed: only "b." remains. */
  lemma ConcatSkipsLeadingEmpty(c1: SuggestionCode, c2: SuggestionCode)
    ensures ConcatSuggestions([Suggestion(c1, ""), Suggestion(c2, "b")]) == "b."
  {
    var ss := [Suggestion(c1, ""), Suggestion(c2, "b")];
    assert ss[..1] == [Suggestion(c1, "")];
    assert IsFirstNonEmpty(ss, 1);
    assert ss[2..] == [];
  }

  /** An empty action after a shown one still gets its separator: "a or .". */
  lemma ConcatKeepsTrailingEmpty(c1: SuggestionCode, c2: SuggestionCode)
    ensures ConcatSuggestions([Suggestion(c1, "a"), Suggestion(c2, "")]) == "a or ."
  {
    var ss := [Suggestion(c1, "a"), Suggestion(c2, "")];
    assert IsFirstNonEmpty(ss, 0);
    assert ss[1..] == [Suggestion(c2, "")];
    assert OrEach([Suggestion(c2, "")]) == " or ";
  }

  // ---------------------------------------------------------------------------
  // The old image manifest check

  /** `IsOldImageManifestProblem`: for an error (`None` is nil) whose message
      the old-image-manifest problem matches, its description followed by the
      rendered suggestions; an empty text when the problem offers no
      suggestions (nil); and no match otherwise. */
  function IsOldImageManifestProblem(err: Option<Err>, rc: RunContext, k: KnownProblems): (r: (string, bool))
    ensures r.1 <==> err.Some? && k.oldImageManifest.matches(Message(err.value))
    ensures !r.1 ==> r.0 == ""
    ensures r.1 && k.oldImageManifest.suggestion(rc).Nil? ==> r.0 == ""
    ensures r.1 && k.oldImageManifest.suggestion(rc).Slice? ==>
      r.0 == k.oldImageManifest.description(Message(err.value)) + ". "
             + ConcatSuggestions(k.oldImageManifest.suggestion(rc).items)
  {
    var p := k.oldImageManifest;
    if err.Some? && p.matches(Message(err.value)) then
      if p.suggestion(rc) != Nil then
        (p.description(Message(err.value)) + ". " + ConcatSuggestions(p.suggestion(rc).items), true)
      else
        ("", true)
    else
      ("", false)
  }

  /** A raw error is an old-image-manifest problem exactly when the DevInit
      phase classifies it with that problem; otherwise DevInit falls to its
      catch-all. */
  lemma OldImageManifestAgreesWithDevInit(msg: string, rc: RunContext, k: KnownProblems)
    ensures IsOldImageManifestProblem(Some(Raw(msg)), rc, k).1 ==>
      GetErrorCodeFromError(DevInit, Raw(msg), rc, k) == Yield(k.oldImageManifest, rc)
    ensures !IsOldImageManifestProblem(Some(Raw(msg)), rc, k).1 ==>
      GetErrorCodeFromError(DevInit, Raw(msg), rc, k) == Classification(DevInitUnknown, ReportIssueSuggestion(rc))
  {
    RegisteredPhaseClassification(DevInit, msg, rc, k);
    var known := KnownFor(DevInit, k);
    assert known == [k.oldImageManifest];
    if k.oldImageManifest.matches(msg) {
      assert IsFirstMatch(known, msg, 0);
    }
  }
}
