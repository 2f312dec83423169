/** The verification gate in front of pull requests (application/verification_engine.py). */
module Verification {
  import opened Prelude
  import Topology

  datatype CheckKind =
    | UnitTests | IntegrationTests | Lint | Format | TypeCheck | Build
    | Structural | Architecture | TestRelevance

  datatype CheckStatus = Passing | Partial | Failing

  datatype Verdict = PASS | PARTIAL | FAIL | BLOCKED

  datatype Command = Command(kind: CheckKind, text: string)

  datatype Rule = Rule(name: string, relation: string, pattern: string)

  /** What a command runner reports as the exit code. */
  datatype ExitReport = Unreported | Code(n: int) | Unreadable

  datatype Detail =
    | ExitCode(n: int)
    | MissingFiles(missing: set<string>)
    | Violations(violations: seq<(string, Rule)>)
    | MissingTests(tests: set<string>)

  datatype Step = Step(kind: CheckKind, status: CheckStatus, detail: Detail)

  datatype Issue = OfStep(step: Step) | NoFilesChanged | NoCriteria

  datatype Reason = AllChecksPassed | Because(issue: Issue) | VerdictIs(verdict: Verdict)

  /** What the engine asks others: command runs, pattern matches and whether a path is a test. */
  datatype Environment =
    Environment(run: Command -> ExitReport, matches: (string, string) -> bool, isTest: string -> bool)

  // ----- the steps -----------------------------------------------------------

  function ExitCodeOf(report: ExitReport): int {
    match report
    case Unreported => 0
    case Code(n) => n
    case Unreadable => 1
  }

  function CommandStep(env: Environment, c: Command): Step {
    var code := ExitCodeOf(env.run(c));
    Step(c.kind, if code == 0 then Passing else Failing, ExitCode(code))
  }

  function CommandSteps(env: Environment, commands: seq<Command>): seq<Step> {
    if commands == [] then [] else CommandSteps(env, Front(commands)) + [CommandStep(env, Last(commands))]
  }

  function StructuralStep(changed: seq<string>, expected: set<string>): Step {
    var missing := set e | e in expected && e !in changed;
    Step(Structural, if missing == {} then Passing else Failing, MissingFiles(missing))
  }

  function ViolationsOf(env: Environment, rule: Rule, changed: seq<string>): seq<(string, Rule)> {
    if changed == [] then []
    else
      ViolationsOf(env, rule, Front(changed))
      + if env.matches(Last(changed), rule.pattern) then [(Last(changed), rule)] else []
  }

  function AllViolations(env: Environment, rules: seq<Rule>, changed: seq<string>): seq<(string, Rule)> {
    if rules == [] then [] else AllViolations(env, Front(rules), changed) + ViolationsOf(env, Last(rules), changed)
  }

  function ArchitectureStep(env: Environment, rules: seq<Rule>, changed: seq<string>): Step {
    var violations := AllViolations(env, rules, changed);
    Step(Architecture, if violations == [] then Passing else Failing, Violations(violations))
  }

  function TestStep(env: Environment, changed: seq<string>, expected: set<string>): Step {
    var relevant := set e | e in expected && env.isTest(e);
    var modified := set c | c in changed && env.isTest(c);
    Step(TestRelevance, if relevant - modified == {} then Passing else Partial, MissingTests(relevant - modified))
  }

  function Steps(
      env: Environment, commands: seq<Command>, rules: seq<Rule>, changed: seq<string>, expected: set<string>)
    : seq<Step>
  {
    CommandSteps(env, commands)
    + [StructuralStep(changed, expected), ArchitectureStep(env, rules, changed), TestStep(env, changed, expected)]
  }

  // ----- the verdict ---------------------------------------------------------

  function WithStatus(status: CheckStatus, steps: seq<Step>): seq<Step> {
    if steps == [] then []
    else WithStatus(status, Front(steps)) + if Last(steps).status == status then [Last(steps)] else []
  }

  function VerdictOf(steps: seq<Step>, changed: seq<string>, criteria: seq<string>): Verdict {
    if WithStatus(Failing, steps) != [] || changed == [] then FAIL
    else if WithStatus(Partial, steps) != [] then PARTIAL
    else if criteria == [] then BLOCKED
    else PASS
  }

  function FeedbackOf(steps: seq<Step>): seq<Step> {
    WithStatus(Failing, steps) + WithStatus(Partial, steps)
  }

  function AsIssues(steps: seq<Step>): (r: seq<Issue>)
    ensures |r| == |steps|
  {
    if steps == [] then [] else AsIssues(Front(steps)) + [OfStep(Last(steps))]
  }

  function IssuesOf(steps: seq<Step>, changed: seq<string>, criteria: seq<string>): seq<Issue> {
    AsIssues(FeedbackOf(steps))
    + (if changed == [] then [NoFilesChanged] else [])
    + (if criteria == [] then [NoCriteria] else [])
  }

  /** The reasons given when a pull request is refused; the verdict itself stands in when there are no issues. */
  function ReasonsOf(issues: seq<Issue>, verdict: Verdict): seq<Reason> {
    if issues == [] then [VerdictIs(verdict)] else seq(|issues|, i requires 0 <= i < |issues| => Because(issues[i]))
  }

  // ----- what the verdict means ----------------------------------------------

  /** The runner reports code zero, or no code at all. */
  predicate Succeeds(report: ExitReport) {
    report == Code(0) || report == Unreported
  }

  /** The step shows the reported number, zero for none and one for an unreadable report; it fails exactly when the
      report is unreadable or another number than zero, and otherwise passes. */
  predicate Reflects(step: Step, c: Command, report: ExitReport) {
    && step.kind == c.kind
    && step.detail == ExitCode(if report.Code? then report.n else if report == Unreported then 0 else 1)
    && step.status == if report == Unreadable || (report.Code? && report.n != 0) then Failing else Passing
  }

  ghost predicate Clean(
      env: Environment, commands: seq<Command>, rules: seq<Rule>, changed: seq<string>, expected: set<string>)
  {
    && (forall c :: c in commands ==> Succeeds(env.run(c)))
    && (forall e :: e in expected ==> e in changed)
    && (forall rule, path :: rule in rules && path in changed ==> !env.matches(path, rule.pattern))
  }

  /** For every expected set: PASS, BLOCKED and FAIL each hold under one exact condition, and PARTIAL under none. */
  lemma VerdictIsExact(
      env: Environment, commands: seq<Command>, rules: seq<Rule>, changed: seq<string>, expected: set<string>,
      criteria: seq<string>)
    ensures
      var verdict := VerdictOf(Steps(env, commands, rules, changed, expected), changed, criteria);
      var clean := Clean(env, commands, rules, changed, expected);
      && (verdict == PASS <==> clean && changed != [] && criteria != [])
      && (verdict == BLOCKED <==> clean && changed != [] && criteria == [])
      && (verdict == FAIL <==> !clean || changed == [])
      && verdict != PARTIAL
  {
    var steps := Steps(env, commands, rules, changed, expected);
    FailingIffNotClean(env, commands, rules, changed, expected);
    WithStatusExact(Failing, steps);
    WithStatusExact(Partial, steps);
    hide Clean, Steps, WithStatus;
  }

  lemma FailingIffNotClean(
      env: Environment, commands: seq<Command>, rules: seq<Rule>, changed: seq<string>, expected: set<string>)
    ensures
      var steps := Steps(env, commands, rules, changed, expected);
      && ((forall s :: s in steps ==> s.status != Failing) <==> Clean(env, commands, rules, changed, expected))
      && ((forall s :: s in steps ==> s.status != Failing) ==> forall s :: s in steps ==> s.status != Partial)
  {
    var steps := Steps(env, commands, rules, changed, expected);
    CommandsFailIff(env, commands);
    NoViolationsIff(env, rules, changed);
    PartialTestsMeanMissingFiles(env, changed, expected);
    var own :=
      [StructuralStep(changed, expected), ArchitectureStep(env, rules, changed), TestStep(env, changed, expected)];
    assert forall s :: s in steps <==> s in CommandSteps(env, commands) || s in own;
    assert own[0] in steps && own[1] in steps && own[2] in steps;
    assert (forall e :: e in expected ==> e in changed) <==> own[0].status == Passing by {
      assert forall e :: e in own[0].detail.missing <==> e in expected && e !in changed;
    }
    hide CommandSteps, AllViolations;
  }

  /** The two checks against the expected files show what is missing; a relevance check that is only partial comes
      with a failed structural check. */
  lemma PartialTestsMeanMissingFiles(env: Environment, changed: seq<string>, expected: set<string>)
    ensures StructuralStep(changed, expected).kind == Structural
    ensures TestStep(env, changed, expected).kind == TestRelevance
    ensures StructuralStep(changed, expected).detail.MissingFiles?
      && forall e :: e in StructuralStep(changed, expected).detail.missing <==> e in expected && e !in changed
    ensures StructuralStep(changed, expected).status
      == if StructuralStep(changed, expected).detail.missing == {} then Passing else Failing
    ensures TestStep(env, changed, expected).detail.MissingTests?
    ensures TestStep(env, changed, expected).status
      == if TestStep(env, changed, expected).detail.tests == {} then Passing else Partial
    ensures TestStep(env, changed, expected).status == Partial ==> StructuralStep(changed, expected).status == Failing
    ensures TestStep(env, changed, expected).detail.tests
      == set e | e in StructuralStep(changed, expected).detail.missing && env.isTest(e)
  {
    var tests := TestStep(env, changed, expected).detail.tests;
    var missing := StructuralStep(changed, expected).detail.missing;
    assert tests == set e | e in missing && env.isTest(e);
    if tests != {} {
      var e :| e in tests;
      assert e in missing;
    }
  }

  lemma StepReflects(env: Environment, c: Command)
    ensures Reflects(CommandStep(env, c), c, env.run(c))
    ensures CommandStep(env, c).status == Failing <==> !Succeeds(env.run(c))
  {
  }

  /** One step per command, in order, each as its report says; some step fails iff some command does not succeed. */
  lemma {:induction false} CommandsFailIff(env: Environment, commands: seq<Command>)
    ensures
      var steps := CommandSteps(env, commands);
      && |steps| == |commands|
      && (forall i :: 0 <= i < |steps| ==> Reflects(steps[i], commands[i], env.run(commands[i])))
      && (forall s :: s in steps ==> s.status != Partial)
      && ((exists s :: s in steps && s.status == Failing) <==> exists c :: c in commands && !Succeeds(env.run(c)))
  {
    hide CommandStep, Reflects, Succeeds;
    if commands != [] {
      var before, c := Front(commands), Last(commands);
      CommandsFailIff(env, before);
      StepReflects(env, c);
      StepNeverPartial(env, c);
      assert commands == before + [c];
      assert CommandStep(env, c) in CommandSteps(env, commands);
      assert forall s :: s in CommandSteps(env, before) ==> s in CommandSteps(env, commands);
    }
  }

  lemma StepNeverPartial(env: Environment, c: Command)
    ensures CommandStep(env, c).status != Partial
  {
  }

  /** A violation is listed for exactly the changed paths that a rule's pattern matches. */
  lemma {:induction false} ViolationListedIff(
      env: Environment, rules: seq<Rule>, changed: seq<string>, path: string, rule: Rule)
    ensures
      (path, rule) in AllViolations(env, rules, changed)
      <==> rule in rules && path in changed && env.matches(path, rule.pattern)
  {
    if rules != [] {
      ViolationListedIff(env, Front(rules), changed, path, rule);
      OneRuleListedIff(env, Last(rules), changed, path, rule);
      assert rules == Front(rules) + [Last(rules)];
    }
  }

  lemma {:induction false} OneRuleListedIff(env: Environment, one: Rule, changed: seq<string>, path: string, rule: Rule)
    ensures
      (path, rule) in ViolationsOf(env, one, changed)
      <==> rule == one && path in changed && env.matches(path, one.pattern)
  {
    if changed != [] {
      OneRuleListedIff(env, one, Front(changed), path, rule);
      assert changed == Front(changed) + [Last(changed)];
    }
  }

  lemma NoViolationsIff(env: Environment, rules: seq<Rule>, changed: seq<string>)
    ensures
      AllViolations(env, rules, changed) == []
      <==> forall rule, path :: rule in rules && path in changed ==> !env.matches(path, rule.pattern)
  {
    var violations := AllViolations(env, rules, changed);
    forall rule, path | rule in rules && path in changed && env.matches(path, rule.pattern)
      ensures violations != []
    {
      ViolationListedIff(env, rules, changed, path, rule);
    }
    if violations != [] {
      var (path, rule) := violations[0];
      assert (path, rule) in violations;
      ViolationListedIff(env, rules, changed, path, rule);
    }
  }

  lemma {:induction false} WithStatusExact(status: CheckStatus, steps: seq<Step>)
    ensures forall s :: s in WithStatus(status, steps) <==> s in steps && s.status == status
    ensures WithStatus(status, steps) == [] <==> forall s :: s in steps ==> s.status != status
  {
    if steps != [] {
      WithStatusExact(status, Front(steps));
      assert steps == Front(steps) + [Last(steps)];
    }
  }

  /** Anything but PASS comes with a reason, and PASS with none; the retry feedback is every check that did not
      pass, so it is empty exactly when all checks passed. */
  lemma IssuesExplainVerdict(steps: seq<Step>, changed: seq<string>, criteria: seq<string>)
    ensures IssuesOf(steps, changed, criteria) == [] <==> VerdictOf(steps, changed, criteria) == PASS
    ensures forall s :: s in FeedbackOf(steps) <==> s in steps && s.status != Passing
    ensures FeedbackOf(steps) == [] <==> forall s :: s in steps ==> s.status == Passing
  {
    WithStatusExact(Failing, steps);
    WithStatusExact(Partial, steps);
  }

  // ----- impact analysis -----------------------------------------------------

  datatype Symbol = Symbol(key: string, qualifiedName: string, lastSegment: string, path: string)

  datatype Call = Call(source: string, sourcePath: string, target: string, targetPath: string)

  datatype CodeGraph = CodeGraph(symbols: seq<Symbol>, calls: seq<Call>)

  function Named(symbols: seq<Symbol>, matches: Symbol -> bool): seq<Symbol> {
    if symbols == [] then []
    else Named(Front(symbols), matches) + if matches(Last(symbols)) then [Last(symbols)] else []
  }

  /** The symbols found for the targets: exact names first, the last name segment otherwise. */
  function Found(graph: CodeGraph, targets: seq<string>): seq<Symbol> {
    if targets == [] then []
    else
      var exact := Named(graph.symbols, (s: Symbol) => s.qualifiedName == Last(targets));
      Found(graph, Front(targets))
      + if exact != [] then exact else Named(graph.symbols, (s: Symbol) => s.lastSegment == Last(targets))
  }

  function Primary(graph: CodeGraph, targets: seq<string>): seq<Symbol> {
    Topology.Merged((s: Symbol) => s.key, [], Found(graph, targets))
  }

  /** The paths of the primary symbols and both ends of every call that touches one of them. */
  function RelatedFiles(graph: CodeGraph, targets: seq<string>): set<string> {
    var primary := Primary(graph, targets);
    var keys := set s | s in primary :: s.key;
    var touching := set c | c in graph.calls && (c.target in keys || c.source in keys);
    (set c | c in touching && c.targetPath != "" :: c.targetPath)
    + (set c | c in touching && c.sourcePath != "" :: c.sourcePath)
    + (set s | s in primary :: s.path)
  }

  lemma {:induction false} NamedIff(symbols: seq<Symbol>, matches: Symbol -> bool, s: Symbol)
    ensures s in Named(symbols, matches) <==> s in symbols && matches(s)
  {
    if symbols != [] {
      NamedIff(Front(symbols), matches, s);
      assert symbols == Front(symbols) + [Last(symbols)];
    }
  }

  /** A target finds the symbols of exactly that qualified name, and only without any the ones of that last segment. */
  predicate Hits(symbols: seq<Symbol>, t: string, s: Symbol) {
    s in symbols && (s.qualifiedName == t
                     || (s.lastSegment == t && forall x :: x in symbols ==> x.qualifiedName != t))
  }

  lemma OneTarget(symbols: seq<Symbol>, t: string, s: Symbol)
    ensures
      var exact := Named(symbols, (x: Symbol) => x.qualifiedName == t);
      s in (if exact != [] then exact else Named(symbols, (x: Symbol) => x.lastSegment == t)) <==> Hits(symbols, t, s)
  {
    var exact := Named(symbols, (x: Symbol) => x.qualifiedName == t);
    forall x
      ensures x in exact <==> x in symbols && x.qualifiedName == t
    {
      NamedIff(symbols, (y: Symbol) => y.qualifiedName == t, x);
    }
    NamedIff(symbols, (x: Symbol) => x.lastSegment == t, s);
    assert exact != [] ==> exact[0] in exact;
  }

  lemma {:induction false} FoundIff(graph: CodeGraph, targets: seq<string>, s: Symbol)
    ensures s in Found(graph, targets) <==> exists t :: t in targets && Hits(graph.symbols, t, s)
  {
    hide Named, Hits;
    if targets != [] {
      FoundIff(graph, Front(targets), s);
      OneTarget(graph.symbols, Last(targets), s);
      assert targets == Front(targets) + [Last(targets)];
    }
  }

  lemma NoTargetsNoFiles(graph: CodeGraph)
    ensures RelatedFiles(graph, []) == {}
  {
    assert Primary(graph, []) == [];
  }

  // ----- the engine ----------------------------------------------------------

  class VerificationRun {
    var steps: seq<Step>
    var verdict: Verdict
    var issues: seq<Issue>
    var feedback: seq<Step>

    constructor ()
      ensures steps == [] && verdict == PASS && issues == [] && feedback == []
    {
      steps, verdict, issues, feedback := [], PASS, [], [];
    }
  }

  datatype Readiness = Readiness(verdict: Verdict, allowed: bool, reasons: seq<Reason>)

  class VerificationEngine {
    const env: Environment
    const commands: seq<Command>
    const rules: seq<Rule>

    constructor (env: Environment, commands: seq<Command>, rules: seq<Rule>)
      ensures this.env == env && this.commands == commands && this.rules == rules
    {
      this.env, this.commands, this.rules := env, commands, rules;
    }

    method RunCommandSteps(run: VerificationRun)
      modifies run`steps
      ensures run.steps == old(run.steps) + CommandSteps(env, commands)
    {
      for i := 0 to |commands|
        invariant run.steps == old(run.steps) + CommandSteps(env, commands[..i])
      {
        assert Front(commands[..i + 1]) == commands[..i];
        var exitCode := ExitCodeOf(env.run(commands[i]));
        var status := if exitCode == 0 then Passing else Failing;
        run.steps := run.steps + [Step(commands[i].kind, status, ExitCode(exitCode))];
      }
      assert commands[..|commands|] == commands;
    }

    method CheckArchitecture(changed: seq<string>) returns (step: Step)
      ensures step == ArchitectureStep(env, rules, changed)
    {
      var violations := [];
      for i := 0 to |rules|
        invariant violations == AllViolations(env, rules[..i], changed)
      {
        assert Front(rules[..i + 1]) == rules[..i];
        for j := 0 to |changed|
          invariant violations == AllViolations(env, rules[..i], changed) + ViolationsOf(env, rules[i], changed[..j])
        {
          assert Front(changed[..j + 1]) == changed[..j];
          if env.matches(changed[j], rules[i].pattern) {
            violations := violations + [(changed[j], rules[i])];
          }
        }
        assert changed[..|changed|] == changed;
      }
      assert rules[..|rules|] == rules;
      return Step(Architecture, if violations == [] then Passing else Failing, Violations(violations));
    }

    method AggregateVerdict(run: VerificationRun, criteria: seq<string>, changed: seq<string>)
      modifies run`verdict, run`issues, run`feedback
      ensures run.verdict == VerdictOf(run.steps, changed, criteria)
      ensures run.issues == IssuesOf(run.steps, changed, criteria)
      ensures run.feedback == FeedbackOf(run.steps)
    {
      var failed := Select(Failing, run.steps);
      var partial := Select(Partial, run.steps);
      run.issues := CollectIssues(failed, partial);
      if changed == [] {
        run.issues := run.issues + [NoFilesChanged];
      }
      if criteria == [] {
        run.issues := run.issues + [NoCriteria];
      }
      if failed != [] || changed == [] {
        run.verdict := FAIL;
      } else if partial != [] {
        run.verdict := PARTIAL;
      } else if criteria == [] {
        run.verdict := BLOCKED;
      } else {
        run.verdict := PASS;
      }
      run.feedback := failed + partial;
    }

    method CollectIssues(failed: seq<Step>, partial: seq<Step>) returns (issues: seq<Issue>)
      ensures issues == AsIssues(failed + partial)
    {
      issues := [];
      for i := 0 to |failed|
        invariant issues == AsIssues(failed[..i])
      {
        assert Front(failed[..i + 1]) == failed[..i];
        issues := issues + [OfStep(failed[i])];
      }
      assert failed[..|failed|] == failed == failed + partial[..0];
      for i := 0 to |partial|
        invariant issues == AsIssues(failed + partial[..i])
      {
        assert Front(failed + partial[..i + 1]) == failed + partial[..i];
        issues := issues + [OfStep(partial[i])];
      }
      assert partial[..|partial|] == partial;
    }

    method Select(status: CheckStatus, steps: seq<Step>) returns (selected: seq<Step>)
      ensures selected == WithStatus(status, steps)
    {
      selected := [];
      for i := 0 to |steps|
        invariant selected == WithStatus(status, steps[..i])
      {
        assert Front(steps[..i + 1]) == steps[..i];
        if steps[i].status == status {
          selected := selected + [steps[i]];
        }
      }
      assert steps[..|steps|] == steps;
    }

    /** The gate as a caller sees it. The files expected to change come from the impact analysis, which is asked
        about no symbol, so they never decide anything: only the commands, the rules and the two inputs do. */
    method Verify(criteria: seq<string>, changed: seq<string>, graph: Option<CodeGraph>)
      returns (run: VerificationRun, readiness: Readiness)
      ensures fresh(run)
      ensures readiness.verdict == run.verdict && (readiness.allowed <==> run.verdict == PASS)
      ensures run.steps == Steps(env, commands, rules, changed, {})
      ensures run.verdict == VerdictOf(run.steps, changed, criteria)
      ensures run.feedback == FeedbackOf(run.steps)
      ensures run.issues == IssuesOf(run.steps, changed, criteria)
      ensures readiness.allowed <==>
        && changed != [] && criteria != []
        && (forall c :: c in commands ==> env.run(c) == Code(0) || env.run(c) == Unreported)
        && (forall rule, path :: rule in rules && path in changed ==> !env.matches(path, rule.pattern))
      ensures !readiness.allowed ==>
        |readiness.reasons| == |run.issues| > 0
        && forall i :: 0 <= i < |run.issues| ==> readiness.reasons[i] == Because(run.issues[i])
    {
      hide CommandSteps, StructuralStep, ArchitectureStep, TestStep, VerdictOf, IssuesOf, FeedbackOf, RelatedFiles;
      run := new VerificationRun();
      RunCommandSteps(run);
      var expected := {};
      if graph.Some? {
        expected := RelatedFiles(graph.value, []);
        NoTargetsNoFiles(graph.value);
      }
      run.steps := run.steps + [StructuralStep(changed, expected)];
      var architecture := CheckArchitecture(changed);
      run.steps := run.steps + [architecture];
      run.steps := run.steps + [TestStep(env, changed, expected)];
      assert run.steps == Steps(env, commands, rules, changed, {});
      AggregateVerdict(run, criteria, changed);
      VerdictIsExact(env, commands, rules, changed, {}, criteria);
      IssuesExplainVerdict(run.steps, changed, criteria);
      readiness := PrReadiness(run);
    }

    method PrReadiness(run: VerificationRun) returns (readiness: Readiness)
      ensures readiness.verdict == run.verdict && (readiness.allowed <==> run.verdict == PASS)
      ensures run.verdict == PASS ==> readiness.reasons == [AllChecksPassed]
      ensures run.verdict != PASS && run.issues == [] ==> readiness.reasons == [VerdictIs(run.verdict)]
      ensures run.verdict != PASS && run.issues != [] ==>
        |readiness.reasons| == |run.issues|
        && forall i :: 0 <= i < |run.issues| ==> readiness.reasons[i] == Because(run.issues[i])
    {
      if run.verdict == PASS {
        return Readiness(run.verdict, true, [AllChecksPassed]);
      }
      return Readiness(run.verdict, false, ReasonsOf(run.issues, run.verdict));
    }
  }
}
