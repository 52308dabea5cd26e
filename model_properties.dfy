/**
 * What a run of the grading pipeline guarantees, stated over `Model.Pipeline`
 * (and therefore over `Model.Job.Run`, which is proved equal to it), together
 * with the properties of the scratch paths and of the command template.
 */
module ModelProperties {
  import opened Text
  import opened Config
  import opened Model

  // ----- Scratch paths -----

  lemma PathSplit(p: nat, rest: string, p': nat, rest': string)
    requires rest != [] && rest' != [] && rest[0] == '/' && rest'[0] == '/'
    requires ProblemRoot + NatToString(p) + rest == ProblemRoot + NatToString(p') + rest'
    ensures p == p' && rest == rest'
  {
    var a, b := NatToString(p), NatToString(p');
    assert ProblemRoot + a + rest == ProblemRoot + (a + rest);
    assert ProblemRoot + b + rest' == ProblemRoot + (b + rest');
    assert a + rest == (ProblemRoot + (a + rest))[|ProblemRoot|..];
    assert b + rest' == (ProblemRoot + (b + rest'))[|ProblemRoot|..];
    DigitRunSplit(a, rest, b, rest');
    NatToStringInjective(p, p');
  }

  /** Distinct (problem, job) pairs never share a source path. */
  lemma SourcePathInjective(p: nat, j: nat, p': nat, j': nat)
    requires SourcePath(p, j) == SourcePath(p', j')
    ensures p == p' && j == j'
  {
    var b, b' := NatToString(j), NatToString(j');
    assert SourcePath(p, j) == ProblemRoot + NatToString(p) + ("/source/" + b + ".rs");
    assert SourcePath(p', j') == ProblemRoot + NatToString(p') + ("/source/" + b' + ".rs");
    PathSplit(p, "/source/" + b + ".rs", p', "/source/" + b' + ".rs");
    assert "/source/" + b + ".rs" == "/source/" + (b + ".rs");
    assert "/source/" + b' + ".rs" == "/source/" + (b' + ".rs");
    assert b + ".rs" == ("/source/" + (b + ".rs"))[8..];
    assert b' + ".rs" == ("/source/" + (b' + ".rs"))[8..];
    DigitRunSplit(b, ".rs", b', ".rs");
    NatToStringInjective(j, j');
  }

  /** Distinct (problem, job) pairs never share an artifact path. */
  lemma OutputPathInjective(p: nat, j: nat, p': nat, j': nat)
    requires OutputPath(p, j) == OutputPath(p', j')
    ensures p == p' && j == j'
  {
    var b, b' := NatToString(j), NatToString(j');
    assert OutputPath(p, j) == ProblemRoot + NatToString(p) + ("/output/" + b);
    assert OutputPath(p', j') == ProblemRoot + NatToString(p') + ("/output/" + b');
    PathSplit(p, "/output/" + b, p', "/output/" + b');
    assert b == ("/output/" + b)[8..];
    assert b' == ("/output/" + b')[8..];
    NatToStringInjective(j, j');
  }

  /** Distinct (problem, job) pairs never share a captured-output path. */
  lemma InputPathInjective(p: nat, j: nat, p': nat, j': nat)
    requires InputPath(p, j) == InputPath(p', j')
    ensures p == p' && j == j'
  {
    var b, b' := NatToString(j), NatToString(j');
    assert InputPath(p, j) == ProblemRoot + NatToString(p) + ("/input/" + b + ".txt");
    assert InputPath(p', j') == ProblemRoot + NatToString(p') + ("/input/" + b' + ".txt");
    PathSplit(p, "/input/" + b + ".txt", p', "/input/" + b' + ".txt");
    assert "/input/" + b + ".txt" == "/input/" + (b + ".txt");
    assert "/input/" + b' + ".txt" == "/input/" + (b' + ".txt");
    assert b + ".txt" == ("/input/" + (b + ".txt"))[7..];
    assert b' + ".txt" == ("/input/" + (b' + ".txt"))[7..];
    DigitRunSplit(b, ".txt", b', ".txt");
    NatToStringInjective(j, j');
  }

  /** The three kinds of scratch path never coincide, whatever the problem and job ids. */
  lemma ScratchPathsDistinct(p: nat, j: nat, p': nat, j': nat)
    ensures SourcePath(p, j) != OutputPath(p', j')
    ensures SourcePath(p, j) != InputPath(p', j')
    ensures OutputPath(p, j) != InputPath(p', j')
  {
    var b, b' := NatToString(j), NatToString(j');
    var src := "/source/" + b + ".rs";
    var out := "/output/" + b';
    var inp := "/input/" + b' + ".txt";
    var out2 := "/output/" + b;
    assert SourcePath(p, j) == ProblemRoot + NatToString(p) + src;
    assert OutputPath(p', j') == ProblemRoot + NatToString(p') + out;
    assert InputPath(p', j') == ProblemRoot + NatToString(p') + inp;
    assert OutputPath(p, j) == ProblemRoot + NatToString(p) + out2;
    assert src[1] == 's' && out[1] == 'o' && inp[1] == 'i' && out2[1] == 'o';
    if SourcePath(p, j) == OutputPath(p', j') {
      PathSplit(p, src, p', out);
    }
    if SourcePath(p, j) == InputPath(p', j') {
      PathSplit(p, src, p', inp);
    }
    if OutputPath(p, j) == InputPath(p', j') {
      PathSplit(p, out2, p', inp);
    }
  }

  // ----- Command template -----

  /** Tokens without a placeholder are passed to the build command unchanged. */
  lemma PlainTokenUnchanged(token: string, output: string, input: string)
    requires !Occurs(OutputPlaceholder, token) && !Occurs(InputPlaceholder, token)
    ensures SubstituteToken(token, output, input) == token
  {
    ReplaceWithoutOccurrence(token, OutputPlaceholder, output);
    ReplaceWithoutOccurrence(token, InputPlaceholder, input);
  }

  /** No '%' character appears in any scratch path. */
  lemma NoPercentInPaths(p: nat, j: nat)
    ensures '%' !in SourcePath(p, j) && '%' !in OutputPath(p, j)
  {
  }

  /**
   * For a job's own paths, the token `%OUTPUT%` becomes the artifact path and
   * `%INPUT%` becomes the source path.
   */
  lemma PlaceholdersBecomeJobPaths(p: nat, j: nat)
    ensures SubstituteToken(OutputPlaceholder, OutputPath(p, j), SourcePath(p, j)) == OutputPath(p, j)
    ensures SubstituteToken(InputPlaceholder, OutputPath(p, j), SourcePath(p, j)) == SourcePath(p, j)
  {
    var output, source := OutputPath(p, j), SourcePath(p, j);
    NoPercentInPaths(p, j);
    ReplaceWholePattern(OutputPlaceholder, output);
    AbsentLeadNoOccurrence(InputPlaceholder, output);
    ReplaceWithoutOccurrence(output, InputPlaceholder, source);
    ReplaceWholePattern(InputPlaceholder, source);
  }

  /** `%OUTPUT%` does not occur in `a + "%INPUT%"` when `a` has no '%'. */
  lemma OutputPlaceholderNotInInputToken(a: string)
    requires '%' !in a
    ensures !Occurs(OutputPlaceholder, a + InputPlaceholder)
  {
    var s := a + InputPlaceholder;
    forall i: nat ensures !OccursAt(OutputPlaceholder, s, i) {
      if i < |a| && i + |OutputPlaceholder| <= |s| {
        assert s[i..i + |OutputPlaceholder|][0] == a[i];
      }
    }
    OccursIffSomePosition(OutputPlaceholder, s);
  }

  /**
   * A placeholder written after a '%'-free prefix inside a token (such as
   * `-o%OUTPUT%`) is replaced in place by the job's path, the prefix kept.
   */
  lemma PlaceholderAfterPrefix(a: string, p: nat, j: nat)
    requires '%' !in a
    ensures SubstituteToken(a + OutputPlaceholder, OutputPath(p, j), SourcePath(p, j)) == a + OutputPath(p, j)
    ensures SubstituteToken(a + InputPlaceholder, OutputPath(p, j), SourcePath(p, j)) == a + SourcePath(p, j)
  {
    var output, source := OutputPath(p, j), SourcePath(p, j);
    NoPercentInPaths(p, j);
    ReplaceAfterPrefix(a, OutputPlaceholder, output, []);
    assert a + OutputPlaceholder + [] == a + OutputPlaceholder;
    assert Replace([], OutputPlaceholder, output) == [];
    assert a + output + [] == a + output;
    assert Replace(a + OutputPlaceholder, OutputPlaceholder, output) == a + output;
    assert '%' !in a + output;
    AbsentLeadNoOccurrence(InputPlaceholder, a + output);
    ReplaceWithoutOccurrence(a + output, InputPlaceholder, source);
    OutputPlaceholderNotInInputToken(a);
    ReplaceWithoutOccurrence(a + InputPlaceholder, OutputPlaceholder, output);
    ReplaceAfterPrefix(a, InputPlaceholder, source, []);
    assert a + InputPlaceholder + [] == a + InputPlaceholder;
    assert Replace([], InputPlaceholder, source) == [];
    assert a + source + [] == a + source;
  }

  /** The job's build command keeps its length and its placeholder-free tokens. */
  lemma BuildCommandShape(command: seq<string>, p: nat, j: nat)
    ensures var cmd := SubstituteCommand(command, OutputPath(p, j), SourcePath(p, j));
      && |cmd| == |command|
      && (forall i :: 0 <= i < |command| && command[i] == OutputPlaceholder ==> cmd[i] == OutputPath(p, j))
      && (forall i :: 0 <= i < |command| && command[i] == InputPlaceholder ==> cmd[i] == SourcePath(p, j))
      && (forall i :: 0 <= i < |command| && !Occurs(OutputPlaceholder, command[i]) && !Occurs(InputPlaceholder, command[i])
            ==> cmd[i] == command[i])
  {
    PlaceholdersBecomeJobPaths(p, j);
    forall t | !Occurs(OutputPlaceholder, t) && !Occurs(InputPlaceholder, t)
      ensures SubstituteToken(t, OutputPath(p, j), SourcePath(p, j)) == t
    {
      PlainTokenUnchanged(t, OutputPath(p, j), SourcePath(p, j));
    }
  }

  // ----- Grading of the cases -----

  /** The program run on this case is still running at its time limit (so it is killed and not recorded). */
  predicate TimesOut(spec: CaseSpec, artifact: string, w: World)
  {
    spec.inputFile in w.files && w.execute(artifact, w.files[spec.inputFile], spec.timeLimit).TimedOut?
  }

  /**
   * Grading the first `k` cases records at most `k` results, each one the record
   * its own case produced, with strictly increasing case positions below `k`;
   * and when no fault stopped it, every case that produced a record is recorded.
   */
  lemma {:induction false} GradeRecords(specs: seq<CaseSpec>, artifact: string, w: World, k: nat)
    requires k <= |specs|
    ensures var g := Grade(specs, artifact, w, k);
      && |g.recorded| <= k
      && (forall m :: 0 <= m < |g.recorded| ==>
            g.recorded[m].id < k && CaseStep(specs[g.recorded[m].id], g.recorded[m].id, artifact, w) == Record(g.recorded[m]))
      && (forall m, n :: 0 <= m < n < |g.recorded| ==> g.recorded[m].id < g.recorded[n].id)
      && (g.Graded? ==> forall i :: 0 <= i < k && CaseStep(specs[i], i, artifact, w).Record? ==>
            CaseStep(specs[i], i, artifact, w).c in g.recorded)
  {
    if k > 0 {
      GradeRecords(specs, artifact, w, k - 1);
    }
  }

  /** Grading runs to the end exactly when no case faults. */
  lemma {:induction false} GradedIffNoFault(specs: seq<CaseSpec>, artifact: string, w: World, k: nat)
    requires k <= |specs|
    ensures Grade(specs, artifact, w, k).Graded? <==> forall i :: 0 <= i < k ==> !CaseStep(specs[i], i, artifact, w).Fault?
  {
    if k > 0 {
      GradedIffNoFault(specs, artifact, w, k - 1);
    }
  }

  /** Without a timeout every case is recorded, and the record at position `m` is case `m`'s. */
  lemma {:induction false} NoTimeoutRecordsEveryCase(specs: seq<CaseSpec>, artifact: string, w: World, k: nat)
    requires k <= |specs|
    requires Grade(specs, artifact, w, k).Graded?
    requires forall i :: 0 <= i < k ==> !TimesOut(specs[i], artifact, w)
    ensures |Grade(specs, artifact, w, k).recorded| == k
    ensures forall m :: 0 <= m < k ==> Grade(specs, artifact, w, k).recorded[m].id == m
  {
    if k > 0 {
      NoTimeoutRecordsEveryCase(specs, artifact, w, k - 1);
    }
  }

  /** A timed-out case is never recorded, so fewer than `k` results remain. */
  lemma {:induction false} TimeoutDropsCase(specs: seq<CaseSpec>, artifact: string, w: World, k: nat, t: nat)
    requires t < k <= |specs|
    requires TimesOut(specs[t], artifact, w)
    ensures forall m :: 0 <= m < |Grade(specs, artifact, w, k).recorded| ==> Grade(specs, artifact, w, k).recorded[m].id != t
    ensures |Grade(specs, artifact, w, k).recorded| < k
  {
    GradeRecords(specs, artifact, w, k);
    GradeRecords(specs, artifact, w, k - 1);
    if t < k - 1 {
      TimeoutDropsCase(specs, artifact, w, k - 1, t);
    }
  }

  // ----- One run of the pipeline -----

  /** When staging the scratch files fails, the job is left exactly as it was. */
  lemma SetupFaultLeavesJob(jobId: nat, problem: Problem, language: Language, before: Progress, w: World)
    requires !w.setupOk
    ensures Pipeline(jobId, problem, language, before, w) == RunOutcome(IoFault, before)
  {
  }

  /**
   * What a failed run leaves behind. Before the build, state and result are
   * both `Running`, so a build that cannot be spawned leaves `Running`/`Running`.
   * A job still `Running` after an exited build stopped at a case fault, with
   * the build verdict as its result. Any I/O error leaves the job `Running`,
   * or `Finished` when only cleanup failed.
   */
  lemma FailedRunProgress(jobId: nat, problem: Problem, language: Language, before: Progress, w: World)
    requires w.setupOk && language.command != []
    ensures var cmd := SubstituteCommand(language.command, OutputPath(problem.id, jobId), SourcePath(problem.id, jobId));
      var out := Pipeline(jobId, problem, language, before, w);
      && (w.compile(cmd).CompileFault? ==>
            out == RunOutcome(IoFault, Progress(State.Running, RunResult.Running, before.cases)))
      && (w.compile(cmd).CompileExited? && out.after.state == State.Running ==>
            out.status == IoFault && out.after.result == (if w.compile(cmd).success then CompilationSuccess else CompilationError))
      && (out.status == IoFault ==> out.after.state == State.Running || (out.after.state == Finished && !w.cleanupOk))
  {
  }

  /**
   * A run never clears the case list: the earlier results stay in front and at
   * most one result per problem case is added behind them.
   */
  lemma RunAppendsCases(jobId: nat, problem: Problem, language: Language, before: Progress, w: World)
    ensures var after := Pipeline(jobId, problem, language, before, w).after;
      && |before.cases| <= |after.cases| <= |before.cases| + |problem.cases|
      && after.cases[..|before.cases|] == before.cases
  {
    GradeRecords(problem.cases, OutputPath(problem.id, jobId), w, |problem.cases|);
    var after := Pipeline(jobId, problem, language, before, w).after;
    assert after.cases[..|before.cases|] == before.cases;
  }

  /**
   * Every result a run adds belongs to a case that ran to completion, sits at
   * its position in the problem, keeps the fresh record's zero time and memory
   * and empty info, and is `Accepted` exactly when the program's output equals
   * the answer file, `WrongAnswer` otherwise.
   */
  lemma AddedCasesAreExactComparisons(jobId: nat, problem: Problem, language: Language, before: Progress, w: World)
    ensures var after := Pipeline(jobId, problem, language, before, w).after;
      var artifact := OutputPath(problem.id, jobId);
      forall m :: |before.cases| <= m < |after.cases| ==>
        var c := after.cases[m];
        && c.id < |problem.cases|
        && c.time == 0 && c.memory == 0 && c.info == ""
        && (m > |before.cases| ==> after.cases[m - 1].id < c.id)
        && var spec := problem.cases[c.id];
        && spec.inputFile in w.files && spec.answerFile in w.files
        && w.execute(artifact, w.files[spec.inputFile], spec.timeLimit).Exited?
        && (c.result == Accepted <==> w.execute(artifact, w.files[spec.inputFile], spec.timeLimit).stdout == w.files[spec.answerFile])
        && (c.result != Accepted ==> c.result == WrongAnswer)
  {
    var artifact := OutputPath(problem.id, jobId);
    var g := Grade(problem.cases, artifact, w, |problem.cases|);
    GradeRecords(problem.cases, artifact, w, |problem.cases|);
    var after := Pipeline(jobId, problem, language, before, w).after;
    forall m | |before.cases| <= m < |after.cases|
      ensures after.cases[m] == g.recorded[m - |before.cases|]
    {
    }
  }

  /**
   * When grading is not stopped by a fault, every case whose program exits in
   * time and whose files can be read has its result among the ones the run adds.
   */
  lemma ExitedCasesAreRecorded(jobId: nat, problem: Problem, language: Language, before: Progress, w: World)
    requires Pipeline(jobId, problem, language, before, w).status == Completed
    ensures var after := Pipeline(jobId, problem, language, before, w).after;
      var artifact := OutputPath(problem.id, jobId);
      forall i :: 0 <= i < |problem.cases| && CaseStep(problem.cases[i], i, artifact, w).Record? ==>
        CaseStep(problem.cases[i], i, artifact, w).c in after.cases[|before.cases|..]
  {
    var artifact := OutputPath(problem.id, jobId);
    GradeRecords(problem.cases, artifact, w, |problem.cases|);
    var after := Pipeline(jobId, problem, language, before, w).after;
    assert after.cases[|before.cases|..] == Grade(problem.cases, artifact, w, |problem.cases|).recorded;
  }

  /**
   * When a run completes, the job is `Finished`, and its result is `Accepted`
   * exactly when every recorded case (earlier runs' included) is accepted, and
   * `WrongAnswer` otherwise.
   */
  lemma CompletedRunVerdict(jobId: nat, problem: Problem, language: Language, before: Progress, w: World)
    requires Pipeline(jobId, problem, language, before, w).status == Completed
    ensures var after := Pipeline(jobId, problem, language, before, w).after;
      && after.state == Finished
      && (after.result == Accepted <==> forall i :: 0 <= i < |after.cases| ==> after.cases[i].result == Accepted)
      && (after.result != Accepted ==> after.result == WrongAnswer)
  {
  }

  /**
   * When a run completes, it added one result per problem case exactly when no
   * case timed out.
   */
  lemma CompletedRunCaseCount(jobId: nat, problem: Problem, language: Language, before: Progress, w: World)
    requires Pipeline(jobId, problem, language, before, w).status == Completed
    ensures var after := Pipeline(jobId, problem, language, before, w).after;
      var artifact := OutputPath(problem.id, jobId);
      (|after.cases| == |before.cases| + |problem.cases| <==>
        forall i :: 0 <= i < |problem.cases| ==> !TimesOut(problem.cases[i], artifact, w))
  {
    var artifact := OutputPath(problem.id, jobId);
    var n := |problem.cases|;
    GradeRecords(problem.cases, artifact, w, n);
    if forall i :: 0 <= i < n ==> !TimesOut(problem.cases[i], artifact, w) {
      NoTimeoutRecordsEveryCase(problem.cases, artifact, w, n);
    } else {
      var t :| 0 <= t < n && TimesOut(problem.cases[t], artifact, w);
      TimeoutDropsCase(problem.cases, artifact, w, n, t);
    }
  }

  /**
   * A failed build does not stop grading: a run whose build exits with failure
   * grades the same cases and, when it completes, ends exactly as the run whose
   * build succeeded. The build verdict is overwritten by the aggregate.
   */
  lemma BuildFailureDoesNotShortCircuit(jobId: nat, problem: Problem, language: Language, before: Progress, w: World)
    requires w.compile(SubstituteCommand(language.command, OutputPath(problem.id, jobId), SourcePath(problem.id, jobId))) == CompileExited(false)
    ensures var failed := Pipeline(jobId, problem, language, before, w);
      var built := Pipeline(jobId, problem, language, before, w.(compile := _ => CompileExited(true)));
      && failed.status == built.status
      && failed.after.cases == built.after.cases
      && (failed.status == Completed ==> failed == built)
  {
    var artifact := OutputPath(problem.id, jobId);
    var w' := w.(compile := _ => CompileExited(true));
    GradeSameWorld(problem.cases, artifact, w, w', |problem.cases|);
  }

  /** Grading does not consult the build oracle. */
  lemma {:induction false} GradeSameWorld(specs: seq<CaseSpec>, artifact: string, w: World, w': World, k: nat)
    requires k <= |specs|
    requires w'.files == w.files && w'.execute == w.execute
    ensures Grade(specs, artifact, w, k) == Grade(specs, artifact, w', k)
  {
    if k > 0 {
      GradeSameWorld(specs, artifact, w, w', k - 1);
      assert CaseStep(specs[k - 1], k - 1, artifact, w) == CaseStep(specs[k - 1], k - 1, artifact, w');
    }
  }

  /**
   * In practice a failed build leaves no artifact, so running it on the first
   * case fails, and with no cases removing it during cleanup fails: such a run
   * then always ends in an I/O error, never with the `CompilationError` verdict.
   */
  lemma MissingArtifactEndsInFault(jobId: nat, problem: Problem, language: Language, before: Progress, w: World)
    requires w.setupOk && language.command != []
    requires w.compile(SubstituteCommand(language.command, OutputPath(problem.id, jobId), SourcePath(problem.id, jobId))) == CompileExited(false)
    requires forall stdin, limit :: w.execute(OutputPath(problem.id, jobId), stdin, limit) == ProcessFault
    requires problem.cases != [] || !w.cleanupOk
    ensures Pipeline(jobId, problem, language, before, w).status == IoFault
  {
    if problem.cases != [] {
      var artifact := OutputPath(problem.id, jobId);
      assert Grade(problem.cases, artifact, w, 1).Faulted?;
      FaultIsFinal(problem.cases, artifact, w, 1, |problem.cases|);
    }
  }

  /**
   * When every case times out on a new job, nothing is recorded and the
   * all-cases-accepted test holds vacuously: the job is `Accepted`.
   */
  lemma AllTimeoutsAccepted(jobId: nat, problem: Problem, language: Language, w: World)
    requires w.setupOk && w.cleanupOk && language.command != []
    requires w.compile(SubstituteCommand(language.command, OutputPath(problem.id, jobId), SourcePath(problem.id, jobId))).CompileExited?
    requires forall i :: 0 <= i < |problem.cases| ==> TimesOut(problem.cases[i], OutputPath(problem.id, jobId), w)
    ensures Pipeline(jobId, problem, language, Progress(Queueing, Waiting, []), w)
         == RunOutcome(Completed, Progress(Finished, Accepted, []))
  {
    AllSkipped(problem.cases, OutputPath(problem.id, jobId), w, |problem.cases|);
  }

  lemma {:induction false} AllSkipped(specs: seq<CaseSpec>, artifact: string, w: World, k: nat)
    requires k <= |specs|
    requires forall i :: 0 <= i < k ==> TimesOut(specs[i], artifact, w)
    ensures Grade(specs, artifact, w, k) == Graded([])
  {
    if k > 0 {
      AllSkipped(specs, artifact, w, k - 1);
    }
  }

  /**
   * Running a job again adds the same records once more behind the previous
   * ones: the case list is not reset between runs.
   */
  lemma RerunAppendsAgain(jobId: nat, problem: Problem, language: Language, before: Progress, w: World)
    requires Pipeline(jobId, problem, language, before, w).status == Completed
    ensures var first := Pipeline(jobId, problem, language, before, w).after;
      var second := Pipeline(jobId, problem, language, first, w);
      && second.status == Completed
      && second.after.cases == first.cases + first.cases[|before.cases|..]
  {
  }

  // ----- Scenarios -----

  /** The answer file of every case holds exactly its input. */
  predicate AnswersEchoInputs(specs: seq<CaseSpec>, files: map<string, string>)
  {
    forall i :: 0 <= i < |specs| ==>
      specs[i].inputFile in files && specs[i].answerFile in files && files[specs[i].answerFile] == files[specs[i].inputFile]
  }

  /**
   * A program that copies its input to its output, on a problem whose answers
   * are its inputs: every case is accepted and so is the job.
   */
  lemma EchoSubmissionAccepted(jobId: nat, problem: Problem, language: Language, w: World)
    requires w.setupOk && w.cleanupOk && language.command != []
    requires w.compile(SubstituteCommand(language.command, OutputPath(problem.id, jobId), SourcePath(problem.id, jobId))) == CompileExited(true)
    requires forall stdin, limit :: w.execute(OutputPath(problem.id, jobId), stdin, limit) == Exited(stdin)
    requires AnswersEchoInputs(problem.cases, w.files)
    ensures var out := Pipeline(jobId, problem, language, Progress(Queueing, Waiting, []), w);
      && out.status == Completed && out.after.state == Finished && out.after.result == Accepted
      && |out.after.cases| == |problem.cases|
      && forall i :: 0 <= i < |problem.cases| ==> out.after.cases[i].id == i && out.after.cases[i].result == Accepted
  {
    var artifact := OutputPath(problem.id, jobId);
    EchoGrade(problem.cases, artifact, w, |problem.cases|);
  }

  lemma {:induction false} EchoGrade(specs: seq<CaseSpec>, artifact: string, w: World, k: nat)
    requires k <= |specs|
    requires forall stdin, limit :: w.execute(artifact, stdin, limit) == Exited(stdin)
    requires AnswersEchoInputs(specs, w.files)
    ensures var g := Grade(specs, artifact, w, k);
      && g.Graded? && |g.recorded| == k
      && forall i :: 0 <= i < k ==> g.recorded[i].id == i && g.recorded[i].result == Accepted
  {
    if k > 0 {
      EchoGrade(specs, artifact, w, k - 1);
      var spec := specs[k - 1];
      assert w.execute(artifact, w.files[spec.inputFile], spec.timeLimit) == Exited(w.files[spec.inputFile]);
    }
  }

  /**
   * A program that always prints "0", on a problem with at least one case and
   * no answer "0": every case is a wrong answer and so is the job.
   */
  lemma ConstantOutputWrongAnswer(jobId: nat, problem: Problem, language: Language, w: World)
    requires w.setupOk && w.cleanupOk && language.command != [] && problem.cases != []
    requires w.compile(SubstituteCommand(language.command, OutputPath(problem.id, jobId), SourcePath(problem.id, jobId))) == CompileExited(true)
    requires forall stdin, limit :: w.execute(OutputPath(problem.id, jobId), stdin, limit) == Exited("0")
    requires forall i :: 0 <= i < |problem.cases| ==>
      problem.cases[i].inputFile in w.files && problem.cases[i].answerFile in w.files && w.files[problem.cases[i].answerFile] != "0"
    ensures var out := Pipeline(jobId, problem, language, Progress(Queueing, Waiting, []), w);
      && out.status == Completed && out.after.state == Finished && out.after.result == WrongAnswer
      && |out.after.cases| == |problem.cases|
      && forall i :: 0 <= i < |problem.cases| ==> out.after.cases[i].result == WrongAnswer
  {
    ZeroGrade(problem.cases, OutputPath(problem.id, jobId), w, |problem.cases|);
    var out := Pipeline(jobId, problem, language, Progress(Queueing, Waiting, []), w);
    assert out.after.cases[0].result == WrongAnswer;
  }

  lemma {:induction false} ZeroGrade(specs: seq<CaseSpec>, artifact: string, w: World, k: nat)
    requires k <= |specs|
    requires forall stdin, limit :: w.execute(artifact, stdin, limit) == Exited("0")
    requires forall i :: 0 <= i < |specs| ==>
      specs[i].inputFile in w.files && specs[i].answerFile in w.files && w.files[specs[i].answerFile] != "0"
    ensures var g := Grade(specs, artifact, w, k);
      && g.Graded? && |g.recorded| == k
      && forall i :: 0 <= i < k ==> g.recorded[i].result == WrongAnswer
  {
    if k > 0 {
      ZeroGrade(specs, artifact, w, k - 1);
      var spec := specs[k - 1];
      assert w.execute(artifact, w.files[spec.inputFile], spec.timeLimit) == Exited("0");
    }
  }
}
