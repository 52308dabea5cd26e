/**
 * Jobs and their grading pipeline (src/model/mod.rs).
 *
 * The file system, the compiler and the submitted program are not modelled
 * directly: a `World` value answers every question the pipeline asks of them.
 * With the world fixed, a run is deterministic, and `Pipeline` is the function
 * that says what `Job.Run` leaves behind.
 */
module Model {
  import opened Text
  import opened Config

  datatype State = Queueing | Running | Finished | Canceled

  datatype RunResult =
    | Waiting
    | Running
    | Accepted
    | CompilationError
    | CompilationSuccess
    | WrongAnswer
    | RuntimeError
    | TimeLimitExceeded
    | MemoryLimitExceeded
    | SystemError
    | SpjError
    | Skipped

  /** The verdict recorded for one test case. */
  datatype CaseResult = CaseResult(id: nat, result: RunResult, time: nat, memory: nat, info: string)

  /** The body of a submission (src/model/request.rs). */
  datatype PostJobParams = PostJobParams(sourceCode: string, language: string, problemId: nat)

  /** A fresh case record for the case at position `id`: still waiting, no time, no memory, no message. */
  function NewCase(id: nat): CaseResult
  {
    CaseResult(id, Waiting, 0, 0, "")
  }

  // ----- Scratch paths -----

  const ProblemRoot := "./problem/"

  /** Where the submitted source is written. The extension is always `.rs`, whatever the language. */
  function SourcePath(problemId: nat, jobId: nat): string
  {
    ProblemRoot + NatToString(problemId) + "/source/" + NatToString(jobId) + ".rs"
  }

  /** Where the compiler is told to put the executable. */
  function OutputPath(problemId: nat, jobId: nat): string
  {
    ProblemRoot + NatToString(problemId) + "/output/" + NatToString(jobId)
  }

  /** Where the program's standard output is captured. */
  function InputPath(problemId: nat, jobId: nat): string
  {
    ProblemRoot + NatToString(problemId) + "/input/" + NatToString(jobId) + ".txt"
  }

  // ----- Command template -----

  const OutputPlaceholder := "%OUTPUT%"
  const InputPlaceholder := "%INPUT%"

  /** One token of the build command: `%OUTPUT%` is replaced first, then `%INPUT%`. */
  function SubstituteToken(token: string, output: string, input: string): string
  {
    Replace(Replace(token, OutputPlaceholder, output), InputPlaceholder, input)
  }

  /** The build command with its placeholders filled in, token by token. */
  function SubstituteCommand(command: seq<string>, output: string, input: string): (cmd: seq<string>)
    ensures |cmd| == |command|
    ensures forall i :: 0 <= i < |command| ==> cmd[i] == SubstituteToken(command[i], output, input)
  {
    if command == [] then []
    else [SubstituteToken(command[0], output, input)] + SubstituteCommand(command[1..], output, input)
  }

  // ----- The outside world -----

  /** What happens to the build process: it exits (successfully or not) or an I/O error occurs. */
  datatype CompileOutcome = CompileExited(success: bool) | CompileFault

  /**
   * What happens to one run of the submitted program: it is still running when
   * the time limit elapses (and is killed), it exits with what it printed, or
   * creating, spawning, waiting for or killing the process fails.
   */
  datatype CaseOutcome = TimedOut | Exited(stdout: string) | ProcessFault

  /**
   * The answers the pipeline gets from the operating system.
   * `setupOk`: the scratch directories and files are created and the source written.
   * `compile`: the outcome of running a build command.
   * `execute`: the outcome of running the artifact at a path on a given standard
   *   input with a given time limit.
   * `files`: the files that can be opened and read, with their contents.
   * `cleanupOk`: the three scratch files are all removed.
   */
  datatype World = World(
    setupOk: bool,
    compile: seq<string> -> CompileOutcome,
    execute: (string, string, nat) -> CaseOutcome,
    files: map<string, string>,
    cleanupOk: bool)

  // ----- The pipeline, as a function -----

  /** The fields of a job that a run changes. */
  datatype Progress = Progress(state: State, result: RunResult, cases: seq<CaseResult>)

  /** What `system_error` makes of a job's progress: canceled by a system error, cases kept. */
  function MarkSystemError(p: Progress): Progress
  {
    p.(state := State.Canceled, result := RunResult.SystemError)
  }

  /** How `run` returns: `Ok(())`, an I/O error, or a panic (indexing an empty command). */
  datatype RunStatus = Completed | IoFault | Panicked

  datatype RunOutcome = RunOutcome(status: RunStatus, after: Progress)

  /** What grading one case does: abort the run, record nothing, or record a case result. */
  datatype Step = Fault | Skip | Record(c: CaseResult)

  /**
   * Grading the case at position `index`: open its input file, run the artifact
   * on it; a timeout records nothing; otherwise the captured output is compared
   * with the answer file exactly.
   */
  function CaseStep(spec: CaseSpec, index: nat, artifact: string, w: World): Step
  {
    if spec.inputFile !in w.files then Fault
    else match w.execute(artifact, w.files[spec.inputFile], spec.timeLimit)
      case ProcessFault => Fault
      case TimedOut => Skip
      case Exited(stdout) =>
        if spec.answerFile !in w.files then Fault
        else Record(NewCase(index).(result := if stdout == w.files[spec.answerFile] then Accepted else WrongAnswer))
  }

  /** The result of grading the first `k` cases, in order: the records made, and whether a fault stopped it. */
  datatype Grading = Graded(recorded: seq<CaseResult>) | Faulted(recorded: seq<CaseResult>)

  function Grade(specs: seq<CaseSpec>, artifact: string, w: World, k: nat): Grading
    requires k <= |specs|
  {
    if k == 0 then Graded([])
    else
      var g := Grade(specs, artifact, w, k - 1);
      if g.Faulted? then g
      else match CaseStep(specs[k - 1], k - 1, artifact, w)
        case Fault => Faulted(g.recorded)
        case Skip => g
        case Record(c) => Graded(g.recorded + [c])
  }

  /** Once a fault has stopped grading, grading more cases changes nothing. */
  lemma {:induction false} FaultIsFinal(specs: seq<CaseSpec>, artifact: string, w: World, i: nat, n: nat)
    requires i <= n <= |specs|
    requires Grade(specs, artifact, w, i).Faulted?
    ensures Grade(specs, artifact, w, n) == Grade(specs, artifact, w, i)
    decreases n
  {
    if n > i {
      FaultIsFinal(specs, artifact, w, i, n - 1);
    }
  }

  predicate AllAccepted(cases: seq<CaseResult>)
  {
    forall i | 0 <= i < |cases| :: cases[i].result == Accepted
  }

  /** The overall verdict: accepted when every recorded case is, wrong answer otherwise. */
  function Aggregate(cases: seq<CaseResult>): RunResult
  {
    if AllAccepted(cases) then Accepted else WrongAnswer
  }

  /**
   * One run of the pipeline on job `jobId` for `problem` in `language`, starting
   * from `before`, in world `w`.
   */
  function Pipeline(jobId: nat, problem: Problem, language: Language, before: Progress, w: World): (r: RunOutcome)
    ensures r.status == Panicked <==> w.setupOk && language.command == []
    ensures r.status == Completed ==> r.after.state == Finished
  {
    var source := SourcePath(problem.id, jobId);
    var output := OutputPath(problem.id, jobId);
    if !w.setupOk then RunOutcome(IoFault, before)
    else
      var running := Progress(State.Running, RunResult.Running, before.cases);
      var cmd := SubstituteCommand(language.command, output, source);
      if cmd == [] then RunOutcome(Panicked, running)
      else match w.compile(cmd)
        case CompileFault => RunOutcome(IoFault, running)
        case CompileExited(success) =>
          var compiled := running.(result := if success then CompilationSuccess else CompilationError);
          var g := Grade(problem.cases, output, w, |problem.cases|);
          var all := before.cases + g.recorded;
          if g.Faulted? then RunOutcome(IoFault, compiled.(cases := all))
          else
            var finished := Progress(Finished, Aggregate(all), all);
            RunOutcome(if w.cleanupOk then Completed else IoFault, finished)
  }

  // ----- The ID counter and the job object -----

  /** The process-wide counter that hands out job ids; it starts at 0. */
  class IdCounter {
    var next: nat

    constructor ()
      ensures next == 0
    {
      next := 0;
    }
  }

  class Job {
    const id: nat
    const params: PostJobParams
    const language: Language
    const problem: Problem
    const createdTime: int
    const updatedTime: int
    var state: State
    var result: RunResult
    var cases: seq<CaseResult>

    function Current(): Progress
      reads this
    {
      Progress(state, result, cases)
    }

    /** A new job takes the counter's current value as its id and advances the counter by one. */
    constructor (params: PostJobParams, problem: Problem, language: Language, ids: IdCounter, now: int)
      modifies ids
      ensures id == old(ids.next) && ids.next == old(ids.next) + 1
      ensures this.params == params && this.problem == problem && this.language == language
      ensures createdTime == now && updatedTime == now
      ensures state == Queueing && result == Waiting && cases == []
    {
      id := ids.next;
      ids.next := ids.next + 1;
      this.params, this.problem, this.language := params, problem, language;
      createdTime, updatedTime := now, now;
      state, result, cases := Queueing, Waiting, [];
    }

    /** Stage the files, build, grade every case in order, and set the overall verdict. */
    method Run(w: World) returns (status: RunStatus)
      modifies this
      ensures RunOutcome(status, Current()) == Pipeline(id, problem, language, old(Current()), w)
    {
      var source := SourcePath(problem.id, id);
      var output := OutputPath(problem.id, id);
      if !w.setupOk {
        return IoFault;
      }
      result := RunResult.Running;
      state := State.Running;
      var cmd := SubstituteCommand(language.command, output, source);
      if cmd == [] {
        return Panicked;
      }
      match w.compile(cmd) {
        case CompileFault =>
          return IoFault;
        case CompileExited(success) =>
          result := if success then CompilationSuccess else CompilationError;
      }
      ghost var before := old(cases);
      ghost var compiled := result;
      for index := 0 to |problem.cases|
        invariant Grade(problem.cases, output, w, index).Graded?
        invariant cases == before + Grade(problem.cases, output, w, index).recorded
        invariant state == State.Running && result == compiled
      {
        match CaseStep(problem.cases[index], index, output, w) {
          case Fault =>
            FaultIsFinal(problem.cases, output, w, index + 1, |problem.cases|);
            return IoFault;
          case Skip =>
          case Record(c) =>
            cases := cases + [c];
        }
      }
      result := if AllAccepted(cases) then Accepted else WrongAnswer;
      state := Finished;
      if !w.cleanupOk {
        return IoFault;
      }
      return Completed;
    }

    /** Mark the job as canceled by an infrastructure fault; nothing else changes. */
    method SystemError()
      modifies this
      ensures Current() == MarkSystemError(old(Current()))
    {
      state := Canceled;
      result := RunResult.SystemError;
    }
  }
}
