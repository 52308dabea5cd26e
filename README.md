# rs_oj grading core, modelled in Dafny

rs_oj is a small online judge. A client posts a submission (source code, a language name and a problem id). The service resolves the problem and the language in its catalogue and creates a job with the next id from a global counter. It then stages the source in a scratch directory, builds it with the language's command template, and runs the executable on every test case of the problem under that case's time limit. It compares each captured output with the expected answer and sets an overall verdict.

This project models three parts of that service:

- **Jobs and their pipeline** (`model.dfy`, module `Model`, for `src/model/mod.rs`). It covers the id counter, the `Job` object and the state and result machine of `run` with its per-case loop. It also covers `system_error`, the three scratch paths and the `%OUTPUT%`/`%INPUT%` substitution in the command template. The operating system is replaced by a `World` value. `World` says whether staging the files succeeds, what a build command does, what the program prints (or whether it times out or fails) for a given input and time limit, which files can be read and with what contents, and whether cleanup succeeds. With the world fixed, a run is deterministic. `Model.Pipeline` is the function that `Job.Run` is proved equal to. `model_properties.dfy` (module `ModelProperties`) proves what a run guarantees.
- **The job-list filter** (`request.dfy`, module `Request`, for `src/model/request.rs`). It is modelled as written, including the upper-bound test that reads `from` instead of `to`.
- **Submission handling** (`jobs.dfy`, module `Jobs`, for `src/controller/jobs.rs`). This is the first-match catalogue lookups, the client error for an unknown problem or language, job creation, running, and turning a failed run into a system error. The other four handlers are stubs that return an empty body, and they are modelled that way. `put_job_by_id` and `delete_job_by_id` are never registered with the server (src/main.rs:45-47); the model covers the handler functions.

`config.dfy` holds the catalogue records of `src/model/config.rs`. `text.dfy` holds Rust's `str::replace` and decimal formatting of unsigned integers. `wrappers.dfy` holds `Option`.

Four behaviours of the code worth knowing:

- A build that exits with failure does not stop grading. The cases are still run and the build verdict is overwritten by the aggregate verdict (`BuildFailureDoesNotShortCircuit`). In practice a failed build leaves no executable, so running the first case fails (and, when the problem has no cases, removing the artifact fails). The run then ends in an I/O error, and the job becomes `Canceled`/`SystemError` (`MissingArtifactEndsInFault`).
- A timed-out case is killed and not recorded. No `TimeLimitExceeded` result is ever stored.
- A run never clears the case list. Running a job again appends to the earlier results (`RerunAppendsAgain`). No job registry, listing, lookup, re-run or delete exists in the code.
- The source file always gets the extension `.rs`, whatever the language's `file_name`.

## Model

| member | source | states |
|---|---|---|
| `Model.IdCounter.constructor` | src/main.rs:19 | The job-id counter starts at 0. |
| `Model.Job.constructor` | src/model/mod.rs:42-54 | A new job's id is the counter's old value and the counter goes up by one, so successive ids are 0, 1, 2, … and strictly increasing. The job keeps the given submission, problem and language. It is `Queueing`/`Waiting` with no cases and both timestamps set to the creation time. |
| `Model.Job.Run` | src/model/mod.rs:56-138 | The status returned and the job's new state, result and case list are exactly `Pipeline` applied to the job's id, problem and language, its previous state, result and cases, and the world. |
| `Model.MarkSystemError` | src/model/mod.rs:140-143 | The job's progress after `system_error`, which the handler applies to a failed run (src/controller/jobs.rs:40-42): `Canceled`/`SystemError`, cases kept. |
| `Model.Job.SystemError` | src/model/mod.rs:140-143 | The job's state, result and cases become `MarkSystemError` of what they were: `Canceled`, `SystemError`, cases unchanged. Every other field is constant. |
| `Model.SourcePath` | src/model/mod.rs:153-155 | `./problem/<problem id>/source/<job id>.rs`, ids in decimal; one-to-one by `ModelProperties.SourcePathInjective`. |
| `Model.OutputPath` | src/model/mod.rs:157-159 | `./problem/<problem id>/output/<job id>`, where the executable is built; one-to-one by `ModelProperties.OutputPathInjective`. |
| `Model.InputPath` | src/model/mod.rs:161-163 | `./problem/<problem id>/input/<job id>.txt`, where the program's output is captured; one-to-one by `ModelProperties.InputPathInjective`. |
| `Model.NewCase` | src/model/mod.rs:166-176 | The fresh record for case position `id`: `Waiting`, zero time and memory, empty info. |
| `Model.CaseStep` | src/model/mod.rs:103-126 | One case: an unreadable input file or a process error is a fault that aborts the run; a timeout records nothing; an exit records the case as `Accepted` when the captured output equals the answer file and `WrongAnswer` otherwise, an unreadable answer file being a fault. |
| `Model.Grade` | src/model/mod.rs:127-129 | The cases graded in order, stopping at the first fault; its properties are `FaultIsFinal`, `ModelProperties.GradeRecords` and `ModelProperties.GradedIffNoFault`. |
| `Model.AllAccepted` | src/model/mod.rs:130 | Every recorded case is `Accepted`; true of an empty list. |
| `Model.Aggregate` | src/model/mod.rs:130-134 | `Accepted` when every recorded case is, `WrongAnswer` otherwise (vacuously `Accepted` with no cases); see `ModelProperties.CompletedRunVerdict`. |
| `Model.Pipeline` | src/model/mod.rs:56-138 | A run panics exactly when staging succeeds and the command template is empty (`cmd[0]` at line 93), and a completed run leaves the job `Finished`. It is the specification `Job.Run` is proved against. |
| `Model.SubstituteToken` | src/model/mod.rs:89-90 | One token of the build command: `%OUTPUT%` replaced by the artifact path, then `%INPUT%` by the source path; see `ModelProperties.PlainTokenUnchanged`, `ModelProperties.PlaceholdersBecomeJobPaths` and `ModelProperties.PlaceholderAfterPrefix`. |
| `Model.SubstituteCommand` | src/model/mod.rs:86-91 | The build command has as many tokens as the template. Each token has `%OUTPUT%` replaced first and `%INPUT%` second. |
| `Model.FaultIsFinal` | src/model/mod.rs:127-129 | Once a case fails with an I/O error, later cases are not graded and the records stay as they were. |
| `ModelProperties.SourcePathInjective` | src/model/mod.rs:153-155 | Equal source paths imply equal problem ids and equal job ids. |
| `ModelProperties.OutputPathInjective` | src/model/mod.rs:157-159 | Equal artifact paths imply equal problem ids and equal job ids. |
| `ModelProperties.InputPathInjective` | src/model/mod.rs:161-163 | Equal captured-output paths imply equal problem ids and equal job ids. |
| `ModelProperties.ScratchPathsDistinct` | src/model/mod.rs:153-163 | A source path, an artifact path and a captured-output path are never equal, for any problem and job ids. |
| `ModelProperties.PlainTokenUnchanged` | src/model/mod.rs:86-91 | A token containing neither placeholder is passed to the build command unchanged. |
| `ModelProperties.PlaceholdersBecomeJobPaths` | src/model/mod.rs:85-101 | For a job's own paths, the token `%OUTPUT%` becomes the artifact path and `%INPUT%` becomes the source path. |
| `ModelProperties.PlaceholderAfterPrefix` | src/model/mod.rs:86-91 | A placeholder inside a token after a prefix without '%' (such as `-o%OUTPUT%`) is replaced in place by the job's artifact or source path, and the prefix is kept. |
| `ModelProperties.BuildCommandShape` | src/model/mod.rs:86-91 | The job's build command keeps the template's length. Placeholder tokens become the job's paths and tokens without placeholders are unchanged. |
| `ModelProperties.GradeRecords` | src/model/mod.rs:103-129 | Grading k cases records at most k results. Each record is the one its own case produced, and the case positions are strictly increasing and below k. Conversely, when no case faults, every case whose program exits in time and whose files can be read is recorded. |
| `ModelProperties.GradedIffNoFault` | src/model/mod.rs:103-129 | Grading reaches the end exactly when no case fails with an I/O error. |
| `ModelProperties.NoTimeoutRecordsEveryCase` | src/model/mod.rs:109-129 | If grading does not fail and no case times out, every case is recorded and the record at position m has id m. |
| `ModelProperties.TimeoutDropsCase` | src/model/mod.rs:109-116 | A case that times out has no record, so fewer results than cases are recorded. |
| `ModelProperties.SetupFaultLeavesJob` | src/model/mod.rs:58-80 | If staging the scratch files fails, the run ends in an I/O error and the job is left exactly as it was. |
| `ModelProperties.FailedRunProgress` | src/model/mod.rs:83-136 | With staging done and a non-empty template: a build that cannot be spawned ends in an I/O error with the job `Running`/`Running` (set at lines 83-84) and its cases unchanged. A job still `Running` after an exited build stopped at a case fault, with the build verdict as its result. Any I/O error leaves the job `Running`, or `Finished` only when cleanup failed. |
| `ModelProperties.RunAppendsCases` | src/model/mod.rs:56-138 | A run keeps the earlier case results in front and adds at most one result per problem case behind them. |
| `ModelProperties.AddedCasesAreExactComparisons` | src/model/mod.rs:117-124 | Every added result belongs to a case whose program exited in time, and case positions increase in problem order. Each has zero time and memory and empty info, as `Case::new` sets them (src/model/mod.rs:166-176). It is `Accepted` exactly when the captured output equals the answer file's contents, and `WrongAnswer` otherwise. |
| `ModelProperties.ExitedCasesAreRecorded` | src/model/mod.rs:117-129 | When a run completes, every case whose program exits in time and whose files can be read has its result among the ones the run added, whatever other cases timed out. |
| `ModelProperties.CompletedRunVerdict` | src/model/mod.rs:130-135 | When a run completes, the job is `Finished`. The result is `Accepted` exactly when every recorded case is accepted, earlier runs' cases included, and `WrongAnswer` otherwise. |
| `ModelProperties.CompletedRunCaseCount` | src/model/mod.rs:109-129 | When a run completes, it added exactly one result per problem case if and only if no case timed out. |
| `ModelProperties.BuildFailureDoesNotShortCircuit` | src/model/mod.rs:101-134 | A run whose build fails grades the same cases and returns the same status as one whose build succeeds. When the run completes, the two end identically. |
| `ModelProperties.MissingArtifactEndsInFault` | src/model/mod.rs:101-149 | If the build fails and leaves no executable, so that running it fails, the run ends in an I/O error: at the first case when the problem has cases (line 104-108), at cleanup otherwise (line 148). |
| `ModelProperties.AllTimeoutsAccepted` | src/model/mod.rs:111-135 | On a new job where every case times out, the run completes with no case results and the verdict `Accepted`. |
| `ModelProperties.RerunAppendsAgain` | src/model/mod.rs:56-138 | Running a completed job again in the same world completes again and appends the same results a second time. |
| `ModelProperties.EchoSubmissionAccepted` | src/model/mod.rs:101-135 | A program that copies its input, on a problem whose answers are its inputs, has every case accepted in order and the job `Accepted`. |
| `ModelProperties.ConstantOutputWrongAnswer` | src/model/mod.rs:101-135 | A program that always prints "0", on a problem with cases whose answers are not "0", has every case and the job `WrongAnswer`. |
| `Text.Replace` | src/model/mod.rs:89-90 | Rust's `str::replace` for a non-empty pattern: occurrences found left to right without overlap are each replaced; see `Text.ReplaceWithoutOccurrence` and `Text.ReplaceWholePattern`. |
| `Text.NatToString` | src/model/mod.rs:153-163 | The decimal rendering `format!("{}")` gives an id: non-empty, digits only, no leading zero; read back by `Text.NatToStringRoundTrip`. |
| `Text.ReplaceWithoutOccurrence` | src/model/mod.rs:89-90 | `replace` leaves a string without the pattern unchanged. |
| `Text.ReplaceAfterPrefix` | src/model/mod.rs:89-90 | Text before the first occurrence of the pattern is copied, that occurrence becomes the replacement, and the rest of the string is replaced in the same way. |
| `Text.ReplaceWholePattern` | src/model/mod.rs:89-90 | A string equal to the pattern becomes exactly the replacement. |
| `Text.OccursIffSomePosition` | src/model/mod.rs:89-90 | The recursive occurrence test holds exactly when the pattern starts at some position of the string. |
| `Text.NatToStringRoundTrip` | src/model/mod.rs:153-163 | Reading back the decimal rendering of an id gives the id. |
| `Text.NatToStringInjective` | src/model/mod.rs:153-163 | Different ids render as different strings. |
| `Request.MatchesOne` | src/model/request.rs:43-48 | An unset field accepts anything, a set one only its own value; see `Request.MatchesOneUnset` and `Request.MatchesOneSet`. |
| `Request.MatchesTime` | src/model/request.rs:33-41 | The creation-time check as written, with line 37 reading `from`; characterised by `Request.MatchesTimeIsExactFrom` and `Request.MatchesTimeIgnoresTo`. |
| `Request.Matches` | src/model/request.rs:25-31 | The filter on a job: the four field checks and the time check, all of them; see `Request.MatchesIsConjunction`. |
| `Request.MatchesTimeWindow` | src/model/request.rs:33-41 | The intended time check: `from` and `to` both inclusive; see `Request.WindowIsInterval` and `Request.WindowBounds`. |
| `Request.MatchesOneUnset` | src/model/request.rs:43-48 | An unset filter field accepts every value. |
| `Request.MatchesOneSet` | src/model/request.rs:44-46 | A set filter field accepts exactly its own value. |
| `Request.MatchesIsConjunction` | src/model/request.rs:25-31 | A job matches exactly when its problem id, language name, state, result and creation time all pass. A filter with every field unset matches every job. |
| `Request.CreatedBeforeFromRejected` | src/model/request.rs:34-36 | A job created strictly before `from` is rejected, so the lower bound is inclusive. |
| `Request.MatchesTimeIsExactFrom` | src/model/request.rs:33-41 | As written, the time check holds exactly when `from` is unset or equals the creation time. |
| `Request.MatchesTimeIgnoresTo` | src/model/request.rs:37-40 | As written, changing `to` never changes the time check. |
| `Request.AsWrittenIsWindowUpToFrom` | src/model/request.rs:33-41 | The check as written equals the intended window with `to` replaced by `from`. |
| `Request.AsWrittenMisjudgesWindow` | src/model/request.rs:37-40 | With `from` 1 and `to` 10, time 5 is rejected although it lies inside the window. With only `to` 3, time 10 is accepted although it lies after the window. |
| `Request.WindowIsInterval` | src/model/request.rs:33-41 | The corrected window accepts every time that lies between two times it accepts. |
| `Request.WindowBounds` | src/model/request.rs:33-41 | With both bounds set, the corrected window accepts exactly the times from `from` to `to`, inclusive. |
| `Jobs.FindProblem` | src/controller/jobs.rs:23-28 | No problem is found exactly when no catalogue problem has the id. A found problem is the first one in catalogue order with that id. |
| `Jobs.FindLanguage` | src/controller/jobs.rs:30-35 | No language is found exactly when no catalogue language has the name. A found language is the first one in catalogue order with that name. |
| `Jobs.LookupProblem` | src/controller/jobs.rs:23-28 | The linear search with early exit returns the first problem with the requested id, as `FindProblem` specifies. |
| `Jobs.LookupLanguage` | src/controller/jobs.rs:30-35 | The linear search with early exit returns the first language with the requested name, as `FindLanguage` specifies. |
| `Jobs.PostJob` | src/controller/jobs.rs:12-58 | An unknown problem or language gives the client error "the problem does not exist!" and leaves the counter unchanged. Otherwise the counter goes up by one and a fresh job with the old counter value as its id is created from the first-match problem and language, with both timestamps set to the request time. The handler aborts exactly when the run panics. Otherwise it always answers `Ok` with that job, which holds what the run produced, or that outcome marked `Canceled`/`SystemError` when the run failed with an I/O error. |
| `Jobs.GetJobs` | src/controller/jobs.rs:60-63 | Always answers with an empty body and changes nothing. |
| `Jobs.GetJobById` | src/controller/jobs.rs:65-68 | Always answers with an empty body and changes nothing. |
| `Jobs.PutJobById` | src/controller/jobs.rs:70-73 | Always answers with an empty body and changes nothing. The server never registers this handler. |
| `Jobs.DeleteJobById` | src/controller/jobs.rs:75-78 | Always answers with an empty body and changes nothing. The server never registers this handler. |

## Findings

| source | as written | input that shows it | evidently intended | confidence | as-written member | corrected member |
|---|---|---|---|---|---|---|
| src/model/request.rs:37-40 | The upper-bound test reads `self.from`, so `to` is ignored and a set `from` admits only jobs created exactly at `from`. | `from` = 1, `to` = 10, job created at 5: rejected. `from` unset, `to` = 3, job created at 10: accepted. | `if let Some(to) = self.to`, so that `from` and `to` form an inclusive window. | high; not executed | `Request.MatchesTime` (`Request.AsWrittenMisjudgesWindow`) | `Request.MatchesTimeWindow` (`Request.WindowIsInterval`, `Request.WindowBounds`) |

`Request.Matches` keeps the as-written time check because it models the code. Nothing in the service calls it, because the list handler is a stub.

## Left out

- File and process operations are not modelled: creating directories and files, writing the source, spawning the build and the program, waiting with a timeout, killing, and reading and removing files. The `World` value stands for them: `setupOk`, `compile`, `execute`, `files` and `cleanupOk`. A real program may behave differently on two runs with the same input; `execute` is a function of the artifact path, the input and the time limit.
- The timeout is not measured. Whether a program outruns its time limit (microseconds) is the `execute` oracle's answer.
- The mutexes, `lazy_static` globals and concurrent requests are not modelled. The id counter is a plain `IdCounter` object passed to the handler. The unused `JOB_LIST` is not modelled, and neither is any registry.
- `Utc::now()` is a parameter `now`. The source reads the clock twice, so creation and update times can differ by nanoseconds. The model gives both the same value.
- Model.Job.constructor: ids, case positions and problem ids are unbounded naturals. The u32 overflow of `id + 1` after 2^32 jobs and the `index as u32` truncation are not modelled.
- Text.Replace: it requires a non-empty pattern. The source only replaces the two literal placeholders, so Rust's behaviour for an empty pattern is not modelled.
- Reading a file that is not valid UTF-8 fails in `read_to_string`. This is not modelled separately; file contents are strings in `World.files`.
- When the command template is empty, indexing `cmd[0]` panics. The model returns `Panicked` from the run and `Aborted` from the handler. What the HTTP server does with the panic is not modelled.
- The HTTP routing, the CLI, configuration loading, the `BaseResponse` envelope (`error_code` 0 or 400), the `AppError` display text and the serde display names of the verdicts are not modelled.
- The configuration's `score` (a float), `memory_limit` (never used) and `server` address are not modelled. The language's `file_name` is kept but the source never reads it.
