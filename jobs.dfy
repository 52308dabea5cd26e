/**
 * The job handlers (src/controller/jobs.rs). Only submission does anything:
 * it looks the problem and the language up in the catalogue, creates a job and
 * runs it. The other four handlers answer with an empty body; of those, the
 * server registers only the two GET handlers (src/main.rs:45-47), so the PUT
 * and DELETE handlers are never reached.
 */
module Jobs {
  import opened Wrappers
  import opened Config
  import opened Model
  import opened Request

  /** The answer to a submission: the job, a client error, or nothing at all when the handler panics. */
  datatype Response = Ok(job: Job) | BadRequest(message: string) | Aborted

  const UnknownProblem := "the problem does not exist!"

  /** Position `k` holds the first problem in catalogue order whose id is `problemId`. */
  ghost predicate FirstProblemAt(problems: seq<Problem>, problemId: nat, k: int)
  {
    0 <= k < |problems| && problems[k].id == problemId && forall j :: 0 <= j < k ==> problems[j].id != problemId
  }

  /** Position `k` holds the first language in catalogue order whose name is `name`. */
  ghost predicate FirstLanguageAt(languages: seq<Language>, name: string, k: int)
  {
    0 <= k < |languages| && languages[k].name == name && forall j :: 0 <= j < k ==> languages[j].name != name
  }

  /** The first problem in catalogue order whose id is `problemId`. */
  function FindProblem(problems: seq<Problem>, problemId: nat): (found: Option<Problem>)
    ensures found.None? <==> forall k :: 0 <= k < |problems| ==> problems[k].id != problemId
    ensures found.Some? ==> exists k :: FirstProblemAt(problems, problemId, k) && problems[k] == found.value
  {
    if problems == [] then None
    else if problems[0].id == problemId then
      assert FirstProblemAt(problems, problemId, 0);
      Some(problems[0])
    else
      var rest := FindProblem(problems[1..], problemId);
      assert rest.Some? ==> exists k :: FirstProblemAt(problems, problemId, k) && problems[k] == rest.value by {
        if rest.Some? {
          var k :| FirstProblemAt(problems[1..], problemId, k) && problems[1..][k] == rest.value;
          assert FirstProblemAt(problems, problemId, k + 1);
        }
      }
      rest
  }

  /** The first language in catalogue order whose name is `name`. */
  function FindLanguage(languages: seq<Language>, name: string): (found: Option<Language>)
    ensures found.None? <==> forall k :: 0 <= k < |languages| ==> languages[k].name != name
    ensures found.Some? ==> exists k :: FirstLanguageAt(languages, name, k) && languages[k] == found.value
  {
    if languages == [] then None
    else if languages[0].name == name then
      assert FirstLanguageAt(languages, name, 0);
      Some(languages[0])
    else
      var rest := FindLanguage(languages[1..], name);
      assert rest.Some? ==> exists k :: FirstLanguageAt(languages, name, k) && languages[k] == rest.value by {
        if rest.Some? {
          var k :| FirstLanguageAt(languages[1..], name, k) && languages[1..][k] == rest.value;
          assert FirstLanguageAt(languages, name, k + 1);
        }
      }
      rest
  }

  /** The linear search of the catalogue's problems, stopping at the first match. */
  method LookupProblem(problems: seq<Problem>, problemId: nat) returns (found: Option<Problem>)
    ensures found == FindProblem(problems, problemId)
  {
    found := None;
    for i := 0 to |problems|
      invariant FindProblem(problems, problemId) == FindProblem(problems[i..], problemId)
    {
      assert problems[i..][1..] == problems[i + 1..];
      if problems[i].id == problemId {
        found := Some(problems[i]);
        return;
      }
    }
  }

  /** The linear search of the catalogue's languages, stopping at the first match. */
  method LookupLanguage(languages: seq<Language>, name: string) returns (found: Option<Language>)
    ensures found == FindLanguage(languages, name)
  {
    found := None;
    for i := 0 to |languages|
      invariant FindLanguage(languages, name) == FindLanguage(languages[i..], name)
    {
      assert languages[i..][1..] == languages[i + 1..];
      if languages[i].name == name {
        found := Some(languages[i]);
        return;
      }
    }
  }

  /**
   * POST /jobs: resolve the problem and the language; if either is unknown,
   * answer with a client error and create no job. Otherwise create the job,
   * run it, mark it as a system error if the run failed, and return it.
   */
  method PostJob(config: Config, ids: IdCounter, params: PostJobParams, now: int, w: World) returns (response: Response)
    modifies ids
    ensures var problem := FindProblem(config.problems, params.problemId);
      var language := FindLanguage(config.languages, params.language);
      if problem.None? || language.None? then
        response == BadRequest(UnknownProblem) && ids.next == old(ids.next)
      else
        var out := Pipeline(old(ids.next), problem.value, language.value, Progress(Queueing, Waiting, []), w);
        && ids.next == old(ids.next) + 1
        && (out.status == Panicked <==> response.Aborted?)
        && (out.status != Panicked ==>
              && response.Ok?
              && fresh(response.job)
              && response.job.id == old(ids.next)
              && response.job.params == params
              && response.job.problem == problem.value
              && response.job.language == language.value
              && response.job.createdTime == now && response.job.updatedTime == now
              && response.job.Current() == if out.status == Completed then out.after else MarkSystemError(out.after))
  {
    var problem := LookupProblem(config.problems, params.problemId);
    var language := LookupLanguage(config.languages, params.language);
    if problem.None? || language.None? {
      return BadRequest(UnknownProblem);
    }
    var job := new Job(params, problem.value, language.value, ids, now);
    var status := job.Run(w);
    if status == Panicked {
      return Aborted;
    }
    if status == IoFault {
      job.SystemError();
    }
    return Ok(job);
  }

  /** The GET /jobs handler: not implemented; always an empty body. */
  method GetJobs(query: QueryJobParams, config: Config) returns (body: string)
    ensures body == ""
  {
    body := "";
  }

  /** The GET /jobs/{jobId} handler: not implemented; always an empty body. */
  method GetJobById(jobId: int, config: Config) returns (body: string)
    ensures body == ""
  {
    body := "";
  }

  /** The PUT /jobs/{jobId} handler: not implemented; always an empty body. The server never registers it. */
  method PutJobById(jobId: int, config: Config) returns (body: string)
    ensures body == ""
  {
    body := "";
  }

  /** The DELETE /jobs/{jobId} handler: not implemented; always an empty body. The server never registers it. */
  method DeleteJobById(jobId: int, config: Config) returns (body: string)
    ensures body == ""
  {
    body := "";
  }
}
