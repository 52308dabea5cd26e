/**
 * The job-list filter (src/model/request.rs). Every field is optional and the
 * fields are combined by conjunction. Timestamps are integers.
 */
module Request {
  import opened Wrappers
  import opened Model

  datatype QueryJobParams = QueryJobParams(
    problemId: Option<nat>,
    language: Option<string>,
    from: Option<int>,
    to: Option<int>,
    state: Option<State>,
    result: Option<RunResult>)

  /** An unset option accepts every value; a set one accepts only its own value. */
  function MatchesOne<T(==)>(option: Option<T>, value: T): bool
  {
    match option
    case Some(v) => v == value
    case None => true
  }

  /**
   * The creation-time check as the source writes it: the second test, meant
   * for the upper bound, reads `from` again, so `to` plays no part.
   */
  function MatchesTime(q: QueryJobParams, createdTime: int): bool
  {
    if q.from.Some? && q.from.value > createdTime then false
    else if q.from.Some? && q.from.value < createdTime then false
    else true
  }

  /** Whether `job` passes every set field of the filter. */
  function Matches(q: QueryJobParams, job: Job): bool
    reads job
  {
    && MatchesOne(q.problemId, job.problem.id)
    && MatchesOne(q.language, job.language.name)
    && MatchesOne(q.state, job.state)
    && MatchesOne(q.result, job.result)
    && MatchesTime(q, job.createdTime)
  }

  /** The creation-time window the filter was meant to apply: `from` and `to`, both inclusive. */
  function MatchesTimeWindow(q: QueryJobParams, createdTime: int): bool
  {
    && (q.from.None? || q.from.value <= createdTime)
    && (q.to.None? || createdTime <= q.to.value)
  }

  lemma MatchesOneUnset<T>(value: T)
    ensures MatchesOne(None, value)
  {
  }

  lemma MatchesOneSet<T>(v: T, value: T)
    ensures MatchesOne(Some(v), value) <==> v == value
  {
  }

  /** The filter is the conjunction of its five checks, and with every field unset it accepts any job. */
  lemma MatchesIsConjunction(q: QueryJobParams, job: Job)
    ensures Matches(q, job) <==>
      && (q.problemId.None? || q.problemId.value == job.problem.id)
      && (q.language.None? || q.language.value == job.language.name)
      && (q.state.None? || q.state.value == job.state)
      && (q.result.None? || q.result.value == job.result)
      && MatchesTime(q, job.createdTime)
    ensures q == QueryJobParams(None, None, None, None, None, None) ==> Matches(q, job)
  {
  }

  /** The lower bound is inclusive: a job created strictly before `from` is rejected. */
  lemma CreatedBeforeFromRejected(q: QueryJobParams, createdTime: int)
    requires q.from.Some? && createdTime < q.from.value
    ensures !MatchesTime(q, createdTime)
  {
  }

  /** As written, the time check holds exactly when `from` is unset or equals the creation time. */
  lemma MatchesTimeIsExactFrom(q: QueryJobParams, createdTime: int)
    ensures MatchesTime(q, createdTime) <==> (q.from.None? || q.from.value == createdTime)
  {
  }

  /** As written, `to` is never consulted. */
  lemma MatchesTimeIgnoresTo(q: QueryJobParams, createdTime: int, to: Option<int>)
    ensures MatchesTime(q.(to := to), createdTime) == MatchesTime(q, createdTime)
  {
  }

  /** The check as written is the intended window with `to` replaced by `from`. */
  lemma AsWrittenIsWindowUpToFrom(q: QueryJobParams, createdTime: int)
    ensures MatchesTime(q, createdTime) == MatchesTimeWindow(q.(to := q.from), createdTime)
  {
  }

  /** Two inputs on which the check as written disagrees with the intended window. */
  lemma AsWrittenMisjudgesWindow()
    ensures var inside := QueryJobParams(None, None, Some(1), Some(10), None, None);
      MatchesTimeWindow(inside, 5) && !MatchesTime(inside, 5)
    ensures var past := QueryJobParams(None, None, None, Some(3), None, None);
      !MatchesTimeWindow(past, 10) && MatchesTime(past, 10)
  {
  }

  /** The intended window is an interval: it accepts every time between two accepted times. */
  lemma WindowIsInterval(q: QueryJobParams, t1: int, t2: int, t3: int)
    requires t1 <= t2 <= t3
    requires MatchesTimeWindow(q, t1) && MatchesTimeWindow(q, t3)
    ensures MatchesTimeWindow(q, t2)
  {
  }

  /** The intended window accepts exactly the times between its set bounds. */
  lemma WindowBounds(q: QueryJobParams, createdTime: int)
    requires q.from.Some? && q.to.Some?
    ensures MatchesTimeWindow(q, createdTime) <==> q.from.value <= createdTime <= q.to.value
  {
  }
}
