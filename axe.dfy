/**
 * The job record of the queue (axe/model.go) and the transitions a job
 * goes through: enqueue, claim, conclusion of a handler run and recovery of
 * an abandoned claim. Times are nanosecond instants; the store update that
 * applies a transition is guarded by the job's current status, so a
 * transition whose guard fails yields None (the update matched nothing).
 */
module Axe {
  import opened Common
  import Coal

  datatype Status = Enqueued | Dequeued | Completed | Failed | Cancelled

  function StatusName(s: Status): string {
    match s
    case Enqueued => "enqueued"
    case Dequeued => "dequeued"
    case Completed => "completed"
    case Failed => "failed"
    case Cancelled => "cancelled"
  }

  /** Reading a stored status string back. */
  function ParseStatus(name: string): (r: Option<Status>)
    ensures r.Some? ==> StatusName(r.value) == name
    ensures r.Some? <==> name in {"enqueued", "dequeued", "completed", "failed", "cancelled"}
  {
    if name == "enqueued" then Some(Enqueued)
    else if name == "dequeued" then Some(Dequeued)
    else if name == "completed" then Some(Completed)
    else if name == "failed" then Some(Failed)
    else if name == "cancelled" then Some(Cancelled)
    else None
  }

  /** Every status is stored under its own name and read back unchanged. */
  lemma StatusNameRoundTrip(s: Status)
    ensures ParseStatus(StatusName(s)) == Some(s)
  {
    match s
    case Enqueued =>
    case Dequeued =>
    case Completed =>
    case Failed =>
    case Cancelled =>
  }

  /** A status no transition leaves. */
  predicate Terminal(s: Status) {
    s == Completed || s == Failed || s == Cancelled
  }

  /** A job event: when, the new status and the reason when failed or cancelled. */
  datatype Event = Event(timestamp: int, status: Status, reason: string)

  /** The job record. */
  datatype Model = Model(
    name: string,
    jobLabel: string,
    data: map<string, string>,
    status: Status,
    created: int,
    available: int,
    started: Option<int>,
    ended: Option<int>,
    finished: Option<int>,
    attempts: nat,
    events: seq<Event>)

  /**
   * The relations the record's doc comments promise between its fields:
   * the last event names the current status, Finished is set exactly for
   * completed and cancelled jobs and equals Ended then, a started job has
   * at least one attempt, a claimed job has no end yet and the timestamps
   * are ordered.
   */
  ghost predicate Consistent(m: Model) {
    && |m.events| > 0 && m.events[|m.events| - 1].status == m.status
    && (m.finished.Some? <==> m.status == Completed || m.status == Cancelled)
    && (m.started.Some? <==> m.attempts >= 1)
    && (m.status == Dequeued ==> m.started.Some? && m.ended.None?)
    && (Terminal(m.status) ==> m.ended.Some?)
    && (m.finished.Some? ==> m.finished == m.ended)
    && (m.ended.Some? ==> m.started.Some? && m.started.value <= m.ended.value)
    && (m.started.Some? ==> m.created <= m.started.value)
    && m.created <= m.available
  }

  /** No timestamp of the record lies after `now`. */
  ghost predicate NotAfter(m: Model, now: int) {
    && m.created <= now
    && (m.started.Some? ==> m.started.value <= now)
    && (m.ended.Some? ==> m.ended.value <= now)
  }

  /** A new job: enqueued at `now`, available after `delay`, never attempted. */
  function Enqueue(name: string, jobLabel: string, data: map<string, string>, now: int, delay: nat): (m: Model)
    ensures Consistent(m) && NotAfter(m, now)
    ensures m.status == Enqueued && m.attempts == 0 && m.available == now + delay
    ensures m.started.None? && m.ended.None? && m.finished.None?
  {
    Model(name, jobLabel, data, Enqueued, now, now + delay, None, None, None, 0, [Event(now, Enqueued, "")])
  }

  /** What a handler run returned. */
  datatype Outcome = Success | Error(reason: string, retry: bool)

  /** A transition applied by a worker or by the reaper. */
  datatype Step = Claim | Conclude(outcome: Outcome) | Reap(lifetime: nat, reason: string)

  /** Record the new status in the status field and the event log. */
  function Enter(m: Model, status: Status, now: int, reason: string): Model {
    m.(status := status, events := m.events + [Event(now, status, reason)])
  }

  /**
   * Apply one step at `now` for a task with `maxAttempts` and a retry
   * `delay`:
   *  - a claim takes an available enqueued job, sets Started, clears Ended
   *    and counts an attempt;
   *  - a success completes the job (Ended and Finished set);
   *  - a retryable error re-enqueues the job after `delay` while attempts
   *    remain and fails it (Ended set, Finished not) once they are used up;
   *  - a non-retryable error cancels the job (Ended and Finished set);
   *  - the reaper returns a claim older than `lifetime` to the queue,
   *    available at once.
   */
  function Apply(m: Model, step: Step, now: int, maxAttempts: nat, delay: nat): (r: Option<Model>)
    ensures r.Some? <==>
      || (step.Claim? && m.status == Enqueued && m.available <= now)
      || (step.Conclude? && m.status == Dequeued)
      || (step.Reap? && m.status == Dequeued && m.started.Some? && m.started.value < now - step.lifetime)
  {
    match step
    case Claim =>
      if m.status == Enqueued && m.available <= now then
        Some(Enter(m.(started := Some(now), ended := None, attempts := m.attempts + 1), Dequeued, now, ""))
      else None
    case Conclude(outcome) =>
      if m.status != Dequeued then None
      else (match outcome
        case Success =>
          Some(Enter(m.(ended := Some(now), finished := Some(now)), Completed, now, ""))
        case Error(reason, true) =>
          if m.attempts < maxAttempts then
            Some(Enter(m.(ended := Some(now), available := now + delay), Enqueued, now, reason))
          else
            Some(Enter(m.(ended := Some(now)), Failed, now, reason))
        case Error(reason, false) =>
          Some(Enter(m.(ended := Some(now), finished := Some(now)), Cancelled, now, reason)))
    case Reap(lifetime, reason) =>
      if m.status == Dequeued && m.started.Some? && m.started.value < now - lifetime then
        Some(Enter(m.(available := now), Enqueued, now, reason))
      else None
  }

  /** A step keeps the job's identity and creation time and appends exactly one event, stamped `now` with the new status. */
  lemma ApplyAppendsEvent(m: Model, step: Step, now: int, maxAttempts: nat, delay: nat)
    requires Apply(m, step, now, maxAttempts, delay).Some?
    ensures var r := Apply(m, step, now, maxAttempts, delay).value;
      && r.name == m.name && r.jobLabel == m.jobLabel && r.data == m.data && r.created == m.created
      && |r.events| == |m.events| + 1 && r.events[..|m.events|] == m.events
      && r.events[|m.events|] == Event(now, r.status, r.events[|m.events|].reason)
  {
  }

  /**
   * Every step taken no earlier than the record's timestamps keeps the
   * record consistent; attempts grow by one exactly on a claim and never
   * decrease.
   */
  lemma ApplyPreservesConsistent(m: Model, step: Step, now: int, maxAttempts: nat, delay: nat)
    requires Consistent(m) && NotAfter(m, now)
    requires Apply(m, step, now, maxAttempts, delay).Some?
    ensures var r := Apply(m, step, now, maxAttempts, delay).value;
      && Consistent(r) && NotAfter(r, now)
      && r.attempts == (if step.Claim? then m.attempts + 1 else m.attempts)
  {
    var r := Apply(m, step, now, maxAttempts, delay).value;
    assert r.events[|r.events| - 1].status == r.status;
  }

  /** A completed, failed or cancelled job never changes again; in particular Finished is never overwritten. */
  lemma TerminalIsFinal(m: Model, step: Step, now: int, maxAttempts: nat, delay: nat)
    requires Terminal(m.status)
    ensures Apply(m, step, now, maxAttempts, delay).None?
  {
  }

  /** Finished is set by a step exactly when it completes or cancels the job. */
  lemma FinishedOnlyOnCompleteOrCancel(m: Model, step: Step, now: int, maxAttempts: nat, delay: nat)
    requires Consistent(m)
    requires Apply(m, step, now, maxAttempts, delay).Some?
    ensures var r := Apply(m, step, now, maxAttempts, delay).value;
      r.finished.Some? <==> r.status == Completed || r.status == Cancelled
  {
  }

  /**
   * One handler run per outcome: claim the job at `now`, conclude it with
   * the next outcome, and come back `delay` later, when a retried job is
   * available again. A round whose claim fails ends the run.
   */
  function Run(m: Model, outcomes: seq<Outcome>, maxAttempts: nat, now: int, delay: nat): Model
    decreases |outcomes|
  {
    if outcomes == [] then m
    else match Apply(m, Claim, now, maxAttempts, delay)
      case None => m
      case Some(claimed) =>
        match Apply(claimed, Conclude(outcomes[0]), now, maxAttempts, delay)
        case None => claimed
        case Some(concluded) => Run(concluded, outcomes[1..], maxAttempts, now + delay, delay)
  }

  /** `count` retryable failures with the same reason: the handler outcomes the retry lemmas below run a job on. */
  function Failures(count: nat, reason: string): (r: seq<Outcome>)
    ensures |r| == count && forall k :: 0 <= k < count ==> r[k] == Error(reason, true)
  {
    if count == 0 then [] else [Error(reason, true)] + Failures(count - 1, reason)
  }

  /**
   * One round of Run on an available job whose handler fails retryably:
   * the claim counts an attempt, the error sets Ended, and the job is
   * re-enqueued `delay` later while attempts remain and fails otherwise;
   * `next` is the job after the round.
   */
  lemma RetryRound(m: Model, reason: string, rest: seq<Outcome>, maxAttempts: nat, now: int, delay: nat)
    returns (next: Model)
    requires m.status == Enqueued && m.available <= now
    ensures next.attempts == m.attempts + 1 && next.finished == m.finished
    ensures next.started == Some(now) && next.ended == Some(now)
    ensures m.attempts + 1 < maxAttempts ==> next.status == Enqueued && next.available == now + delay
    ensures m.attempts + 1 >= maxAttempts ==>
      next.status == Failed && |next.events| > 0 && next.events[|next.events| - 1] == Event(now, Failed, reason)
    ensures Run(m, [Error(reason, true)] + rest, maxAttempts, now, delay) == Run(next, rest, maxAttempts, now + delay, delay)
  {
    var claimed := Apply(m, Claim, now, maxAttempts, delay).value;
    next := Apply(claimed, Conclude(Error(reason, true)), now, maxAttempts, delay).value;
    assert ([Error(reason, true)] + rest)[0] == Error(reason, true);
    assert ([Error(reason, true)] + rest)[1..] == rest;
  }

  /** One round of Run on an available job whose handler succeeds: completed, with Ended and Finished at `now`. */
  lemma SuccessRound(m: Model, maxAttempts: nat, now: int, delay: nat)
    requires m.status == Enqueued && m.available <= now
    ensures var r := Run(m, [Success], maxAttempts, now, delay);
      && r.status == Completed && r.attempts == m.attempts + 1
      && r.started == r.ended == r.finished == Some(now)
  {
    assert [Success][1..] == [];
  }

  /** An available job that fails retryably `k` times while attempts remain and then succeeds ends completed after k + 1 more attempts. */
  lemma {:induction false} RetriesThenSuccess(m: Model, k: nat, reason: string, maxAttempts: nat, now: int, delay: nat)
    requires m.status == Enqueued && m.available <= now
    requires m.attempts + k < maxAttempts
    decreases k
    ensures var r := Run(m, Failures(k, reason) + [Success], maxAttempts, now, delay);
      && r.status == Completed && r.attempts == m.attempts + k + 1
      && r.started.Some? && r.ended.Some? && r.finished.Some?
      && r.started.value <= r.ended.value <= r.finished.value
  {
    if k == 0 {
      assert Failures(k, reason) + [Success] == [Success];
      SuccessRound(m, maxAttempts, now, delay);
    } else {
      var rest := Failures(k - 1, reason) + [Success];
      assert Failures(k, reason) + [Success] == [Error(reason, true)] + rest;
      var next := RetryRound(m, reason, rest, maxAttempts, now, delay);
      assert Run(m, Failures(k, reason) + [Success], maxAttempts, now, delay) == Run(next, rest, maxAttempts, now + delay, delay);
      RetriesThenSuccess(next, k - 1, reason, maxAttempts, now + delay, delay);
    }
  }

  /** A job that is not enqueued is left as it is by Run. */
  lemma RunStops(m: Model, outcomes: seq<Outcome>, maxAttempts: nat, now: int, delay: nat)
    requires m.status != Enqueued
    ensures Run(m, outcomes, maxAttempts, now, delay) == m
  {
  }

  /** A job whose handler keeps failing retryably ends failed once all attempts are used: Ended set, Finished not. */
  lemma {:induction false} ExhaustedRetriesFail(m: Model, n: nat, reason: string, maxAttempts: nat, now: int, delay: nat)
    requires m.status == Enqueued && m.available <= now
    requires m.attempts < maxAttempts && m.attempts + n >= maxAttempts
    requires m.finished.None?
    ensures var r := Run(m, Failures(n, reason), maxAttempts, now, delay);
      && r.status == Failed && r.attempts == maxAttempts
      && r.ended.Some? && r.finished.None?
      && |r.events| > 0 && r.events[|r.events| - 1] == Event(r.ended.value, Failed, reason)
    decreases maxAttempts - m.attempts
  {
    var rest := Failures(n - 1, reason);
    assert Failures(n, reason) == [Error(reason, true)] + rest;
    var next := RetryRound(m, reason, rest, maxAttempts, now, delay);
    assert Run(m, Failures(n, reason), maxAttempts, now, delay) == Run(next, rest, maxAttempts, now + delay, delay);
    if m.attempts + 1 == maxAttempts {
      RunStops(next, rest, maxAttempts, now + delay, delay);
    } else {
      ExhaustedRetriesFail(next, n - 1, reason, maxAttempts, now + delay, delay);
    }
  }

  /** A non-retryable error cancels the job on its attempt, whatever comes after. */
  lemma NonRetryableCancels(m: Model, reason: string, rest: seq<Outcome>, maxAttempts: nat, now: int, delay: nat)
    requires m.status == Enqueued && m.available <= now
    ensures var r := Run(m, [Error(reason, false)] + rest, maxAttempts, now, delay);
      && r.status == Cancelled && r.attempts == m.attempts + 1
      && r.ended == r.finished == Some(now) && r.started == Some(now)
      && |r.events| > 0 && r.events[|r.events| - 1] == Event(now, Cancelled, reason)
  {
    var outcomes := [Error(reason, false)] + rest;
    var claimed := Apply(m, Claim, now, maxAttempts, delay).value;
    var concluded := Apply(claimed, Conclude(Error(reason, false)), now, maxAttempts, delay).value;
    assert outcomes[1..] == rest;
    assert Run(m, outcomes, maxAttempts, now, delay)
      == Run(concluded, rest, maxAttempts, now + delay, delay);
    if rest != [] {
      assert Apply(concluded, Claim, now + delay, maxAttempts, delay).None?;
      assert Run(concluded, rest, maxAttempts, now + delay, delay) == concluded;
    }
  }

  /** A handler that succeeds at once: completed, one attempt, Started, Ended and Finished set. */
  lemma FirstAttemptCompletes(name: string, data: map<string, string>, now: int)
    ensures var r := Run(Enqueue(name, "", data, now, 0), [Success], 2, now, 0);
      && r.name == name && r.data == data && r.status == Completed && r.attempts == 1
      && r.started.Some? && r.ended.Some? && r.finished.Some?
  {
    RetriesThenSuccess(Enqueue(name, "", data, now, 0), 0, "", 2, now, 0);
  }

  /** One retryable failure, then success, with two attempts allowed: completed after two attempts. */
  lemma OneRetryCompletes(name: string, data: map<string, string>, now: int, delay: nat)
    ensures var r := Run(Enqueue(name, "", data, now, 0), [Error("foo", true), Success], 2, now, delay);
      && r.status == Completed && r.attempts == 2 && r.finished.Some?
  {
    assert Failures(1, "foo") + [Success] == [Error("foo", true), Success];
    RetriesThenSuccess(Enqueue(name, "", data, now, 0), 1, "foo", 2, now, delay);
  }

  /** A non-retryable "cancelled" error: cancelled after one attempt with that reason and Finished set. */
  lemma CancelOnFirstAttempt(name: string, data: map<string, string>, now: int)
    ensures var r := Run(Enqueue(name, "", data, now, 0), [Error("cancelled", false)], 2, now, 0);
      && r.status == Cancelled && r.attempts == 1 && r.finished.Some?
      && r.events[|r.events| - 1].reason == "cancelled"
  {
    assert [Error("cancelled", false)] + [] == [Error("cancelled", false)];
    NonRetryableCancels(Enqueue(name, "", data, now, 0), "cancelled", [], 2, now, 0);
  }

  /**
   * A claim abandoned past its lifetime is returned to the queue by the
   * reaper; a later successful run completes the job and the attempts count
   * both claims.
   */
  lemma AbandonedClaimIsRecovered(m: Model, lifetime: nat, reason: string, maxAttempts: nat, now: int, later: int, delay: nat)
    requires m.status == Enqueued && m.available <= now && now < later - lifetime
    ensures var claimed := Apply(m, Claim, now, maxAttempts, delay);
      && claimed.Some?
      && var reaped := Apply(claimed.value, Reap(lifetime, reason), later, maxAttempts, delay);
      && reaped.Some? && reaped.value.status == Enqueued && reaped.value.available == later
      && var r := Run(reaped.value, [Success], maxAttempts, later, delay);
      && r.status == Completed && r.attempts == m.attempts + 2
  {
    var claimed := Apply(m, Claim, now, maxAttempts, delay).value;
    var reaped := Apply(claimed, Reap(lifetime, reason), later, maxAttempts, delay).value;
    var outcomes: seq<Outcome> := [Success];
    assert outcomes[1..] == [];
  }

  /** The database key of each job field: the bson tag, or the lower-cased field name when it has none. */
  function JobFieldKey(field: string): string {
    match field
    case "Name" => "name"
    case "Label" => "label"
    case "Data" => "data"
    case "Status" => "status"
    case "Created" => "created_at"
    case "Available" => "available_at"
    case "Started" => "started_at"
    case "Ended" => "ended_at"
    case "Finished" => "finished_at"
    case "Attempts" => "attempts"
    case "Events" => "events"
    case _ => field
  }

  /**
   * AddModelIndexes: ascending, non-unique indexes on Name, Status and
   * Finished; only the Finished index expires documents, after `removeAfter`.
   */
  method AddModelIndexes(meta: Coal.Meta, removeAfter: int)
    modifies meta
    ensures var n := |old(meta.indexes)|;
      && |meta.indexes| == n + 3 && meta.indexes[..n] == old(meta.indexes)
      && meta.indexes[n] == Coal.Index(["Name"], [Coal.SortKey("name", 1)], false, 0, None)
      && meta.indexes[n + 1] == Coal.Index(["Status"], [Coal.SortKey("status", 1)], false, 0, None)
      && meta.indexes[n + 2] == Coal.Index(["Finished"], [Coal.SortKey("finished_at", 1)], false, removeAfter, None)
  {
    ghost var n := |meta.indexes|;
    meta.AddIndex(false, 0, ["Name"], JobFieldKey);
    meta.AddIndex(false, 0, ["Status"], JobFieldKey);
    meta.AddIndex(false, removeAfter, ["Finished"], JobFieldKey);
  }
}
