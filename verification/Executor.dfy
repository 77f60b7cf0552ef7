/** One execution attempt: the bounded wait for its handler, and the status it ends in. */
module Executor {
  import opened Common
  import opened StateMachine
  import opened Models
  import Protocol

  const POLL: Time := 100_000

  /** One round of the wait: the clock before it, whether the future is done, the clock after, the token. */
  datatype Round = Round(before: Time, done: bool, after: Time, cancelled: bool)

  datatype Waited = Done | TimedOut | GaveUp

  function Patience(deadline: Time, now: Time): Time {
    var left := if deadline > now then deadline - now else 0;
    if left < POLL then left else POLL
  }

  /** The clock never runs backwards, and a wait that is not done uses up its whole patience. */
  ghost predicate Fair(deadline: Time, rounds: nat -> Round, k: nat) {
    && rounds(k).before <= rounds(k).after <= rounds(k + 1).before
    && (!rounds(k).done ==> rounds(k).after >= rounds(k).before + Patience(deadline, rounds(k).before))
  }

  ghost predicate Honest(start: Time, deadline: Time, rounds: nat -> Round) {
    start <= rounds(0).before && forall k: nat {:trigger Fair(deadline, rounds, k)} :: Fair(deadline, rounds, k)
  }

  /** Round `i` is the first that found the token cancelled. */
  ghost predicate FirstSeen(rounds: nat -> Round, i: nat) {
    rounds(i).cancelled && forall j: nat :: j < i ==> !rounds(j).cancelled
  }

  /** Cancellation was first seen in an earlier round and the grace period since then is used up. */
  ghost predicate GraceOver(rounds: nat -> Round, grace: Time, k: nat) {
    rounds(k).cancelled && exists i: nat :: i < k && FirstSeen(rounds, i) && rounds(k).after >= rounds(i).after + grace
  }

  ghost predicate Ends(start: Time, timeout: Time, grace: Time, rounds: nat -> Round, k: nat) {
    rounds(k).done || rounds(k).after >= start + timeout || GraceOver(rounds, grace, k)
  }

  /**
   The wait ends in the first round that is done, past the deadline, or past the grace period, and
   for the first of these reasons that applies. All rounds but the last take a full poll interval
   out of the timeout, so there are at most `ceil(timeout / poll)`, and at least one.
   */
  method WaitFor(start: Time, timeout: Time, grace: Time, rounds: nat -> Round) returns (k: nat, r: Waited)
    requires Honest(start, start + timeout, rounds)
    ensures Ends(start, timeout, grace, rounds, k) && forall i: nat :: i < k ==> !Ends(start, timeout, grace, rounds, i)
    ensures r == if rounds(k).done then Done else if rounds(k).after >= start + timeout then TimedOut else GaveUp
    ensures k == 0 || k * POLL < timeout
  {
    var deadline := start + timeout;
    var cancelDeadline: Option<Time> := None;
    ghost var seen: nat := 0;
    k := 0;
    while true
      invariant rounds(k).before >= start + k * POLL
      invariant k == 0 || k * POLL < timeout
      invariant forall i: nat :: i < k ==> !Ends(start, timeout, grace, rounds, i)
      invariant cancelDeadline.None? ==> forall i: nat :: i < k ==> !rounds(i).cancelled
      invariant cancelDeadline.Some? ==>
        seen < k && FirstSeen(rounds, seen) && cancelDeadline.value == rounds(seen).after + grace
      decreases timeout - k * POLL
    {
      if rounds(k).done {
        return k, Done;
      }
      var now := rounds(k).after;
      if now >= deadline {
        return k, TimedOut;
      }
      if rounds(k).cancelled {
        if cancelDeadline.None? {
          cancelDeadline, seen := Some(now + grace), k;
        } else if now >= cancelDeadline.value {
          return k, GaveUp;
        }
      }
      OnlyOneFirst(rounds, seen);
      assert !GraceOver(rounds, grace, k);
      assert Fair(deadline, rounds, k);
      k := k + 1;
    }
  }

  lemma {:induction false} OnlyOneFirst(rounds: nat -> Round, i: nat)
    ensures forall j: nat :: FirstSeen(rounds, i) && FirstSeen(rounds, j) ==> i == j
  {
  }

  // ---------------- the attempt ----------------

  datatype HandlerEnd = Returned | RaisedCanceled(why: string) | RaisedOther(why: string)

  /** How the attempt ended for the executor: a timeout is an ordinary failure, a used-up grace a cancellation. */
  function Ending(w: Waited, h: HandlerEnd, timeoutText: string): HandlerEnd {
    match w
    case Done => h
    case TimedOut => RaisedOther(timeoutText)
    case GaveUp => RaisedCanceled("canceled: handler did not stop within grace period")
  }

  function StatusAfter(p: RetryPolicy, attempt: nat, end: HandlerEnd): JobStatus {
    match end
    case Returned => Success
    case RaisedCanceled(_) => Canceled
    case RaisedOther(_) => if p.AllowsRetry(attempt) then Retrying else Failed
  }

  datatype AttemptResult = AttemptResult(status: JobStatus, attempt: nat, maxAttempts: int, error: Option<string>,
                                         shouldRetry: bool)

  datatype StartError = NotRegistered | StartHookRaised

  /** The report of an attempt, by how it ended. */
  ghost predicate Reports(p: RetryPolicy, attempt: nat, end: HandlerEnd, r: AttemptResult) {
    match end
    case Returned => r == AttemptResult(Success, attempt, p.maxAttempts, None, false)
    case RaisedCanceled(why) => r == AttemptResult(Canceled, attempt, p.maxAttempts, Some(why), false)
    case RaisedOther(why) =>
      if attempt < p.maxAttempts then r == AttemptResult(Retrying, attempt, p.maxAttempts, Some(why), true)
      else r == AttemptResult(Failed, attempt, p.maxAttempts, Some(why), false)
  }

  /** What an attempt of this policy can report, whatever its handler did. */
  predicate Reportable(p: RetryPolicy, attempt: nat, r: AttemptResult) {
    && r.attempt == attempt && r.maxAttempts == p.maxAttempts
    && r.status in {Success, Canceled, Retrying, Failed}
    && (r.error.None? <==> r.status.Success?)
    && (r.shouldRetry <==> r.status.Retrying?)
    && (r.status.Retrying? ==> attempt < p.maxAttempts)
    && (r.status.Failed? ==> attempt >= p.maxAttempts)
  }

  /**
   One attempt through the state machine, given how it ends once started. Every transition it asks for
   is allowed, so it raises only before the handler starts: when the handler is not registered or the
   start hook raises.
   */
  method Conclude(p: RetryPolicy, attempt: nat, registered: bool, hookRaises: bool, end: HandlerEnd)
    returns (r: Result<AttemptResult, StartError>, ghost path: seq<JobStatus>)
    ensures r.Err? <==> !registered || hookRaises
    ensures IsPath(path) && path[0] == Pending
    ensures r.Ok? ==> path == [Pending, Queued, Running, r.value.status] && Reportable(p, attempt, r.value)
    ensures r.Ok? ==> r.value.status == StatusAfter(p, attempt, end) && Reports(p, attempt, end, r.value)
    ensures r.Err? ==> path == [Pending, Queued, Running]
  {
    var status := Pending;
    path := [status];
    status, path := Move(status, Queued, path);
    status, path := Move(status, Running, path);
    if !registered {
      return Err(NotRegistered), path;
    }
    if hookRaises {
      return Err(StartHookRaised), path;
    }
    var error, retry := None, false;
    match end {
      case Returned =>
        status, path := Move(status, Success, path);
      case RaisedCanceled(why) =>
        error := Some(why);
        status, path := Move(status, Canceled, path);
      case RaisedOther(why) =>
        error := Some(why);
        retry := p.AllowsRetry(attempt);
        status, path := Move(status, if retry then Retrying else Failed, path);
    }
    r := Ok(AttemptResult(status, attempt, p.maxAttempts, error, retry));
  }

  /** The clock readings and token states met while waiting, and the limits of the wait. */
  datatype Wait = Wait(start: Time, timeout: Time, grace: Time, rounds: nat -> Round)

  ghost predicate IsHonest(w: Wait) { Honest(w.start, w.start + w.timeout, w.rounds) }

  /** Round `k` is the one that ends the wait. */
  ghost predicate EndsFirstAt(w: Wait, k: nat) {
    && Ends(w.start, w.timeout, w.grace, w.rounds, k)
    && forall i: nat :: i < k ==> !Ends(w.start, w.timeout, w.grace, w.rounds, i)
  }

  /**
   What the round that ended the wait makes of the attempt. A finished handler speaks for itself; past the
   deadline the attempt failed, and is retried if the policy allows; after a used-up grace it is canceled.
   */
  ghost predicate Follows(p: RetryPolicy, w: Wait, k: nat, handler: HandlerEnd, timeoutText: string, r: AttemptResult) {
    if w.rounds(k).done then Reports(p, r.attempt, handler, r)
    else if w.rounds(k).after >= w.start + w.timeout then
      r.error == Some(timeoutText) && r.status == if r.attempt < p.maxAttempts then Retrying else Failed
    else
      && GraceOver(w.rounds, w.grace, k) && r.status.Canceled? && !r.shouldRetry
      && r.error == Some("canceled: handler did not stop within grace period")
  }

  /** One attempt: submit the handler, wait for it within bounds, and settle the status. */
  method ExecuteAttempt(p: RetryPolicy, attempt: nat, registered: bool, hookRaises: bool,
                        w: Wait, handler: HandlerEnd, timeoutText: string)
    returns (r: Result<AttemptResult, StartError>, ghost path: seq<JobStatus>, ghost k: nat)
    requires IsHonest(w)
    ensures r.Err? <==> !registered || hookRaises
    ensures IsPath(path) && path[0] == Pending
    ensures r.Ok? ==>
      && path == [Pending, Queued, Running, r.value.status] && Reportable(p, attempt, r.value)
      && EndsFirstAt(w, k) && (k == 0 || k * POLL < w.timeout) && Follows(p, w, k, handler, timeoutText, r.value)
  {
    k := 0;
    if !registered || hookRaises {
      r, path := Conclude(p, attempt, registered, hookRaises, handler);
      return;
    }
    var waited;
    k, waited := WaitFor(w.start, w.timeout, w.grace, w.rounds);
    var end := Ending(waited, handler, timeoutText);
    r, path := Conclude(p, attempt, registered, hookRaises, end);
  }

  /** `transition`: moves on exactly when the table allows it. */
  method Move(current: JobStatus, target: JobStatus, ghost path: seq<JobStatus>)
    returns (next: JobStatus, ghost longer: seq<JobStatus>)
    requires CanTransition(current, target) && IsPath(path) && path[|path| - 1] == current
    ensures next == target && longer == path + [target] && IsPath(longer)
  {
    var r := Transition(current, target);
    next := r.value;
    longer := path + [target];
  }

  /** The outcome under which the protocol stores what the executor reported. */
  function AsOutcome(end: HandlerEnd, retryAt: Time): Protocol.Outcome {
    match end
    case Returned => Protocol.Succeeded
    case RaisedCanceled(why) => Protocol.Stopped(why)
    case RaisedOther(why) => Protocol.Raised(why, retryAt)
  }

  /** The row the protocol stores carries the status, the error and the retry decision of the executor. */
  lemma {:induction false} ProtocolStoresWhatTheExecutorSays(
      h: Protocol.History, m: Protocol.Message, p: RetryPolicy, end: HandlerEnd,
                                          started: Time, finished: Time, retryAt: Time)
    requires p.maxAttempts == h.MaxAttempts(m.job)
    ensures
      var row := Protocol.FinalRow(h, m, AsOutcome(end, retryAt), started, finished);
      && row.job == m.job && row.Id() == Attempt(m.run, m.attempt) && row.maxAttempts == Some(p.maxAttempts)
      && row.startedAt == Some(started) && row.finishedAt == Some(finished) && !row.cancelRequested
      && match end
         case Returned => row.status == Success && row.error.None? && row.nextRetryAt.None?
         case RaisedCanceled(why) => row.status == Canceled && row.error == Some(why) && row.nextRetryAt.None?
         case RaisedOther(why) =>
           && row.error == Some(why)
           && (if m.attempt < p.maxAttempts then row.status == Retrying && row.nextRetryAt == Some(retryAt)
               else row.status == Failed && row.nextRetryAt.None?)
  {
  }
}
