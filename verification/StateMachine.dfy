/** The life of one execution attempt: the transition table and what it allows in many steps. */
module StateMachine {
  import opened Common

  datatype JobStatus =
    Pending | Queued | Running | Success | Retrying | Failed | Canceled | Recoverable
  {
    predicate IsTerminal() { Success? || Failed? || Canceled? }

    /** The statuses for which a redelivered message is acknowledged without running again. */
    predicate IsHandled() {
      Success? || Failed? || Canceled? || Retrying? || Recoverable?
    }
  }

  function Allowed(current: JobStatus): set<JobStatus> {
    match current
    case Pending => {Queued, Canceled}
    case Queued => {Running, Canceled}
    case Running => {Success, Retrying, Failed, Canceled, Recoverable}
    case Retrying => {Queued, Recoverable}
    case Recoverable => {Queued, Failed, Canceled}
    case Success => {}
    case Failed => {}
    case Canceled => {}
  }

  predicate CanTransition(current: JobStatus, target: JobStatus) {
    target in Allowed(current)
  }

  datatype TransitionError = InvalidTransition(current: JobStatus, target: JobStatus)

  /** The status an execution has after a transition, or the rejected pair. */
  function Transition(current: JobStatus, target: JobStatus): (r: Result<JobStatus, TransitionError>)
    ensures r.Ok? <==> CanTransition(current, target)
    ensures r.Ok? ==> r.value == target && r.value != current
  {
    if CanTransition(current, target) then Ok(target)
    else Err(InvalidTransition(current, target))
  }

  /** A sequence of statuses each of which the table allows after the one before. */
  ghost predicate IsPath(p: seq<JobStatus>) {
    p != [] && forall i :: 0 < i < |p| ==> CanTransition(p[i - 1], p[i])
  }

  /** The reflexive-transitive closure of the table. */
  ghost predicate Reaches(from: JobStatus, to: JobStatus) {
    exists p :: IsPath(p) && p[0] == from && p[|p| - 1] == to
  }

  lemma {:induction false} ReachesSelf(a: JobStatus)
    ensures Reaches(a, a)
  {
    assert IsPath([a]);
  }

  lemma {:induction false} ReachesStep(a: JobStatus, b: JobStatus)
    requires CanTransition(a, b)
    ensures Reaches(a, b)
  {
    assert IsPath([a, b]);
  }

  lemma {:induction false} ReachesTrans(a: JobStatus, b: JobStatus, c: JobStatus)
    requires Reaches(a, b) && Reaches(b, c)
    ensures Reaches(a, c)
  {
    var p :| IsPath(p) && p[0] == a && p[|p| - 1] == b;
    var q :| IsPath(q) && q[0] == b && q[|q| - 1] == c;
    var r := p + q[1..];
    forall i | 0 < i < |r| ensures CanTransition(r[i - 1], r[i]) {
      if i >= |p| {
        assert CanTransition(q[i - |p|], q[i - |p| + 1]);
      }
    }
    assert IsPath(r);
  }

  /** A status is a dead end exactly when it is terminal: nothing else is reachable from it. */
  lemma {:induction false} TerminalIffDeadEnd(a: JobStatus)
    ensures a.IsTerminal() <==> forall b :: Reaches(a, b) ==> b == a
  {
    if a.IsTerminal() {
      forall b | Reaches(a, b) ensures b == a {
        var p :| IsPath(p) && p[0] == a && p[|p| - 1] == b;
        assert |p| > 1 ==> CanTransition(p[1 - 1], p[1]);
      }
    } else {
      var b :| b in Allowed(a) && b != a;
      ReachesStep(a, b);
    }
  }
}
