/** Requesting the cancellation of a run, by its latest attempt. */
module Cancellation {
  import opened Common
  import opened StateMachine
  import opened Repositories
  import Protocol

  datatype CancelOutcome = Requested | CanceledNow | AlreadyFinished | NotFound | NotCancellable

  /** The last of a run's attempts, which are ordered by attempt number. */
  method LastAttempt<K>(s: Store<K>, run: RunId) returns (last: Option<Attempt>)
    requires s.Valid()
    ensures last.None? <==> !HasRun(s.rows, run)
    ensures last.Some? ==> last.value in s.rows && last.value.run == run && !IsSuperseded(s.rows, last.value)
  {
    last := None;
    for k := 0 to |s.ids|
      invariant last.None? ==> forall i :: 0 <= i < k ==> s.ids[i].run != run
      invariant last.Some? ==> last.value in s.rows && last.value.run == run
      invariant last.Some? ==> forall i :: 0 <= i < k && s.ids[i].run == run ==> s.ids[i].number <= last.value.number
    {
      var a := s.ids[k];
      if a.run == run && (last.None? || last.value.number < a.number) {
        last := Some(a);
      }
    }
  }

  /**
   A RUNNING attempt is only flagged, a RECOVERABLE one is canceled at once, anything else is left
   alone. The change is the one the protocol's `RequestCancel` action makes, on the attempt it allows.
   */
  method RequestCancel<K>(s: Store<K>, run: RunId, at: Time) returns (o: CancelOutcome, ghost last: Option<Attempt>)
    requires s.Valid()
    modifies s`rows
    ensures s.Valid() && (o.NotFound? <==> !HasRun(old(s.rows), run)) && (o.NotFound? <==> last.None?)
    ensures last.None? ==> s.rows == old(s.rows)
    ensures last.Some? ==>
      && last.value in old(s.rows) && last.value.run == run && !IsSuperseded(old(s.rows), last.value)
      && s.rows == old(s.rows)[last.value := Protocol.CancelRow(old(s.rows)[last.value], at)]
      && var status := old(s.rows)[last.value].status;
         && (o.Requested? <==> status.Running?) && (o.CanceledNow? <==> status.Recoverable?)
         && (o.AlreadyFinished? <==> status.IsTerminal()) && (s.rows == old(s.rows) || o.Requested? || o.CanceledNow?)
    ensures o.Requested? ==>
      last.Some? && s.rows == old(s.rows)[last.value := old(s.rows)[last.value].(cancelRequested := true)]
    ensures o.CanceledNow? ==>
      && last.Some?
      && s.rows == old(s.rows)[last.value := old(s.rows)[last.value].(status := Canceled, finishedAt := Some(at))]
  {
    var found := LastAttempt(s, run);
    last := found;
    if found.None? {
      return NotFound, last;
    }
    var a := found.value;
    var ex := s.rows[a];
    match ex.status {
      case Running =>
        s.rows := s.rows[a := ex.(cancelRequested := true)];
        o := Requested;
      case Recoverable =>
        var status := Transition(ex.status, Canceled);
        var _ := s.Update(ex.(status := status.value, finishedAt := Some(at)));
        o := CanceledNow;
      case _ =>
        o := if ex.status.IsTerminal() then AlreadyFinished else NotCancellable;
    }
  }
}
