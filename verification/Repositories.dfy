/**
 The stored tables, as values: what each repository statement does to them.
 One transaction of the original is one application of these functions.
 */
module Repositories {
  import opened Common
  import opened StateMachine

  datatype Execution = Execution(
    job: JobId, run: RunId, attempt: nat, status: JobStatus,
    startedAt: Option<Time>, finishedAt: Option<Time>, error: Option<string>,
    maxAttempts: Option<nat>,
    cancelRequested: bool, nextRetryAt: Option<Time>)
  {
    function Id(): Attempt { Attempt(run, attempt) }
  }

  type Table = map<Attempt, Execution>

  /**
   What an update copies from an execution into the stored record. The natural key, the job
   and `cancel_requested` belong to the database and are not copied.
   */
  function WriteBack(stored: Execution, ex: Execution): Execution {
    stored.(status := ex.status, startedAt := ex.startedAt, finishedAt := ex.finishedAt,
            error := ex.error, maxAttempts := ex.maxAttempts, nextRetryAt := ex.nextRetryAt)
  }

  function Upsert(t: Table, ex: Execution): Table {
    t[ex.Id() := if ex.Id() in t then WriteBack(t[ex.Id()], ex) else ex]
  }

  /** One row is written: inserted as it is, or stored over a row whose job and cancellation flag stay. */
  ghost predicate Written(t: Table, u: Table, ex: Execution) {
    && u.Keys == t.Keys + {ex.Id()} && (forall a :: a in t && a != ex.Id() ==> u[a] == t[a])
    && (ex.Id() !in t ==> u[ex.Id()] == ex)
    && (ex.Id() in t ==>
          && u[ex.Id()].job == t[ex.Id()].job && u[ex.Id()].cancelRequested == t[ex.Id()].cancelRequested
          && u[ex.Id()].Id() == t[ex.Id()].Id()
          && u[ex.Id()] == ex.(job := u[ex.Id()].job, cancelRequested := u[ex.Id()].cancelRequested,
                               run := u[ex.Id()].run, attempt := u[ex.Id()].attempt))
  }

  predicate HasSchedule(t: Table, a: Attempt) {
    a in t && t[a].nextRetryAt.Some?
  }

  /** `UPDATE ... SET next_retry_at = NULL WHERE next_retry_at IS NOT NULL`; the caller wins iff `HasSchedule`. */
  function ClaimRetry(t: Table, a: Attempt): Table {
    if HasSchedule(t, a) then t[a := t[a].(nextRetryAt := None)] else t
  }

  function SetNextRetryAt(t: Table, a: Attempt, at: Option<Time>): Table {
    if a in t then t[a := t[a].(nextRetryAt := at)] else t
  }

  predicate IsDueRetry(ex: Execution, now: Time) {
    ex.status.Retrying? && ex.nextRetryAt.Some? && ex.nextRetryAt.value <= now
  }

  predicate IsSuperseded(t: Table, a: Attempt) {
    exists b :: b in t && b.run == a.run && b.number > a.number
  }

  predicate IsDangling(t: Table, a: Attempt) {
    a in t && t[a].status.Retrying? && t[a].nextRetryAt.None? && !IsSuperseded(t, a)
  }

  predicate HasRun(t: Table, r: RunId) {
    exists a :: a in t && a.run == r
  }

  function WithStatus(t: Table, status: JobStatus): set<Attempt> { set a | a in t && t[a].status == status }

  function DanglingIn(t: Table): set<Attempt> { set a | a in t && IsDangling(t, a) }

  // ---------------- stored state ----------------

  datatype DbError = UniqueViolation | ForeignKeyViolation | EntityNotFound

  /** The elements of `s` that satisfy membership in `want`, in the same order. */
  function Select<X>(s: seq<X>, want: set<X>): seq<X> {
    if s == [] then [] else (if s[0] in want then [s[0]] else []) + Select(s[1..], want)
  }

  ghost predicate Distinct<X(!new)>(s: seq<X>) {
    forall i, j :: 0 <= i < j < |s| ==> s[i] != s[j]
  }

  lemma {:induction false} SelectHas<X>(s: seq<X>, want: set<X>, x: X)
    ensures x in Select(s, want) <==> x in s && x in want
  {
    if s != [] {
      SelectHas(s[1..], want, x);
    }
  }

  lemma {:induction false} SelectDistinct<X(!new)>(s: seq<X>, want: set<X>)
    requires Distinct(s)
    ensures Distinct(Select(s, want))
  {
    if s != [] {
      SelectDistinct(s[1..], want);
      SelectHas(s[1..], want, s[0]);
    }
  }

  lemma {:induction false} SelectNone<X>(s: seq<X>, want: set<X>)
    requires forall x :: x in s ==> x !in want
    ensures Select(s, want) == []
  {
    if s != [] {
      assert s[0] in s;
      SelectNone(s[1..], want);
    }
  }

  lemma {:induction false} SelectSnoc<X>(s: seq<X>, x: X, want: set<X>)
    ensures Select(s + [x], want) == Select(s, want) + if x in want then [x] else []
  {
    if s == [] {
      assert [] + [x] == [x] && [x][1..] == [];
    } else {
      assert (s + [x])[1..] == s[1..] + [x];
      SelectSnoc(s[1..], x, want);
    }
  }

  /** `s` is `t` with some elements left out. */
  ghost predicate IsSubsequence<X>(s: seq<X>, t: seq<X>) {
    || s == []
    || (t != [] && s[0] == t[0] && IsSubsequence(s[1..], t[1..]))
    || (t != [] && IsSubsequence(s, t[1..]))
  }

  lemma {:induction false} SelectInOrder<X>(s: seq<X>, want: set<X>)
    ensures IsSubsequence(Select(s, want), s)
  {
    if s != [] {
      SelectInOrder(s[1..], want);
      var r := Select(s, want);
      if s[0] in want {
        assert r[1..] == Select(s[1..], want) && r[0] == s[0];
      } else {
        assert r == Select(s[1..], want);
      }
    }
  }

  /** Exactly the wanted elements, each once, in the order of `ids`. */
  ghost predicate Lists<X(!new)>(found: seq<X>, ids: seq<X>, want: set<X>) {
    && Distinct(found) && IsSubsequence(found, ids)
    && (forall x :: x in found <==> x in ids && x in want)
  }

  lemma {:induction false} SelectLists<X(!new)>(s: seq<X>, want: set<X>)
    requires Distinct(s)
    ensures Lists(Select(s, want), s, want)
  {
    SelectDistinct(s, want);
    SelectInOrder(s, want);
    forall x ensures x in Select(s, want) <==> x in s && x in want {
      SelectHas(s, want, x);
    }
  }

  /** The execution and idempotency tables. `ids` lists the attempts by primary key, oldest first. */
  class Store<K(==)> {
    var jobs: set<JobId>
    var ids: seq<Attempt>
    var rows: Table
    var keys: map<K, RunId>

    ghost predicate Valid() reads this {
      && Distinct(ids) && (forall a :: a in ids <==> a in rows)
      && (forall a :: a in rows ==> rows[a].Id() == a)
    }

    constructor (jobs: set<JobId>)
      ensures Valid() && this.jobs == jobs && rows == map[] && keys == map[]
    {
      this.jobs, ids, rows, keys := jobs, [], map[], map[];
    }

    /** A plain insert: it never overwrites a row. */
    method Add(ex: Execution) returns (r: Result<Attempt, DbError>)
      requires Valid()
      modifies this`ids, this`rows
      ensures Valid()
      ensures r.Ok? <==> ex.Id() !in old(rows) && ex.job in jobs
      ensures r.Ok? ==> rows == old(rows)[ex.Id() := ex] && ids == old(ids) + [ex.Id()]
      ensures r.Err? ==> rows == old(rows) && ids == old(ids)
    {
      if ex.Id() in rows {
        return Err(UniqueViolation);
      }
      if ex.job !in jobs {
        return Err(ForeignKeyViolation);
      }
      ids, rows := ids + [ex.Id()], rows[ex.Id() := ex];
      r := Ok(ex.Id());
    }

    /** Writes an execution back over its row; the database's own fields stay as stored. */
    method Update(ex: Execution) returns (r: Result<Attempt, DbError>)
      requires Valid()
      modifies this`rows
      ensures Valid()
      ensures r == if ex.Id() in old(rows) then Ok(ex.Id()) else Err(EntityNotFound)
      ensures rows == if r.Ok? then Upsert(old(rows), ex) else old(rows)
      ensures forall a :: a in old(rows) ==>
        rows[a].cancelRequested == old(rows)[a].cancelRequested && rows[a].job == old(rows)[a].job
      ensures r.Ok? ==> Written(old(rows), rows, ex)
    {
      if ex.Id() !in rows {
        return Err(EntityNotFound);
      }
      rows := rows[ex.Id() := WriteBack(rows[ex.Id()], ex)];
      r := Ok(ex.Id());
    }

    /** Raises only when it has to insert for a job that is gone. */
    method UpsertRow(ex: Execution) returns (r: Result<Attempt, DbError>)
      requires Valid()
      modifies this`ids, this`rows
      ensures Valid()
      ensures r.Ok? <==> ex.Id() in old(rows) || ex.job in jobs
      ensures rows == if r.Ok? then Upsert(old(rows), ex) else old(rows)
      ensures r.Ok? ==> Written(old(rows), rows, ex)
    {
      if ex.Id() in rows {
        r := Update(ex);
      } else {
        r := Add(ex);
      }
    }

    /** At most one of any number of callers is answered true per schedule. */
    method Claim(a: Attempt) returns (won: bool)
      requires Valid()
      modifies this`rows
      ensures Valid() && won == HasSchedule(old(rows), a) && rows == ClaimRetry(old(rows), a) && !HasSchedule(rows, a)
      ensures won <==> a in old(rows) && old(rows)[a].nextRetryAt.Some?
      ensures rows == if won then old(rows)[a := old(rows)[a].(nextRetryAt := None)] else old(rows)
    {
      won := a in rows && rows[a].nextRetryAt.Some?;
      if won {
        rows := rows[a := rows[a].(nextRetryAt := None)];
      }
    }

    /** Every row with the wanted status, oldest first. */
    method ListByStatus(status: JobStatus) returns (found: seq<Attempt>)
      requires Valid()
      ensures found == Select(ids, WithStatus(rows, status)) && Lists(found, ids, WithStatus(rows, status))
    {
      found := [];
      for k := 0 to |ids|
        invariant found == Select(ids[..k], WithStatus(rows, status))
      {
        assert ids[..k + 1] == ids[..k] + [ids[k]];
        SelectSnoc(ids[..k], ids[k], WithStatus(rows, status));
        if rows[ids[k]].status == status {
          found := found + [ids[k]];
        }
      }
      assert ids[..|ids|] == ids;
      SelectLists(ids, WithStatus(rows, status));
    }

    /** Every RETRYING row without schedule that no higher attempt of its run supersedes, oldest first. */
    method ListDangling() returns (found: seq<Attempt>)
      requires Valid()
      ensures found == Select(ids, DanglingIn(rows)) && Lists(found, ids, DanglingIn(rows))
    {
      found := [];
      for k := 0 to |ids|
        invariant found == Select(ids[..k], DanglingIn(rows))
      {
        assert ids[..k + 1] == ids[..k] + [ids[k]];
        SelectSnoc(ids[..k], ids[k], DanglingIn(rows));
        var ex := rows[ids[k]];
        if ex.status.Retrying? && ex.nextRetryAt.None? && !IsSuperseded(rows, ids[k]) {
          found := found + [ids[k]];
        }
      }
      assert ids[..|ids|] == ids;
      SelectLists(ids, DanglingIn(rows));
    }

    /** A taken key is left alone, whatever became of the job; a free one is refused when the job is gone. */
    method TryClaim(key: K, job: JobId, run: RunId) returns (r: Result<bool, DbError>)
      modifies this`keys
      ensures r == if key in old(keys) then Ok(false) else if job in jobs then Ok(true) else Err(ForeignKeyViolation)
      ensures keys == if r == Ok(true) then old(keys)[key := run] else old(keys)
    {
      if key in keys {
        return Ok(false);
      }
      if job !in jobs {
        return Err(ForeignKeyViolation);
      }
      keys := keys[key := run];
      r := Ok(true);
    }

    method Release(key: K) returns (deleted: bool)
      modifies this`keys
      ensures deleted == (key in old(keys)) && keys == old(keys) - {key}
    {
      deleted := key in keys;
      keys := keys - {key};
    }
  }
}
