/** The relational store behind `DBUtility`, seen only through the calls the importer makes. */
module Store {
  import opened Wrappers
  import opened Errors
  import opened Tables

  /** The calls into the store:
      `ExecuteNoneQuery(sql)`, `BulkInsert(table, data)`, `CleanData(table)` (emptying a table)
      and `ExecuteProcecure(name)`. */
  datatype Action =
    | Execute(sql: string)
    | BulkInsert(table: string, data: Table)
    | Truncate(table: string)
    | CallProcedure(name: string)

  /** The database: the calls it has accepted, in order. Which calls it refuses (a lost
      connection, a SQL error) is fixed by `rejects`; a refused call changes nothing and raises. */
  class Database {
    var log: seq<Action>
    const rejects: Action -> bool

    constructor(rejects: Action -> bool)
      ensures log == [] && this.rejects == rejects
    {
      log := [];
      this.rejects := rejects;
    }

    /** One call: appended to the log if accepted. */
    method Apply(a: Action) returns (ok: bool)
      modifies this
      ensures ok == !rejects(a)
      ensures log == if ok then old(log) + [a] else old(log)
    {
      ok := !rejects(a);
      if ok {
        log := log + [a];
      }
    }
  }

  /** The rows a log leaves in table `t`: a `CleanData` empties it, a bulk insert appends its
      rows. The effect of SQL text and procedures on `t` is not modelled. */
  function Contents(log: seq<Action>, t: string): seq<Row>
    decreases |log|
  {
    if log == [] then []
    else
      var before := Contents(log[..|log| - 1], t);
      match log[|log| - 1]
      case Truncate(u) => if u == t then [] else before
      case BulkInsert(u, data) => if u == t then before + data.rows else before
      case _ => before
  }

  /** An empty-then-insert of `t` leaves exactly the inserted rows, whatever came before. */
  lemma ReplaceContents(log: seq<Action>, t: string, data: Table)
    ensures Contents(log + [Truncate(t), BulkInsert(t, data)], t) == data.rows
  {
    var l1 := log + [Truncate(t)];
    assert (l1 + [BulkInsert(t, data)])[..|l1|] == l1;
    assert l1[..|log|] == log;
    assert [] + data.rows == data.rows;
  }

  /** Calls that do not touch `t` leave its contents alone. */
  lemma {:induction false} ContentsUntouched(log: seq<Action>, more: seq<Action>, t: string)
    requires forall k :: 0 <= k < |more| ==> !Touches(more[k], t)
    ensures Contents(log + more, t) == Contents(log, t)
    decreases |more|
  {
    if more != [] {
      var m := more[..|more| - 1];
      assert (log + more)[..|log + more| - 1] == log + m;
      ContentsUntouched(log, m, t);
    } else {
      assert log + more == log;
    }
  }

  /** Whether a call empties or fills table `t`. */
  predicate Touches(a: Action, t: string) {
    (a.Truncate? || a.BulkInsert?) && a.table == t
  }

  // ---------------------------------------------------------------------------
  // What a run leaves in the store.

  /** The calls the store accepted, in order, and the error that ended the run, if any. */
  datatype Outcome = Outcome(log: seq<Action>, failure: Option<Error>)

  /** Nothing asked of the store, nothing raised. */
  function Done(): Outcome {
    Outcome([], None)
  }

  /** An error raised by the importer itself, before any further call. */
  function Raise(e: Error): Outcome {
    Outcome([], Some(e))
  }

  /** One call into the store; a refused call raises `onReject`. */
  function Call(a: Action, onReject: Error, rejects: Action -> bool): (o: Outcome)
    ensures o.failure.None? <==> !rejects(a)
  {
    if rejects(a) then Raise(onReject) else Outcome([a], None)
  }

  /** `first`, then `next` unless `first` raised. */
  function Then(first: Outcome, next: Outcome): (o: Outcome)
    ensures o.failure.None? <==> first.failure.None? && next.failure.None?
  {
    if first.failure.Some? then first else Outcome(first.log + next.log, next.failure)
  }

  /** Whether a method's result reports the outcome's error. */
  predicate Reports(r: Result<(), Error>, o: Outcome) {
    (r.Success? <==> o.failure.None?) && (r.Failure? ==> o.failure == Some(r.error))
  }

  /** Logs regroup freely; appending nothing changes nothing. */
  lemma LogRegroup(a: seq<Action>, b: seq<Action>, c: seq<Action>)
    ensures (a + b) + c == a + (b + c) && a + [] == a
  {
  }

  lemma ThenAssociative(a: Outcome, b: Outcome, c: Outcome)
    ensures Then(Then(a, b), c) == Then(a, Then(b, c))
  {
    if a.failure.None? && b.failure.None? {
      assert (a.log + b.log) + c.log == a.log + (b.log + c.log);
    }
  }

  lemma ThenDone(a: Outcome)
    ensures Then(a, Done()) == a && Then(Done(), a) == a
  {
    assert a.log + [] == a.log && [] + a.log == a.log;
  }
}
