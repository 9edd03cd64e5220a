/** The client rows of one run in the log: only the posts of its own worker add to them. */
module PostedRows {
  import opened Options
  import opened Lease
  import opened WorkerSafety
  import opened RunRecords

  /** The client rows of one run, in log order. */
  function ClientRows(log: seq<Event>, run: string): seq<Event> {
    if log == [] then [] else
      ClientRows(log[..|log| - 1], run) +
      if IsClientRow(log[|log| - 1], run) then [log[|log| - 1]] else []
  }

  predicate IsClientRow(e: Event, run: string) { e.run == run && ClientKind(e.kind) }

  lemma {:induction false} ClientRowsAppend(log: seq<Event>, more: seq<Event>, run: string)
    ensures ClientRows(log + more, run) == ClientRows(log, run) + ClientRows(more, run)
  {
    hide IsClientRow;
    if more == [] {
      assert log + more == log;
    } else {
      assert (log + more)[..|log + more| - 1] == log + more[..|more| - 1];
      ClientRowsAppend(log, more[..|more| - 1], run);
    }
  }

  lemma {:induction false} NoClientRows(more: seq<Event>, run: string)
    requires forall e :: e in more ==> !IsClientRow(e, run)
    ensures ClientRows(more, run) == []
  {
    hide IsClientRow;
    if more != [] {
      NoClientRows(more[..|more| - 1], run);
    }
  }

  lemma OneClientRow(e: Event, run: string)
    requires IsClientRow(e, run)
    ensures ClientRows([e], run) == [e]
  {
    assert [e][..0] == [];
  }

  function RowsWith(rows: seq<Event>, op: Option<Op>): seq<Event> {
    if op.Some? && op.value.Post? then rows + [op.value.event] else rows
  }

  /** The client rows of a run after a transaction of its own worker. */
  lemma OwnClientRows(t: Tables, op: Op, run: string)
    requires OwnPost(op, run) && EndsFinally(op)
    ensures ClientRows(Apply(t, op).after.log, run) == RowsWith(ClientRows(t.log, run), Some(op))
  {
    hide Apply, ClientRows;
    var more := RowsAppended(t, op);
    ClientRowsAppend(t.log, more, run);
    if op.Post? {
      OneClientRow(op.event, run);
    } else {
      NoClientRows(more, run);
    }
  }

  lemma ForeignClientRows(t: Tables, op: Op, run: string, actor: string)
    requires Foreign(op, run) && (By(op, actor) || op.Recover? || op.Release? || op.Tick?)
    requires OwnPost(op, actor) && actor != run && EndsFinally(op)
    ensures ClientRows(Apply(t, op).after.log, run) == ClientRows(t.log, run)
  {
    hide Apply, ClientRows;
    var more := ForeignRowsAreQuiet(t, op, run, actor);
    ClientRowsAppend(t.log, more, run);
    NoClientRows(more, run);
  }
}
