/** The tables as the program holds them: one object, changed only by its guarded statements. */
module Storage {
  import opened Prelude
  import opened Ledger
  import opened Lots

  datatype WriteError = DuplicateSignal | SignalNotPending | SignalAlreadyPublished | NoSuchOrder | LotNotOpen(id: SignalId)

  class Database {
    var signals: map<SignalId, Signal>
    var events: seq<Event>
    var executions: seq<Execution>
    var orders: map<OrderId, Order>
    var rows: seq<Row>

    function Contents(): Tables
      reads this
    {
      Tables(signals, events, executions, orders, rows)
    }

    constructor ()
      ensures Contents() == EMPTY
    {
      signals, events, executions, orders, rows := map[], [], [], map[], [];
    }

    /** The unique index on the dedupe key refuses a second proposal. `id` is the identifier the database draws. */
    method InsertSignal(id: SignalId, draft: Draft, now: int) returns (r: Result<Signal, WriteError>)
      requires id !in signals
      modifies this
      ensures var t := Ledger.InsertSignal(old(Contents()), id, draft, now);
              && Contents() == (if t == None then old(Contents()) else t.value)
              && r == if t == None then Failure(DuplicateSignal) else Success(t.value.signals[id])
    {
      if DedupeKeyTaken(signals, draft.dedupeKey) {
        return Failure(DuplicateSignal);
      }
      var signal := Signal(draft.symbol, draft.side, draft.quantity, draft.mode, draft.estimatedPrice, draft.dedupeKey,
                           now, draft.autoDecideAt, Pending, None, false, None);
      signals := signals[id := signal];
      r := Success(signal);
    }

    /** Guarded update and audit row, in one transaction. */
    method TransitionSignal(id: SignalId, to: Status, now: int) returns (r: Result<Signal, WriteError>)
      modifies this
      ensures var t := Ledger.TransitionSignal(old(Contents()), id, to, now);
              && Contents() == (if t == None then old(Contents()) else t.value)
              && (r == if t == None then Failure(SignalNotPending) else Success(t.value.signals[id]))
              && (t.Some? <==> id in old(signals) && old(signals)[id].status == Pending)
    {
      if id !in signals || signals[id].status != Pending {
        return Failure(SignalNotPending);
      }
      signals := signals[id := signals[id].(status := to, decidedAt := Some(now))];
      events := events + [Event(id, Pending, to)];
      r := Success(signals[id]);
    }

    method PublishSignal(id: SignalId, now: int) returns (r: Result<Signal, WriteError>)
      modifies this
      ensures var t := Ledger.PublishSignal(old(Contents()), id, now);
              && Contents() == (if t == None then old(Contents()) else t.value)
              && (r == if t == None then Failure(SignalAlreadyPublished) else Success(t.value.signals[id]))
              && (t.Some? <==> id in old(signals) && !old(signals)[id].published)
    {
      if id !in signals || signals[id].published {
        return Failure(SignalAlreadyPublished);
      }
      signals := signals[id := signals[id].(published := true, publishedAt := Some(now))];
      r := Success(signals[id]);
    }

    method RecordExecution(e: Execution)
      modifies this
      ensures Contents() == Ledger.RecordExecution(old(Contents()), e)
    {
      executions := executions + [e];
    }

    /** An upsert: the same broker order is the same row, and keeps the signal it was placed for. */
    method RecordPlacedOrder(oid: OrderId, id: SignalId, state: OrderState, placedAt: int)
      modifies this
      ensures Contents() == Ledger.RecordPlacedOrder(old(Contents()), oid, id, state, placedAt)
    {
      if oid in orders {
        orders := orders[oid := orders[oid].(report := orders[oid].report.(state := state))];
      } else {
        orders := orders[oid := Order(id, Report(state, 0.0, None), placedAt, None, None)];
      }
    }

    method UpdateOrderFromBroker(oid: OrderId, report: Report, polledAt: int, terminalAt: Option<int>)
      requires oid in orders
      modifies this
      ensures Contents() == RefreshOrder(old(Contents()), oid, report, polledAt, terminalAt)
    {
      orders := orders[oid := orders[oid].(report := report, lastPolledAt := Some(polledAt), terminalAt := terminalAt)];
    }

    method AppendTrackRecord(row: Row)
      modifies this
      ensures Contents() == AppendRow(old(Contents()), row)
    {
      rows := rows + [row];
    }

    /** One transaction: every listed lot is closed, or the rows already appended are rolled back. */
    method CloseLots(ids: seq<SignalId>, exitPrice: real, closedBy: SignalId, recordedAt: int, rowIds: seq<RowId>)
      returns (r: Result<seq<Row>, WriteError>)
      requires |rowIds| == |ids|
      modifies this
      ensures var t := Lots.CloseLots(old(Contents()), ids, exitPrice, closedBy, recordedAt, rowIds);
              && Contents() == (if t == None then old(Contents()) else t.value)
              && (r.Success? <==> t.Some?)
              && (r.Success? ==> rows == old(rows) + r.value && |r.value| == |ids|)
    {
      var before := rows;
      var closed: seq<Row> := [];
      for i := 0 to |ids|
        invariant |closed| == i && rows == before + closed && Contents() == old(Contents()).(rows := rows)
        invariant Lots.CloseLots(Contents(), ids[i..], exitPrice, closedBy, recordedAt, rowIds[i..])
                  == Lots.CloseLots(old(Contents()), ids, exitPrice, closedBy, recordedAt, rowIds)
      {
        assert ids[i..][0] == ids[i] && rowIds[i..][0] == rowIds[i];
        assert ids[i..][1..] == ids[i + 1..] && rowIds[i..][1..] == rowIds[i + 1..];
        var row := ClosingRow(Contents(), ids[i], exitPrice, closedBy, recordedAt, rowIds[i]);
        if row == None {
          rows := before;
          return Failure(LotNotOpen(ids[i]));
        }
        rows := rows + [row.value];
        closed := closed + [row.value];
      }
      r := Success(closed);
    }
  }
}
