/** The scripted broker the program runs against by default (backend/src/orchestrator/robinhood/mockClient.ts). */
module Brokerage {
  import opened Prelude
  import opened Ledger
  import opened Protocol

  /** An order follows its script; `cursor` is the step the next look at it reports. */
  datatype Scripted = Scripted(refId: SignalId, script: seq<Report>, cursor: nat)

  datatype Book = Book(scripts: map<Symbol, seq<Report>>, orders: map<OrderId, Scripted>)

  datatype Call = PlaceCall(symbol: Symbol, refId: SignalId) | GetCall(oid: OrderId)

  /** Orders are numbered from one, follow a script that says something, and no two share a reference. */
  ghost predicate BookValid(b: Book) {
    && (forall o :: o in b.orders <==> 1 <= o <= |b.orders|)
    && (forall o :: o in b.orders ==> b.orders[o].script != [])
    && (forall o, p :: o in b.orders && p in b.orders && b.orders[o].refId == b.orders[p].refId ==> o == p)
  }

  function Step(o: Scripted): Report
    requires o.script != []
  {
    o.script[Min(o.cursor, |o.script| - 1)]
  }

  /** What the broker would report of each order. */
  ghost function View(b: Book): (v: map<OrderId, BrokerOrder>)
    requires BookValid(b)
    ensures v.Keys == b.orders.Keys
  {
    map o | o in b.orders :: BrokerOrder(b.orders[o].refId, Step(b.orders[o]))
  }

  /** Once a script reaches a terminal state it stays there. */
  ghost predicate Settles(script: seq<Report>) {
    forall i, j :: 0 <= i < j < |script| && Terminal(script[i].state) ==> script[j] == script[i]
  }

  predicate Refuses(b: Book, s: Symbol) {
    s !in b.scripts || b.scripts[s] == []
  }

  ghost predicate Known(b: Book, refId: SignalId) {
    exists o :: o in b.orders && b.orders[o].refId == refId
  }

  /** `placeEquityOrder`: the same reference is the same order. */
  ghost function Place(b: Book, s: Symbol, refId: SignalId): Option<(Book, OrderId, OrderState)> {
    if Refuses(b, s) then None
    else if Known(b, refId) then
      var o :| o in b.orders && b.orders[o].refId == refId;
      if b.orders[o].script == [] then None else Some((b, o, b.orders[o].script[0].state))
    else
      var o := |b.orders| + 1;
      Some((b.(orders := b.orders[o := Scripted(refId, b.scripts[s], 1)]), o, b.scripts[s][0].state))
  }

  class MockBroker {
    const scripts: map<Symbol, seq<Report>>
    var orders: map<OrderId, Scripted>
    var calls: seq<Call>

    ghost function Contents(): Book
      reads this
    {
      Book(scripts, orders)
    }

    constructor (scripts: map<Symbol, seq<Report>>)
      ensures Contents() == Book(scripts, map[]) && BookValid(Contents()) && calls == []
    {
      this.scripts := scripts;
      orders, calls := map[], [];
    }

    method PlaceEquityOrder(s: Symbol, refId: SignalId) returns (r: Option<(OrderId, OrderState)>)
      requires BookValid(Contents())
      modifies this
      ensures var p := Place(old(Contents()), s, refId);
              && Contents() == (if p == None then old(Contents()) else p.value.0)
              && r == if p == None then None else Some((p.value.1, p.value.2))
      ensures BookValid(Contents()) && calls == old(calls) + [PlaceCall(s, refId)]
      ensures r.Some? ==> r.value.0 in orders && orders[r.value.0].refId == refId
                          && (Known(old(Contents()), refId) ==> orders == old(orders))
    {
      calls := calls + [PlaceCall(s, refId)];
      if s !in scripts || scripts[s] == [] {
        return None;
      }
      if o :| o in orders && orders[o].refId == refId {
        return Some((o, orders[o].script[0].state));
      }
      var o := |orders| + 1;
      NewOrder(Contents(), o, Scripted(refId, scripts[s], 1));
      orders := orders[o := Scripted(refId, scripts[s], 1)];
      r := Some((o, scripts[s][0].state));
    }

    /** Each look moves an order one step along its script; one that has finished stays as it finished. */
    method GetEquityOrder(oid: OrderId) returns (r: Option<Report>)
      requires BookValid(Contents())
      modifies this
      ensures BookValid(Contents()) && orders.Keys == old(orders.Keys) && calls == old(calls) + [GetCall(oid)]
      ensures r == if oid in old(orders) then Some(Step(old(orders[oid]))) else None
      ensures forall o :: o in orders && o != oid ==> orders[o] == old(orders[o])
      ensures oid in orders ==> orders[oid] == old(orders[oid]).(cursor := old(orders[oid]).cursor + 1)
      ensures forall o :: o in orders && Settles(orders[o].script) && Terminal(old(View(Contents()))[o].report.state) ==>
                View(Contents())[o] == old(View(Contents()))[o]
    {
      hide View, Settles, Terminal, BookValid;
      calls := calls + [GetCall(oid)];
      if oid !in orders {
        return None;
      }
      var entry := orders[oid];
      Says(Contents(), oid);
      r := Some(entry.script[Min(entry.cursor, |entry.script| - 1)]);
      Looked(Contents(), oid);
      orders := orders[oid := entry.(cursor := entry.cursor + 1)];
    }
  }

  lemma Says(b: Book, oid: OrderId)
    requires BookValid(b) && oid in b.orders
    ensures b.orders[oid].script != []
  {
  }

  lemma SettledStays(o: Scripted)
    requires o.script != [] && Settles(o.script) && Terminal(Step(o).state)
    ensures Step(o.(cursor := o.cursor + 1)) == Step(o)
  {
    var n := |o.script| - 1;
    if o.cursor < n { assert o.script[o.cursor + 1] == o.script[o.cursor]; }
  }

  lemma Looked(b: Book, oid: OrderId)
    requires BookValid(b) && oid in b.orders
    ensures var entry := b.orders[oid]; var b' := b.(orders := b.orders[oid := entry.(cursor := entry.cursor + 1)]);
            && BookValid(b') && b'.orders.Keys == b.orders.Keys
            && forall o :: o in b.orders && Settles(b.orders[o].script) && Terminal(View(b)[o].report.state) ==> View(b')[o] == View(b)[o]
  {
    hide Settles, Terminal;
    var entry := b.orders[oid];
    var after := b.orders[oid := entry.(cursor := entry.cursor + 1)];
    assert after.Keys == b.orders.Keys;
    assert |after.Keys| == |after| && |b.orders.Keys| == |b.orders|;
    if Settles(entry.script) && Terminal(Step(entry).state) { SettledStays(entry); }
  }

  lemma Grows(orders: map<OrderId, Scripted>, o: OrderId, entry: Scripted)
    requires o !in orders
    ensures |orders[o := entry]| == |orders| + 1
  {
    var after := orders[o := entry];
    assert after.Keys == orders.Keys + {o};
    assert |after.Keys| == |after| && |orders.Keys| == |orders|;
  }

  lemma NewOrder(b: Book, o: OrderId, entry: Scripted)
    requires BookValid(b) && o == |b.orders| + 1 && entry.script != [] && !Known(b, entry.refId)
    ensures BookValid(b.(orders := b.orders[o := entry]))
  {
    var after := b.orders[o := entry];
    Grows(b.orders, o, entry);
    forall p | p in b.orders ensures b.orders[p].refId != entry.refId {
    }
  }
}
