/** The paper portfolio: open lots added up per symbol (backend/src/orchestrator/paperPositions.ts). */
module Portfolio {
  import opened Prelude
  import opened Lots
  import opened LotsLaws
  import opened Storage
  import Risk

  datatype PaperPosition = PaperPosition(symbol: Symbol, quantity: real, sellable: real, averageBuyPrice: Option<real>)

  /** The symbols in the order the lots first mention them. */
  function SymbolsSeen(lots: seq<OpenLot>): seq<Symbol> {
    if lots == [] then []
    else
      var before, s := SymbolsSeen(lots[..|lots| - 1]), lots[|lots| - 1].symbol;
      if s in before then before else before + [s]
  }

  function Cost(lots: seq<OpenLot>): real {
    if lots == [] then 0.0 else Cost(lots[..|lots| - 1]) + lots[|lots| - 1].entryPrice * lots[|lots| - 1].quantity
  }

  function PositionIn(lots: seq<OpenLot>, s: Symbol): PaperPosition {
    var own := OfSymbol(lots, s);
    PaperPosition(s, Shares(own), Shares(own), if Shares(own) == 0.0 then None else Some(Cost(own) / Shares(own)))
  }

  function PositionsOf(lots: seq<OpenLot>): (positions: seq<PaperPosition>)
    ensures |positions| == |SymbolsSeen(lots)|
    ensures forall i :: 0 <= i < |positions| ==> positions[i] == PositionIn(lots, SymbolsSeen(lots)[i])
  {
    seq(|SymbolsSeen(lots)|, i requires 0 <= i < |SymbolsSeen(lots)| => PositionIn(lots, SymbolsSeen(lots)[i]))
  }

  /** Each symbol with an open lot has one position, and no other symbol has any. */
  lemma {:induction false} SeenOnce(lots: seq<OpenLot>)
    ensures forall i, j :: 0 <= i < j < |SymbolsSeen(lots)| ==> SymbolsSeen(lots)[i] != SymbolsSeen(lots)[j]
    ensures forall s :: s in SymbolsSeen(lots) <==> exists l :: l in lots && l.symbol == s
  {
    if lots == [] {
    } else {
      var front, last := lots[..|lots| - 1], lots[|lots| - 1];
      SeenOnce(front);
      assert lots == front + [last];
    }
  }

  datatype Running = Running(quantity: real, cost: real)

  /** The running totals of the lots read so far. */
  ghost predicate Tallied(lots: seq<OpenLot>, bySymbol: map<Symbol, Running>, order: seq<Symbol>) {
    && order == SymbolsSeen(lots)
    && (forall s :: s in bySymbol <==> s in order)
    && (forall s :: s !in bySymbol ==> OfSymbol(lots, s) == [])
    && (forall s :: s in bySymbol ==> bySymbol[s] == Running(Shares(OfSymbol(lots, s)), Cost(OfSymbol(lots, s))))
  }

  function Add(bySymbol: map<Symbol, Running>, lot: OpenLot): map<Symbol, Running> {
    var running := if lot.symbol in bySymbol then bySymbol[lot.symbol] else Running(0.0, 0.0);
    bySymbol[lot.symbol := Running(running.quantity + lot.quantity, running.cost + lot.entryPrice * lot.quantity)]
  }

  lemma OneMoreLot(lots: seq<OpenLot>, lot: OpenLot, bySymbol: map<Symbol, Running>, order: seq<Symbol>)
    requires Tallied(lots, bySymbol, order)
    ensures Tallied(lots + [lot], Add(bySymbol, lot), if lot.symbol in bySymbol then order else order + [lot.symbol])
  {
    hide OfSymbol, Shares, Cost;
    var more := lots + [lot];
    assert more[..|more| - 1] == lots;
    forall s ensures OfSymbol(more, s) == if lot.symbol == s then OfSymbol(lots, s) + [lot] else OfSymbol(lots, s) {
      OfSymbolAppend(lots, lot, s);
    }
    AppendSums(OfSymbol(lots, lot.symbol), lot);
    NothingYet();
  }

  lemma NothingYet()
    ensures Shares([]) == 0.0 && Cost([]) == 0.0
  {
  }

  method PaperPositions(db: Database) returns (positions: seq<PaperPosition>)
    ensures positions == PositionsOf(ListOpenLots(db.Contents()))
  {
    hide OfSymbol, Shares, Cost, ListOpenLots, Add;
    var lots := ListOpenLots(db.Contents());
    var bySymbol: map<Symbol, Running>, order: seq<Symbol> := map[], [];
    Empty();
    for i := 0 to |lots|
      invariant Tallied(lots[..i], bySymbol, order)
    {
      assert lots[..i + 1] == lots[..i] + [lots[i]];
      OneMoreLot(lots[..i], lots[i], bySymbol, order);
      if lots[i].symbol !in bySymbol { order := order + [lots[i].symbol]; }
      bySymbol := Add(bySymbol, lots[i]);
    }
    assert lots[..|lots|] == lots;
    assert Tallied(lots, bySymbol, order);
    positions := [];
    for k := 0 to |order|
      invariant |positions| == k && forall j :: 0 <= j < k ==> positions[j] == PositionIn(lots, order[j])
    {
      assert order[k] in order && order[k] in bySymbol;
      var r := bySymbol[order[k]];
      positions := positions
        + [PaperPosition(order[k], r.quantity, r.quantity, if r.quantity == 0.0 then None else Some(r.cost / r.quantity))];
    }
  }

  lemma Empty()
    ensures Tallied([], map[], [])
  {
  }

  lemma AppendSums(own: seq<OpenLot>, lot: OpenLot)
    ensures Shares(own + [lot]) == Shares(own) + lot.quantity
    ensures Cost(own + [lot]) == Cost(own) + lot.entryPrice * lot.quantity
  {
    SharesAppend(own, lot);
    assert (own + [lot])[..|own|] == own;
  }

  /** The positions as the risk gate reads them. */
  function ForGate(positions: seq<PaperPosition>): (ps: seq<Risk.Position>)
    ensures |ps| == |positions|
    ensures forall i :: 0 <= i < |ps| ==> ps[i] == Risk.Position(positions[i].symbol, positions[i].quantity, positions[i].sellable)
  {
    seq(|positions|, i requires 0 <= i < |positions| =>
      Risk.Position(positions[i].symbol, positions[i].quantity, positions[i].sellable))
  }
}
