/**
 The life of an order and of a protected position over every run of the paper exchange.
*/
module ExchangeOrders {
  import opened Common
  import opened FundingModel
  import opened Venue
  import opened Exchange
  import opened ExchangeLaws

  predicate Terminal(o: Order) { o.status in {FILLED, CANCELLED, REJECTED, EXPIRED} }

  /** An order's record agrees with its fills, and its status with how much is filled. */
  ghost predicate OrderOk(b: Book, id: OrderId)
    requires id in b.orders
  {
    var o := b.orders[id];
    && o.id == id
    && o.filled == Total(Ordered(id), b.fills)
    && match o.status
       case NEW => o.filled == 0.0 < o.quantity && o.price.Some?
       case PARTIALLY_FILLED => 0.0 < o.filled < o.quantity && o.price.Some?
       case FILLED => o.filled == o.quantity && 0.0 < o.quantity
       case CANCELLED => 0.0 <= o.filled < o.quantity
       case REJECTED => o.filled == 0.0
       case EXPIRED => o.filled == 0.0 < o.quantity
       case CANCEL_REQUESTED => false
  }

  ghost predicate Lifecycle(b: Book) {
    && PositivePositions(b.positions)
    && (forall id :: id in b.orders ==> OrderOk(b, id))
    && (forall id :: id !in b.orders ==> Total(Ordered(id), b.fills) == 0.0)
    && (forall s, n :: Protection(s, n) in b.orders ==> s in b.lastSequence && n <= b.lastSequence[s])
    && (forall id :: id in b.ids <==> id in b.orders)
    && (forall i, j :: 0 <= i < j < |b.ids| ==> b.ids[i] != b.ids[j])
  }

  lemma LifecycleIsFillable(b: Book)
    requires Lifecycle(b)
    ensures Fillable(b)
  {
    forall id | id in b.orders ensures b.orders[id].id == id && OpenOrder(b.orders[id]) {
      assert OrderOk(b, id);
    }
  }

  /** Filling an order by `quantity` and recording it keeps every record in agreement. */
  lemma FillKeepsLifecycle(c: Config, b: Book, o: Order, quantity: real, price: real)
    requires quantity > 0.0 && PositivePositions(b.positions)
    ensures var b' := FillOrder(c, b, o, quantity, price);
            && PositivePositions(b'.positions)
            && forall id :: Total(Ordered(id), b'.fills)
                         == Total(Ordered(id), b.fills) + if id == o.id then quantity else 0.0
  {
    hide Rebook;
    var b' := FillOrder(c, b, o, quantity, price);
    var f := MakeFill(c, b, o, quantity, price);
    forall id ensures Total(Ordered(id), b'.fills)
                   == Total(Ordered(id), b.fills) + if id == o.id then quantity else 0.0 {
      TotalAppend(Ordered(id), b.fills, f);
    }
    forall s | s in b'.positions ensures b'.positions[s].quantity > 0.0 {
      if s != o.symbol {
        assert s in b'.positions - {o.symbol} && (b'.positions - {o.symbol})[s] == (b.positions - {o.symbol})[s];
      }
    }
  }

  /** Recording one order whose record is in agreement disturbs no other. */
  lemma RecordKeepsLifecycle(b: Book, b': Book, o: Order)
    requires Lifecycle(b) && PositivePositions(b'.positions)
    requires b'.orders == b.orders[o.id := o] && b'.lastSequence == b.lastSequence
    requires b'.ids == if o.id in b.orders then b.ids else b.ids + [o.id]
    requires o.id.Protection? ==> o.id.symbol in b.lastSequence && o.id.sequence <= b.lastSequence[o.id.symbol]
    requires forall id :: id != o.id ==> Total(Ordered(id), b'.fills) == Total(Ordered(id), b.fills)
    requires OrderOk(b', o.id)
    ensures Lifecycle(b')
  {
    hide Total;
    forall id | id in b'.orders ensures OrderOk(b', id) {
      if id != o.id { assert OrderOk(b, id); }
    }
  }

  lemma SubmitKeepsLifecycle(c: Config, b: Book, r: OrderRequest)
    requires c.Valid() && Lifecycle(b)
    ensures Lifecycle(Submit(c, b, r).book)
  {
    hide FillOrder, Total, Admit;
    if Client(r.id) !in b.orders {
      var o := Admit(c, b, r);
      if o.status == FILLED {
        FillKeepsLifecycle(c, PutOrder(b, o), o, r.quantity, o.price.value);
      }
      RecordKeepsLifecycle(b, Submit(c, b, r).book, o);
    }
  }

  lemma RecordAgrees(b: Book, id: OrderId)
    requires Lifecycle(b) && id in b.orders
    ensures OrderOk(b, id) && (id.Protection? ==> id.symbol in b.lastSequence && id.sequence <= b.lastSequence[id.symbol])
  {
  }

  lemma TouchKeepsLifecycle(c: Config, b: Book, id: OrderId, e: MarketEvent)
    requires c.Valid() && Lifecycle(b) && Fillable(b)
    ensures Lifecycle(Touch(c, b, id, e))
    ensures var b' := Touch(c, b, id, e); b'.ids == b.ids && b'.orders.Keys == b.orders.Keys && b'.lastSequence == b.lastSequence
  {
    hide FillOrder, Total, TouchQuantity, Lifecycle;
    if id in b.orders && Triggers(b.orders[id], e) {
      var o := b.orders[id];
      RecordAgrees(b, id);
      var qty := TouchQuantity(c, o);
      TouchPositive(c, o);
      var o' := o.(status := if qty >= o.quantity - o.filled then FILLED else PARTIALLY_FILLED, filled := o.filled + qty);
      FillKeepsLifecycle(c, b.(orders := b.orders[id := o']), o', qty, o.price.value);
      RecordKeepsLifecycle(b, Touch(c, b, id, e), o');
    }
  }

  lemma {:induction false} TouchAllKeepsLifecycle(c: Config, b: Book, ids: seq<OrderId>, e: MarketEvent)
    requires c.Valid() && Lifecycle(b) && Fillable(b)
    ensures Lifecycle(TouchAll(c, b, ids, e))
    ensures var b' := TouchAll(c, b, ids, e); b'.ids == b.ids && b'.orders.Keys == b.orders.Keys && b'.lastSequence == b.lastSequence
  {
    hide Lifecycle, Touch;
    if |ids| > 0 {
      TouchAllKeepsLifecycle(c, b, ids[..|ids| - 1], e);
      TouchKeepsLifecycle(c, TouchAll(c, b, ids[..|ids| - 1], e), ids[|ids| - 1], e);
    }
  }

  lemma ProtectKeepsLifecycle(c: Config, b: Book, e: MarketEvent)
    requires Lifecycle(b) && Protection(e.symbol, e.sequence) !in b.orders
    requires e.symbol in b.lastSequence && e.sequence <= b.lastSequence[e.symbol]
    ensures Lifecycle(Protect(c, b, e))
  {
    hide FillOrder;
    if e.symbol in b.positions && Breached(b.positions[e.symbol], e.mark) {
      var o := ProtectiveOrder(c, b, e);
      FillKeepsLifecycle(c, b, o, o.quantity, o.price.value);
      RecordKeepsLifecycle(b, Protect(c, b, e), o);
    }
  }

  lemma FundKeepsOrders(b: Book, e: MarketEvent)
    requires PositivePositions(b.positions)
    ensures var b' := Quoted(b, e);
            b'.orders == b.orders && b'.ids == b.ids && b'.fills == b.fills
            && b'.lastSequence == b.lastSequence[e.symbol := e.sequence] && PositivePositions(b'.positions)
  {
    hide SettlementLeg, PerBarLeg;
  }

  lemma QuotedKeepsLifecycle(b: Book, e: MarketEvent)
    requires Lifecycle(b) && Accepted(b, e)
    ensures Lifecycle(Quoted(b, e)) && Fillable(Quoted(b, e))
    ensures Protection(e.symbol, e.sequence) !in Quoted(b, e).orders
  {
    hide Total, Fund;
    FundKeepsOrders(b, e);
    var b' := Quoted(b, e);
    assert b'.orders == b.orders && b'.ids == b.ids && b'.fills == b.fills;
    forall id | id in b'.orders ensures OrderOk(b', id) { assert OrderOk(b, id); }
    LifecycleIsFillable(b');
  }

  lemma EventKeepsLifecycle(c: Config, b: Book, e: MarketEvent)
    requires c.Valid() && Lifecycle(b) && Fillable(b)
    ensures Lifecycle(ApplyEvent(c, b, e))
  {
    hide Lifecycle, TouchAll, Protect;
    if Accepted(b, e) {
      var quoted := Quoted(b, e);
      QuotedKeepsLifecycle(b, e);
      TouchAllKeepsLifecycle(c, quoted, quoted.ids, e);
      ProtectKeepsLifecycle(c, TouchAll(c, quoted, quoted.ids, e), e);
    }
  }

  /** Changes outside the order book leave every record in agreement. */
  lemma SameOrdersKeepLifecycle(b: Book, b': Book)
    requires Lifecycle(b) && PositivePositions(b'.positions)
    requires b'.orders == b.orders && b'.ids == b.ids && b'.fills == b.fills && b'.lastSequence == b.lastSequence
    ensures Lifecycle(b')
  {
    forall id | id in b'.orders ensures OrderOk(b', id) { assert OrderOk(b, id); }
  }

  lemma CancelKeepsLifecycle(b: Book, id: OrderId)
    requires Lifecycle(b)
    ensures Lifecycle(Cancel(b, id).book)
  {
    if id in b.orders && Resting(b.orders[id]) {
      LifecycleIds(b, id);
      assert OrderOk(b, id);
      RecordKeepsLifecycle(b, Cancel(b, id).book, b.orders[id].(status := CANCELLED));
    }
  }

  lemma StepKeepsLifecycle(c: Config, b: Book, a: Action)
    requires c.Valid() && Lifecycle(b) && Fillable(b)
    ensures Lifecycle(Step(c, b, a))
  {
    hide Submit, ApplyEvent;
    match a
    case DoSubmit(r) => SubmitKeepsLifecycle(c, b, r);
    case DoEvent(e) => EventKeepsLifecycle(c, b, e);
    case DoCancel(id) => CancelKeepsLifecycle(b, id);
    case DoProtect(s, stop, target) => SameOrdersKeepLifecycle(b, Step(c, b, a));
    case DoSettle(s, mark, rate) => SameOrdersKeepLifecycle(b, Step(c, b, a));
    case DoClose(s, mark, id) =>
      if s in b.positions {
        SameOrdersKeepLifecycle(b, FinalMark(b, s, mark));
        SubmitKeepsLifecycle(c, FinalMark(b, s, mark), ExitRequest(Some(b.positions[s]), s, id));
      } else {
        SubmitKeepsLifecycle(c, b, ExitRequest(None, s, id));
      }
  }

  /** Over every run, each order's filled quantity is the sum of its fills and agrees with its status. */
  lemma {:induction false} LifecycleHoldsOnEveryRun(c: Config, actions: seq<Action>)
    requires c.Valid()
    ensures Lifecycle(Run(c, actions))
  {
    hide Lifecycle, Step;
    if |actions| == 0 {
      EmptyLifecycle();
    } else {
      var prefix := actions[..|actions| - 1];
      LifecycleHoldsOnEveryRun(c, prefix);
      StepKeepsLifecycle(c, Run(c, prefix), actions[|actions| - 1]);
    }
  }

  lemma EmptyLifecycle()
    ensures Lifecycle(EMPTY_BOOK)
  {
  }

  // ---- What one event does to one order ---------------------------------------------------

  /** An order after the market touches it, given only the order and the event. */
  function Touched(c: Config, o: Order, e: MarketEvent): Order {
    if !Triggers(o, e) then o
    else
      var qty := TouchQuantity(c, o);
      o.(status := if qty >= o.quantity - o.filled then FILLED else PARTIALLY_FILLED, filled := o.filled + qty)
  }

  /** However the fills of other orders interleave, each listed order is touched once, by its own terms. */
  lemma {:induction false} TouchAllTouchesEach(c: Config, b: Book, ids: seq<OrderId>, e: MarketEvent, id: OrderId)
    requires c.Valid() && Lifecycle(b) && Fillable(b) && id in b.orders
    requires forall i, j :: 0 <= i < j < |ids| ==> ids[i] != ids[j]
    ensures var b' := TouchAll(c, b, ids, e);
            id in b'.orders && b'.orders[id] == if id in ids then Touched(c, b.orders[id], e) else b.orders[id]
  {
    hide FillOrder, TouchQuantity, Triggers, Lifecycle;
    if |ids| > 0 {
      var n := |ids| - 1;
      TouchAllTouchesEach(c, b, ids[..n], e, id);
      TouchAllKeepsLifecycle(c, b, ids[..n], e);
      TouchesOne(c, TouchAll(c, b, ids[..n], e), ids[n], e, id);
    }
  }

  lemma TouchesOne(c: Config, b: Book, id: OrderId, e: MarketEvent, k: OrderId)
    requires c.Valid() && Lifecycle(b) && Fillable(b) && k in b.orders
    ensures var b' := Touch(c, b, id, e);
            k in b'.orders && b'.orders[k] == if k == id then Touched(c, b.orders[k], e) else b.orders[k]
  {
    hide FillOrder, TouchQuantity, Lifecycle;
    if id in b.orders && Triggers(b.orders[id], e) {
      assert b.orders[id].id == id by { LifecycleIds(b, id); }
    }
  }

  lemma LifecycleIds(b: Book, id: OrderId)
    requires Lifecycle(b) && id in b.orders
    ensures b.orders[id].id == id && id in b.ids
  {
    assert OrderOk(b, id);
  }

  /** Once the quote is in, each order is touched once and no other order of the event's exit exists yet. */
  lemma QuotedThenTouched(c: Config, b: Book, e: MarketEvent, id: OrderId)
    requires c.Valid() && Lifecycle(b) && Accepted(b, e) && id in b.orders
    ensures var quoted := Quoted(b, e);
            && Fillable(quoted) && Lifecycle(quoted)
            && var touched := TouchAll(c, quoted, quoted.ids, e);
               && Protection(e.symbol, e.sequence) !in touched.orders
               && id in touched.orders && touched.orders[id] == Touched(c, b.orders[id], e)
  {
    hide TouchAll, Touched, Lifecycle, Quoted, Fillable;
    var quoted := Quoted(b, e);
    assert PositivePositions(b.positions) by { LifecyclePositions(b); }
    FundKeepsOrders(b, e);
    QuotedKeepsLifecycle(b, e);
    LifecycleIds(b, id);
    UniqueIds(quoted);
    TouchAllTouchesEach(c, quoted, quoted.ids, e, id);
    TouchAllKeepsLifecycle(c, quoted, quoted.ids, e);
  }

  lemma LifecyclePositions(b: Book)
    requires Lifecycle(b)
    ensures PositivePositions(b.positions)
  {
  }

  lemma UniqueIds(b: Book)
    requires Lifecycle(b)
    ensures forall i, j :: 0 <= i < j < |b.ids| ==> b.ids[i] != b.ids[j]
  {
  }

  /** A protective exit adds its own order and leaves every other record alone. */
  lemma ProtectKeepsOthers(c: Config, b: Book, e: MarketEvent, id: OrderId)
    requires PositivePositions(b.positions) && id in b.orders && id != Protection(e.symbol, e.sequence)
    ensures var b' := Protect(c, b, e); id in b'.orders && b'.orders[id] == b.orders[id]
  {
    hide FillOrder;
  }

  /** An accepted event touches every order of the book exactly once; a stale one touches none. */
  lemma OrderAfterEvent(c: Config, b: Book, e: MarketEvent, id: OrderId)
    requires c.Valid() && Lifecycle(b) && Fillable(b) && id in b.orders
    ensures var b' := ApplyEvent(c, b, e);
            id in b'.orders && b'.orders[id] == if Accepted(b, e) then Touched(c, b.orders[id], e) else b.orders[id]
  {
    hide TouchAll, Protect, Touched, Lifecycle, Quoted;
    if Accepted(b, e) {
      QuotedThenTouched(c, b, e, id);
      ProtectKeepsOthers(c, TouchAll(c, Quoted(b, e), Quoted(b, e).ids, e), e, id);
    }
  }

  /** What any call does to an existing order: an accepted event may touch it, a cancel may end it, nothing else changes it. */
  lemma OrderAfterStep(c: Config, b: Book, a: Action, id: OrderId)
    requires c.Valid() && Lifecycle(b) && Fillable(b) && id in b.orders
    ensures var b' := Step(c, b, a);
            && id in b'.orders
            && b'.orders[id] ==
                 if a.DoEvent? && Accepted(b, a.event) then Touched(c, b.orders[id], a.event)
                 else if a == DoCancel(id) && Resting(b.orders[id]) then b.orders[id].(status := CANCELLED)
                 else b.orders[id]
  {
    hide ApplyEvent, Submit, Touched, Lifecycle;
    match a
    case DoSubmit(r) => SubmitKeepsOthers(c, b, r, id);
    case DoEvent(e) => OrderAfterEvent(c, b, e, id);
    case DoClose(s, mark, exitId) =>
      if s in b.positions {
        SubmitKeepsOthers(c, FinalMark(b, s, mark), ExitRequest(Some(b.positions[s]), s, exitId), id);
      } else {
        SubmitKeepsOthers(c, b, ExitRequest(None, s, exitId), id);
      }
    case _ =>
  }

  lemma SubmitKeepsOthers(c: Config, b: Book, r: OrderRequest, id: OrderId)
    requires c.Valid() && PositivePositions(b.positions) && id in b.orders
    ensures var b' := Submit(c, b, r).book; id in b'.orders && b'.orders[id] == b.orders[id]
  {
    hide FillOrder, Admit;
    var o := Admit(c, b, r);
  }

  /** A terminal order is frozen: no later call of any kind changes anything about it. */
  lemma {:induction false} TerminalIsForever(c: Config, actions: seq<Action>, i: nat, id: OrderId)
    requires c.Valid() && i <= |actions|
    requires id in Run(c, actions[..i]).orders && Terminal(Run(c, actions[..i]).orders[id])
    ensures id in Run(c, actions).orders && Run(c, actions).orders[id] == Run(c, actions[..i]).orders[id]
    decreases |actions|
  {
    hide Lifecycle, Step;
    if i == |actions| {
      assert actions[..i] == actions;
    } else {
      var n := |actions| - 1;
      assert actions[..n][..i] == actions[..i];
      TerminalIsForever(c, actions[..n], i, id);
      LifecycleHoldsOnEveryRun(c, actions[..n]);
      OrderAfterStep(c, Run(c, actions[..n]), actions[n], id);
    }
  }

  // ---- A resting order needs at most two touches --------------------------------------------

  /** The market has come to the limit: the ask is at most a buyer's, the bid at least a seller's. */
  predicate Reaches(e: MarketEvent, o: Order) {
    o.price.Some? && if o.side == BUY then e.ask <= o.price.value else e.bid >= o.price.value
  }

  /** Accepted events after the first i calls whose quote reaches the limit of order o. */
  ghost function Crossings(c: Config, actions: seq<Action>, i: nat, o: Order): nat
    requires c.Valid()
    decreases |actions|
  {
    if |actions| <= i then 0
    else
      var n := |actions| - 1;
      var a := actions[n];
      Crossings(c, actions[..n], i, o)
      + if a.DoEvent? && a.event.symbol == o.symbol && Accepted(Run(c, actions[..n]), a.event)
           && Reaches(a.event, o) then 1 else 0
  }

  lemma TouchAdvances(c: Config, b: Book, id: OrderId, e: MarketEvent)
    requires c.Valid() && id in b.orders && OrderOk(b, id)
    requires Resting(b.orders[id]) && Triggers(b.orders[id], e)
    ensures var o' := Touched(c, b.orders[id], e);
            o'.status == FILLED || (b.orders[id].status == NEW && o'.status == PARTIALLY_FILLED)
  {
  }

  /** Unless it is cancelled, a resting order is filled by its second crossing event, and moves only on crossing events. */
  lemma {:induction false} TwoCrossingsComplete(c: Config, actions: seq<Action>, i: nat, id: OrderId)
    requires c.Valid() && i <= |actions|
    requires id in Run(c, actions[..i]).orders && Resting(Run(c, actions[..i]).orders[id])
    requires forall k :: i <= k < |actions| ==> actions[k] != DoCancel(id)
    ensures var o := Run(c, actions[..i]).orders[id];
            var crossings := Crossings(c, actions, i, o);
            && id in Run(c, actions).orders
            && var o' := Run(c, actions).orders[id];
               && (o'.symbol, o'.side, o'.price, o'.quantity) == (o.symbol, o.side, o.price, o.quantity)
               && (crossings == 0 ==> o' == o)
               && (crossings == 1 ==> o'.status == FILLED || (o.status == NEW && o'.status == PARTIALLY_FILLED))
               && (crossings >= 2 ==> o'.status == FILLED)
    decreases |actions|
  {
    hide Step, TouchQuantity, Run, Lifecycle;
    if i == |actions| {
      assert actions[..i] == actions;
    } else {
      var n := |actions| - 1;
      assert actions[..n][..i] == actions[..i];
      TwoCrossingsComplete(c, actions[..n], i, id);
      var b := Run(c, actions[..n]);
      LifecycleHoldsOnEveryRun(c, actions[..n]);
      RunExtends(c, actions);
      OrderAfterStep(c, b, actions[n], id);
      if actions[n].DoEvent? && Resting(b.orders[id]) && Triggers(b.orders[id], actions[n].event) {
        LifecycleOrder(b, id);
        TouchAdvances(c, b, id, actions[n].event);
      }
    }
  }

  lemma LifecycleOrder(b: Book, id: OrderId)
    requires Lifecycle(b) && id in b.orders
    ensures OrderOk(b, id)
  {
  }

  lemma RunExtends(c: Config, actions: seq<Action>)
    requires c.Valid() && |actions| > 0
    ensures var b := Run(c, actions[..|actions| - 1]); Run(c, actions) == Step(c, b, actions[|actions| - 1])
  {
  }

  // ---- Protective exits ------------------------------------------------------------------------

  /** After an accepted event, a position that survives in its symbol is strictly inside its stop and target. */
  lemma SurvivorsAreInsideProtection(c: Config, b: Book, e: MarketEvent)
    requires c.Valid() && Lifecycle(b) && Fillable(b) && Accepted(b, e)
    ensures var b' := ApplyEvent(c, b, e);
            e.symbol in b'.positions ==>
              var p := b'.positions[e.symbol];
              && (p.stopLoss.Some? ==> Sign(p.side) * (e.mark - p.stopLoss.value) > 0.0)
              && (p.takeProfit.Some? ==> Sign(p.side) * (p.takeProfit.value - e.mark) > 0.0)
  {
    var touched := TouchAll(c, Quoted(b, e), Quoted(b, e).ids, e);
    if e.symbol in touched.positions && Breached(touched.positions[e.symbol], e.mark) {
      ProtectFlattens(c, touched, e);
    }
  }

  lemma ProtectFlattens(c: Config, b: Book, e: MarketEvent)
    requires PositivePositions(b.positions)
    requires e.symbol in b.positions && Breached(b.positions[e.symbol], e.mark)
    ensures e.symbol !in Protect(c, b, e).positions
    ensures |Protect(c, b, e).closed| == |b.closed| + 1
  {
    hide MakeFill, CloseTrade, MarketPrice;
  }
}
