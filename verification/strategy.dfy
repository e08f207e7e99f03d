/**
 * The SMA target/stop strategy of backtest.py (scripts/backtest.py is the
 * same file): a per-bar decision `next` and an order-status callback
 * `notify_order`, both acting on a pending-order slot, a recorded entry
 * price and the broker's position.
 *
 * The crossover sign of the bar is an input (the moving averages belong to
 * the backtesting library). The broker's position is kept as a field that
 * only a Completed fill changes, by one unit (the library's default stake).
 */
module Strategy {
  import opened Common

  datatype Side = Buy | Sell

  /** Why an order was submitted; the source logs a different line for each exit. */
  datatype Reason = Entry | Target | StopLoss

  /** What one bar does: nothing, or submit exactly one order. */
  datatype Decision = Hold | Submit(side: Side, reason: Reason)

  /** The order statuses the library reports through `notify_order`. */
  datatype OrderStatus = Created | Submitted | Accepted | Partial | Completed | Canceled | Expired | Margin | Rejected

  /** Strategy parameters: profit target and stop loss as fractions, and the two SMA windows. */
  datatype Params = Params(target: real, stopLoss: real, shortWindow: int, longWindow: int)

  /** The defaults of backtest.py:31-36. */
  const DefaultParams := Params(0.003, 0.001, 10, 50)

  /** The strategy's state as a value: pending order, entry price, position size. */
  datatype State = State(order: Option<Side>, entryPrice: Option<real>, size: int)

  const Initial := State(None, None, 0)

  /** Python truthiness of `self.entry_price`: neither None nor 0. */
  predicate HasEntry(e: Option<real>) {
    e.Some? && e.value != 0.0
  }

  /** Signed change of the position when an order of this side fills (unit stake). */
  function Delta(side: Side): int {
    match side
    case Buy => 1
    case Sell => -1
  }

  /**
   * The decision `next` takes on one bar. Only a bar without a pending order
   * submits; entries happen only when flat and only on a non-zero crossover;
   * an exit needs an open position and a truthy entry price, and always
   * trades against the position.
   */
  function Decide(s: State, p: Params, cross: int, close: real): (d: Decision)
    ensures d.Submit? ==> s.order.None?
    ensures (d.Submit? && d.reason == Entry) <==> (s.order.None? && s.size == 0 && cross != 0)
    ensures d.Submit? && d.reason == Entry ==> (d.side == Buy <==> cross > 0)
    ensures d.Submit? && d.reason != Entry ==> s.size != 0 && HasEntry(s.entryPrice)
    ensures d.Submit? && d.reason != Entry ==> (d.side == Sell <==> s.size > 0)
  {
    if s.order.Some? then Hold
    else if s.size == 0 && cross > 0 then Submit(Buy, Entry)
    else if s.size == 0 && cross < 0 then Submit(Sell, Entry)
    else if s.size > 0 && HasEntry(s.entryPrice) then
      var e := s.entryPrice.value;
      if close >= e * (1.0 + p.target) then Submit(Sell, Target)
      else if close <= e * (1.0 - p.stopLoss) then Submit(Sell, StopLoss)
      else Hold
    else if s.size < 0 && HasEntry(s.entryPrice) then
      var e := s.entryPrice.value;
      if close <= e * (1.0 - p.target) then Submit(Buy, Target)
      else if close >= e * (1.0 + p.stopLoss) then Submit(Buy, StopLoss)
      else Hold
    else Hold
  }

  /** The state after `next`: a submitted order occupies the pending slot. */
  function AfterNext(s: State, d: Decision): State {
    if d.Submit? then s.(order := Some(d.side)) else s
  }

  /**
   * The state after `notify_order`: a Completed fill of either side records
   * its price as the entry price, clears the pending slot and moves the
   * position by one unit; every other status leaves everything as it was.
   */
  function AfterNotify(s: State, status: OrderStatus, side: Side, price: real): State {
    if status == Completed then State(None, Some(price), s.size + Delta(side)) else s
  }

  class SmaTargetStopStrategy {
    const target: real
    const stopLoss: real
    const shortWindow: int
    const longWindow: int

    /** `self.order`: the side of the pending order, if any. */
    var order: Option<Side>
    /** `self.entry_price`. */
    var entryPrice: Option<real>
    /** `self.position.size`, owned by the broker. */
    var positionSize: int

    function Settings(): Params {
      Params(target, stopLoss, shortWindow, longWindow)
    }

    function Snapshot(): State
      reads this
    {
      State(order, entryPrice, positionSize)
    }

    constructor (target: real := 0.003, stopLoss: real := 0.001, shortWindow: int := 10, longWindow: int := 50)
      ensures Settings() == Params(target, stopLoss, shortWindow, longWindow)
      ensures Snapshot() == Initial
    {
      this.target := target;
      this.stopLoss := stopLoss;
      this.shortWindow := shortWindow;
      this.longWindow := longWindow;
      order := None;
      entryPrice := None;
      positionSize := 0;
    }

    /** `next`: `cross` is the crossover indicator's sign, `close` the bar's close. */
    method Next(cross: int, close: real) returns (d: Decision)
      modifies this
      ensures d == Decide(old(Snapshot()), Settings(), cross, close)
      ensures Snapshot() == AfterNext(old(Snapshot()), d)
    {
      d := Hold;
      if order.Some? {
        return;
      }
      if positionSize == 0 {
        if cross > 0 {
          order := Some(Buy);
          d := Submit(Buy, Entry);
          return;
        } else if cross < 0 {
          order := Some(Sell);
          d := Submit(Sell, Entry);
          return;
        }
      }
      if positionSize > 0 && HasEntry(entryPrice) {
        var price := close;
        if price >= entryPrice.value * (1.0 + target) {
          order := Some(Sell);
          d := Submit(Sell, Target);
        } else if price <= entryPrice.value * (1.0 - stopLoss) {
          order := Some(Sell);
          d := Submit(Sell, StopLoss);
        }
      }
      if positionSize < 0 && HasEntry(entryPrice) {
        var price := close;
        if price <= entryPrice.value * (1.0 - target) {
          order := Some(Buy);
          d := Submit(Buy, Target);
        } else if price >= entryPrice.value * (1.0 + stopLoss) {
          order := Some(Buy);
          d := Submit(Buy, StopLoss);
        }
      }
    }

    /** `notify_order` for an order of `side` now in `status`, executed at `price`. */
    method NotifyOrder(status: OrderStatus, side: Side, price: real)
      modifies this
      ensures Snapshot() == AfterNotify(old(Snapshot()), status, side, price)
    {
      if status == Completed {
        // the broker has already applied the fill to its position
        positionSize := positionSize + Delta(side);
        entryPrice := Some(price);
        order := None;
      }
    }
  }

  // ---------------------------------------------------------------------------
  // Properties of one bar
  // ---------------------------------------------------------------------------

  /** While an order is pending, a bar submits nothing and changes no field. */
  lemma PendingOrderBlocks(s: State, p: Params, cross: int, close: real)
    requires s.order.Some?
    ensures Decide(s, p, cross, close) == Hold
    ensures AfterNext(s, Decide(s, p, cross, close)) == s
  {
  }

  /** When flat with nothing pending, the crossover sign alone decides: buy, sell or nothing. */
  lemma FlatFollowsCrossover(s: State, p: Params, cross: int, close: real)
    requires s.order.None? && s.size == 0
    ensures Decide(s, p, cross, close) ==
      if cross > 0 then Submit(Buy, Entry) else if cross < 0 then Submit(Sell, Entry) else Hold
  {
  }

  /** Long exits: target first, then stop, else hold. */
  lemma LongExitLadder(s: State, p: Params, cross: int, close: real)
    requires s.order.None? && s.size > 0 && HasEntry(s.entryPrice)
    ensures var e := s.entryPrice.value;
      Decide(s, p, cross, close) ==
        if close >= e * (1.0 + p.target) then Submit(Sell, Target)
        else if close <= e * (1.0 - p.stopLoss) then Submit(Sell, StopLoss)
        else Hold
  {
  }

  /** Short exits mirror the long ladder with the inequalities reversed. */
  lemma ShortExitLadder(s: State, p: Params, cross: int, close: real)
    requires s.order.None? && s.size < 0 && HasEntry(s.entryPrice)
    ensures var e := s.entryPrice.value;
      Decide(s, p, cross, close) ==
        if close <= e * (1.0 - p.target) then Submit(Buy, Target)
        else if close >= e * (1.0 + p.stopLoss) then Submit(Buy, StopLoss)
        else Hold
  {
  }

  /** With an open position but no truthy entry price (None or 0), no exit is considered. */
  lemma NoExitWithoutEntryPrice(s: State, p: Params, cross: int, close: real)
    requires s.size != 0 && !HasEntry(s.entryPrice)
    ensures Decide(s, p, cross, close) == Hold
  {
  }

  /** When both thresholds are met on one bar, the exit is the profit one. */
  lemma TargetBeforeStop(s: State, p: Params, cross: int, close: real)
    requires s.order.None? && s.size != 0 && HasEntry(s.entryPrice)
    requires var e := s.entryPrice.value;
      if s.size > 0 then close >= e * (1.0 + p.target) && close <= e * (1.0 - p.stopLoss)
      else close <= e * (1.0 - p.target) && close >= e * (1.0 + p.stopLoss)
    ensures Decide(s, p, cross, close).Submit? && Decide(s, p, cross, close).reason == Target
  {
  }

  /** Entry 100, close 100.30 with the default fractions: a profit exit, and so with a stop wider than the move. */
  lemma ExitPriorityExample()
    ensures Decide(State(None, Some(100.0), 1), DefaultParams, 0, 100.30) == Submit(Sell, Target)
    ensures Decide(State(None, Some(100.0), 1), DefaultParams.(stopLoss := -0.01), 0, 100.30) == Submit(Sell, Target)
  {
  }

  /** `next` never touches the entry price or the position. */
  lemma NextKeepsEntryAndPosition(s: State, d: Decision)
    ensures AfterNext(s, d).entryPrice == s.entryPrice && AfterNext(s, d).size == s.size
  {
  }

  /** Any status but Completed changes nothing, so such an order stays pending for good. */
  lemma OnlyCompletedChangesState(s: State, status: OrderStatus, side: Side, price: real)
    requires status != Completed
    ensures AfterNotify(s, status, side, price) == s
  {
  }

  /** An exit fill overwrites the entry price with the exit price instead of clearing it. */
  lemma ExitFillOverwritesEntryPrice(s: State, side: Side, price: real)
    requires s.size == -Delta(side)
    ensures AfterNotify(s, Completed, side, price) == State(None, Some(price), 0)
  {
  }

  // ---------------------------------------------------------------------------
  // Runs of events
  // ---------------------------------------------------------------------------

  /** What the library delivers to the strategy: a new bar, or an order-status change. */
  datatype Event = Bar(cross: int, close: real) | Notification(status: OrderStatus, side: Side, price: real)

  function Step(s: State, p: Params, e: Event): State {
    match e
    case Bar(cross, close) => AfterNext(s, Decide(s, p, cross, close))
    case Notification(status, side, price) => AfterNotify(s, status, side, price)
  }

  function Run(s: State, p: Params, evs: seq<Event>): State
    decreases |evs|
  {
    if evs == [] then s else Run(Step(s, p, evs[0]), p, evs[1..])
  }

  /** The decisions taken on the bars of a run, one per bar. */
  function Decisions(s: State, p: Params, evs: seq<Event>): seq<Decision>
    decreases |evs|
  {
    if evs == [] then []
    else
      var here := if evs[0].Bar? then [Decide(s, p, evs[0].cross, evs[0].close)] else [];
      here + Decisions(Step(s, p, evs[0]), p, evs[1..])
  }

  /** The library reports a completed fill only for the order the strategy has pending. */
  predicate FillsPendingSide(s: State, e: Event) {
    e.Notification? && e.status == Completed ==> s.order == Some(e.side)
  }

  predicate FillsPendingSides(s: State, p: Params, evs: seq<Event>)
    decreases |evs|
  {
    evs == [] || (FillsPendingSide(s, evs[0]) && FillsPendingSides(Step(s, p, evs[0]), p, evs[1..]))
  }

  /**
   * One position at a time: the position is flat or one unit either way,
   * and a pending order either opens from flat or closes the position.
   */
  predicate OnePosition(s: State) {
    -1 <= s.size <= 1 && (s.order.Some? ==> -1 <= s.size + Delta(s.order.value) <= 1)
  }

  lemma StepKeepsOnePosition(s: State, p: Params, e: Event)
    requires OnePosition(s) && FillsPendingSide(s, e)
    ensures OnePosition(Step(s, p, e))
  {
  }

  /** Every run the library can deliver from the initial state keeps one position at a time. */
  lemma {:induction false} RunKeepsOnePosition(s: State, p: Params, evs: seq<Event>)
    requires OnePosition(s) && FillsPendingSides(s, p, evs)
    ensures OnePosition(Run(s, p, evs))
    decreases |evs|
  {
    if evs != [] {
      StepKeepsOnePosition(s, p, evs[0]);
      RunKeepsOnePosition(Step(s, p, evs[0]), p, evs[1..]);
    }
  }

  /**
   * A crossover up, its fill at 100, a bar inside both thresholds, then a
   * bar above 100 * 1.003: one long entry and one profit exit, nothing else.
   */
  lemma LongRoundTripScenario()
    ensures Decisions(Initial, DefaultParams,
                      [Bar(1, 100.0), Bar(0, 100.0), Notification(Completed, Buy, 100.0),
                       Bar(0, 100.2), Bar(0, 100.5), Notification(Completed, Sell, 100.5), Bar(0, 100.6)])
            == [Submit(Buy, Entry), Hold, Hold, Submit(Sell, Target), Hold]
    ensures Run(Initial, DefaultParams,
                [Bar(1, 100.0), Bar(0, 100.0), Notification(Completed, Buy, 100.0),
                 Bar(0, 100.2), Bar(0, 100.5), Notification(Completed, Sell, 100.5), Bar(0, 100.6)])
            == State(None, Some(100.5), 0)
  {
  }
}
