/** Turning a run's directives into what a later pass does about every order either side knows of. */
module DirectiveSettlement {
  import opened Text
  import opened OrderModels

  datatype Kind = Cancel | Reprice | Hold | Vanished | Uncovered

  datatype Reason =
    | PlanSaysSo
    | OverLine(price: Num, line: Num)
    | UnderLine(price: Num, line: Num)
    | Late(after: Time)
    | NoPrice
    | NotTriggered(price: Num)
    | NoAttemptsLeft
    | Triggered(price: Num)
    | NothingHit
    | NotResting
    | NotMentioned

  datatype Settlement = Settlement(orderId: string, kind: Kind, reason: Reason, newPrice: Option<Num>)

  predicate Acts(s: Settlement) {
    s.kind.Cancel? || s.kind.Reprice?
  }

  function CancelReason(d: OrderDirective, price: Option<Num>, moment: Time): Reason {
    if d.action.CancelOrder? then PlanSaysSo
    else if d.OverTheLine(price) then OverLine(price.value, d.cancelIfPriceAbove.value)
    else if d.UnderTheLine(price) then UnderLine(price.value, d.cancelIfPriceBelow.value)
    else Late(if d.cancelIfUnfilledAfter.Some? then d.cancelIfUnfilledAfter.value else 0)
  }

  function SettleOne(d: OrderDirective, price: Option<Num>, moment: Time): Settlement {
    if d.CancelsAt(price, moment) then Settlement(d.orderId, Cancel, CancelReason(d, price, moment), None)
    else if d.action.RepriceOrder? && d.reprice.Some? then
      var plan := d.reprice.value;
      if price.None? then Settlement(d.orderId, Hold, NoPrice, None)
      else if !plan.TriggeredAt(price.value) then Settlement(d.orderId, Hold, NotTriggered(price.value), None)
      else if d.RepricesLeft() <= 0 then Settlement(d.orderId, Hold, NoAttemptsLeft, None)
      else Settlement(d.orderId, Reprice, Triggered(price.value), Some(plan.newPrice))
    else Settlement(d.orderId, Hold, NothingHit, None)
  }

  // ---------------------------------------------------------------- the whole list

  function PriceOf(prices: map<string, Num>, symbol: string): Option<Num> {
    if symbol in prices then Some(prices[symbol]) else None
  }

  /** The first of each id, in order. */
  function FirstOfEach(ids: seq<string>): seq<string> {
    if ids == [] then []
    else
      var front, last := FirstOfEach(ids[..|ids| - 1]), ids[|ids| - 1];
      if last in front then front else front + [last]
  }

  function Settled(d: OrderDirective, resting: seq<string>, prices: map<string, Num>, moment: Time): Settlement {
    if d.orderId in resting then SettleOne(d, PriceOf(prices, d.symbol), moment)
    else Settlement(d.orderId, Vanished, NotResting, None)
  }

  function SettledAll(ds: seq<OrderDirective>, resting: seq<string>, prices: map<string, Num>, moment: Time)
    : (r: seq<Settlement>)
    ensures |r| == |ds|
  {
    seq(|ds|, i requires 0 <= i < |ds| => Settled(ds[i], resting, prices, moment))
  }

  function IdsOf(ds: seq<OrderDirective>): (ids: seq<string>)
    ensures |ids| == |ds|
  {
    seq(|ds|, i requires 0 <= i < |ds| => ds[i].orderId)
  }

  /** The resting orders nobody mentioned. */
  function Silent(resting: seq<string>, mentioned: seq<string>): seq<string> {
    if resting == [] then []
    else
      Silent(resting[..|resting| - 1], mentioned)
      + if resting[|resting| - 1] in mentioned then [] else [resting[|resting| - 1]]
  }

  function UncoveredAll(ids: seq<string>): (r: seq<Settlement>)
    ensures |r| == |ids|
  {
    seq(|ids|, i requires 0 <= i < |ids| => Settlement(ids[i], Uncovered, NotMentioned, None))
  }

  function SettleAll(ds: seq<OrderDirective>, resting: seq<string>, prices: map<string, Num>, moment: Time)
    : seq<Settlement>
  {
    SettledAll(ds, resting, prices, moment) + UncoveredAll(Silent(FirstOfEach(resting), IdsOf(ds)))
  }

  method Deduplicate(ids: seq<string>) returns (unique: seq<string>)
    ensures unique == FirstOfEach(ids)
  {
    unique := [];
    var i := 0;
    while i < |ids|
      invariant i <= |ids| && unique == FirstOfEach(ids[..i])
    {
      assert ids[..i + 1][..i] == ids[..i];
      if ids[i] !in unique {
        unique := unique + [ids[i]];
      }
      i := i + 1;
    }
    assert ids[..i] == ids;
  }

  method Settle(directives: seq<OrderDirective>, restingOrderIds: seq<string>, prices: map<string, Num>, moment: Time)
    returns (settlements: seq<Settlement>)
    ensures settlements == SettleAll(directives, restingOrderIds, prices, moment)
    ensures SettledInOrder(settlements, directives, restingOrderIds, prices, moment)
  {
    var resting := Deduplicate(restingOrderIds);
    var i := 0;
    FirstOfEachIs(restingOrderIds);
    settlements := [];
    var addressed: set<string> := {};
    while i < |directives|
      invariant i <= |directives| && settlements == SettledAll(directives[..i], restingOrderIds, prices, moment)
      invariant forall id :: id in addressed <==> id in IdsOf(directives[..i])
    {
      var directive := directives[i];
      addressed := addressed + {directive.orderId};
      assert IdsOf(directives[..i + 1]) == IdsOf(directives[..i]) + [directive.orderId];
      if directive.orderId !in resting {
        settlements := settlements + [Settlement(directive.orderId, Vanished, NotResting, None)];
      } else {
        settlements := settlements + [SettleOne(directive, PriceOf(prices, directive.symbol), moment)];
      }
      i := i + 1;
    }
    assert directives[..i] == directives;
    ghost var spoken := settlements;
    i := 0;
    while i < |resting|
      invariant i <= |resting|
      invariant settlements == spoken + UncoveredAll(Silent(resting[..i], IdsOf(directives)))
    {
      assert resting[..i + 1][..i] == resting[..i];
      if resting[i] !in addressed {
        settlements := settlements + [Settlement(resting[i], Uncovered, NotMentioned, None)];
      }
      i := i + 1;
    }
    assert resting[..i] == resting;
    ListIsSettled(directives, restingOrderIds, prices, moment);
  }

  lemma {:induction false} FirstOfEachIs(ids: seq<string>)
    ensures forall id :: id in FirstOfEach(ids) <==> id in ids
    ensures forall i, j :: 0 <= i < j < |FirstOfEach(ids)| ==> FirstOfEach(ids)[i] != FirstOfEach(ids)[j]
  {
    if ids != [] {
      FirstOfEachIs(ids[..|ids| - 1]);
      assert ids == ids[..|ids| - 1] + [ids[|ids| - 1]];
    }
  }

  // ---------------------------------------------------------------- what is done, and when

  /** The price is there and above the line. */
  predicate Over(price: Option<Num>, line: Option<Num>) {
    price.Some? && line.Some? && Above(price.value, line.value)
  }

  predicate Under(price: Option<Num>, line: Option<Num>) {
    price.Some? && line.Some? && Above(line.value, price.value)
  }

  /** When a directive withdraws its order: at once, or when one of its lines is passed or its time has come. */
  predicate Withdraws(d: OrderDirective, price: Option<Num>, moment: Time) {
    || d.action == CancelOrder
    || (d.action == HoldOrder
        && (|| Over(price, d.cancelIfPriceAbove) || Under(price, d.cancelIfPriceBelow)
            || (d.cancelIfUnfilledAfter.Some? && d.cancelIfUnfilledAfter.value <= moment)))
  }

  /** When it has its order placed anew: when a trigger is passed, and not more often than it allows. */
  predicate PlacesAnew(d: OrderDirective, price: Option<Num>) {
    && d.action == RepriceOrder && d.reprice.Some? && d.repricedTimes < d.reprice.value.maxTimes
    && (Over(price, d.reprice.value.whenPriceAbove) || Under(price, d.reprice.value.whenPriceBelow))
  }

  predicate DoneFor(s: Settlement, d: OrderDirective, price: Option<Num>, moment: Time) {
    && s.orderId == d.orderId
    && (s.kind == Cancel <==> Withdraws(d, price, moment))
    && (s.kind == Reprice <==> PlacesAnew(d, price))
    && s.newPrice == (if PlacesAnew(d, price) then Some(d.reprice.value.newPrice) else None)
    && s.kind != Vanished && s.kind != Uncovered
  }

  lemma SettledAsDirected(d: OrderDirective, price: Option<Num>, moment: Time)
    ensures DoneFor(SettleOne(d, price, moment), d, price, moment)
  {
  }

  /** Above compares as floats do: numbers by size, infinities beyond them, and NaN never. */
  lemma AboveIs(a: Num, b: Num, c: Num)
    ensures a.Fin? && b.Fin? ==> (Above(a, b) <==> a.value > b.value)
    ensures a.NaN? || b.NaN? ==> !Above(a, b)
    ensures a.PosInf? && !b.PosInf? && !b.NaN? ==> Above(a, b)
    ensures b.NegInf? && !a.NegInf? && !a.NaN? ==> Above(a, b)
    ensures Above(a, b) ==> !Above(b, a) && a != b
    ensures Above(a, b) && Above(b, c) ==> Above(a, c)
  {
  }

  /** The directives are settled one by one, and then the resting orders that none of them names, each once. */
  ghost predicate SettledInOrder(settlements: seq<Settlement>, ds: seq<OrderDirective>, resting: seq<string>,
                                 prices: map<string, Num>, moment: Time)
  {
    && |ds| <= |settlements|
    && (forall i :: 0 <= i < |ds| ==>
          if ds[i].orderId in resting then
            DoneFor(settlements[i], ds[i], if ds[i].symbol in prices then Some(prices[ds[i].symbol]) else None, moment)
          else
            settlements[i].orderId == ds[i].orderId && settlements[i].kind == Vanished && settlements[i].newPrice == None)
    && (forall i :: |ds| <= i < |settlements| ==>
          settlements[i].kind == Uncovered && settlements[i].newPrice == None && settlements[i].orderId in resting
          && forall d :: d in ds ==> d.orderId != settlements[i].orderId)
    && (forall i, j :: |ds| <= i < j < |settlements| ==> settlements[i].orderId != settlements[j].orderId)
    && (forall id :: id in resting && (forall d :: d in ds ==> d.orderId != id) ==>
          exists i :: |ds| <= i < |settlements| && settlements[i].orderId == id)
  }

  lemma {:induction false} SilentIs(resting: seq<string>, mentioned: seq<string>)
    requires forall i, j :: 0 <= i < j < |resting| ==> resting[i] != resting[j]
    ensures var silent := Silent(resting, mentioned);
            && (forall id :: id in silent <==> id in resting && id !in mentioned)
            && (forall i, j :: 0 <= i < j < |silent| ==> silent[i] != silent[j])
  {
    if resting != [] {
      var n := |resting| - 1;
      SilentIs(resting[..n], mentioned);
      assert resting == resting[..n] + [resting[n]];
    }
  }

  lemma ListIsSettled(ds: seq<OrderDirective>, resting: seq<string>, prices: map<string, Num>, moment: Time)
    ensures SettledInOrder(SettleAll(ds, resting, prices, moment), ds, resting, prices, moment)
  {
    var silent := Silent(FirstOfEach(resting), IdsOf(ds));
    var all := SettleAll(ds, resting, prices, moment);
    FirstOfEachIs(resting);
    SilentIs(FirstOfEach(resting), IdsOf(ds));
    forall i | 0 <= i < |ds|
      ensures all[i] == Settled(ds[i], resting, prices, moment)
      ensures var price := PriceOf(prices, ds[i].symbol);
              DoneFor(SettleOne(ds[i], price, moment), ds[i], price, moment)
    {
      SettledAsDirected(ds[i], PriceOf(prices, ds[i].symbol), moment);
    }
    forall i | |ds| <= i < |all| ensures all[i] == Settlement(silent[i - |ds|], Uncovered, NotMentioned, None) {
    }
    RestIsSilent(ds, resting, silent, all);
  }

  lemma MentionedIs(ds: seq<OrderDirective>, id: string)
    ensures id in IdsOf(ds) <==> exists d :: d in ds && d.orderId == id
  {
    if d :| d in ds && d.orderId == id {
      var k :| 0 <= k < |ds| && ds[k] == d;
      assert IdsOf(ds)[k] == id;
    }
    if id in IdsOf(ds) {
      var k :| 0 <= k < |ds| && IdsOf(ds)[k] == id;
      assert ds[k] in ds;
    }
  }

  lemma RestIsSilent(ds: seq<OrderDirective>, resting: seq<string>, silent: seq<string>, all: seq<Settlement>)
    requires |all| == |ds| + |silent|
    requires forall i :: |ds| <= i < |all| ==> all[i] == Settlement(silent[i - |ds|], Uncovered, NotMentioned, None)
    requires forall id :: id in silent <==> id in resting && id !in IdsOf(ds)
    requires forall i, j :: 0 <= i < j < |silent| ==> silent[i] != silent[j]
    ensures forall i :: |ds| <= i < |all| ==>
              all[i].orderId in resting && forall d :: d in ds ==> d.orderId != all[i].orderId
    ensures forall i, j :: |ds| <= i < j < |all| ==> all[i].orderId != all[j].orderId
    ensures forall id :: id in resting && (forall d :: d in ds ==> d.orderId != id) ==>
              exists i :: |ds| <= i < |all| && all[i].orderId == id
  {
    forall i | |ds| <= i < |all|
      ensures all[i].orderId in resting && forall d :: d in ds ==> d.orderId != all[i].orderId
    {
      assert all[i].orderId in silent;
      MentionedIs(ds, all[i].orderId);
    }
    forall id | id in resting && (forall d :: d in ds ==> d.orderId != id)
      ensures exists i :: |ds| <= i < |all| && all[i].orderId == id
    {
      MentionedIs(ds, id);
      var k :| 0 <= k < |silent| && silent[k] == id;
      assert all[|ds| + k].orderId == id;
    }
  }

  // ---------------------------------------------------------------- authority

  /** Some market price and some time make the pass act on this resting order. */
  ghost predicate CanAct(d: OrderDirective) {
    exists price, moment :: (price == None || (price.Some? && Priced(price.value))) && Acts(SettleOne(d, price, moment))
  }

  predicate MeetableAbove(line: Option<Num>) {
    line.Some? && (line.value.Fin? || line.value.NegInf?)
  }

  predicate MeetableBelow(line: Option<Num>) {
    line.Some? && (Priced(line.value) || line.value.PosInf?)
  }

  /** Some condition of the directive can be met at all. */
  predicate Meetable(d: OrderDirective) {
    match d.action
    case CancelOrder => true
    case HoldOrder =>
      MeetableAbove(d.cancelIfPriceAbove) || MeetableBelow(d.cancelIfPriceBelow) || d.cancelIfUnfilledAfter.Some?
    case RepriceOrder =>
      d.reprice.Some? && (MeetableAbove(d.reprice.value.whenPriceAbove) || MeetableBelow(d.reprice.value.whenPriceBelow))
  }

  /** A price above the line, when there is one. */
  function PriceOver(line: Num): Num {
    if line.Fin? && line.value > 0.0 then Fin(line.value + 1.0) else Fin(1.0)
  }

  function PriceUnder(line: Num): Num {
    if line.Fin? then Fin(line.value / 2.0) else Fin(1.0)
  }

  lemma ActsAt(d: OrderDirective, price: Option<Num>, moment: Time)
    requires price.Some? ==> Priced(price.value)
    requires Acts(SettleOne(d, price, moment))
    ensures CanAct(d)
  {
  }

  lemma ActingNeedsMeetable(d: OrderDirective, price: Option<Num>, moment: Time)
    requires price.Some? ==> Priced(price.value)
    requires Acts(SettleOne(d, price, moment))
    ensures d.NeedsWatching() && Meetable(d)
  {
  }

  /** A directive has authority exactly when the watch is told to look at it and a condition of it can be met. */
  lemma AuthorityIsExact(d: OrderDirective)
    requires d.WellFormed()
    ensures CanAct(d) <==> d.NeedsWatching() && Meetable(d)
  {
    if d.NeedsWatching() && Meetable(d) {
      match d.action {
        case CancelOrder => ActsAt(d, None, 0);
        case HoldOrder =>
          if d.cancelIfUnfilledAfter.Some? {
            ActsAt(d, None, d.cancelIfUnfilledAfter.value);
          } else if MeetableAbove(d.cancelIfPriceAbove) {
            ActsAt(d, Some(PriceOver(d.cancelIfPriceAbove.value)), 0);
          } else {
            ActsAt(d, Some(PriceUnder(d.cancelIfPriceBelow.value)), 0);
          }
        case RepriceOrder =>
          var plan := d.reprice.value;
          if MeetableAbove(plan.whenPriceAbove) {
            ActsAt(d, Some(PriceOver(plan.whenPriceAbove.value)), 0);
          } else {
            ActsAt(d, Some(PriceUnder(plan.whenPriceBelow.value)), 0);
          }
      }
    }
    if CanAct(d) {
      var price, moment :|
        (price == None || (price.Some? && Priced(price.value))) && Acts(SettleOne(d, price, moment));
      ActingNeedsMeetable(d, price, moment);
    }
  }

  predicate FinitePositive(line: Option<Num>) {
    line.Some? ==> Priced(line.value)
  }

  predicate OrdinaryLines(d: OrderDirective) {
    && FinitePositive(d.cancelIfPriceAbove) && FinitePositive(d.cancelIfPriceBelow)
    && (d.reprice.Some? ==> FinitePositive(d.reprice.value.whenPriceAbove)
                            && FinitePositive(d.reprice.value.whenPriceBelow))
  }

  /** With finite positive lines, what the watch is told is exactly what it can act on. */
  lemma WatchingIsExactWithOrdinaryLines(d: OrderDirective)
    requires d.WellFormed() && OrdinaryLines(d)
    ensures CanAct(d) <==> d.NeedsWatching()
  {
    AuthorityIsExact(d);
  }

  /** A line at infinity or NaN is watched for nothing. */
  lemma WatchedForNothing(id: string, line: Num)
    requires id != "" && (line.PosInf? || line.NaN?)
    ensures var d := OrderDirective(id, "", "", HoldOrder, "", 0, Some(line), None, None, None, 0, "");
            d.WellFormed() && d.NeedsWatching() && !CanAct(d)
  {
    AuthorityIsExact(OrderDirective(id, "", "", HoldOrder, "", 0, Some(line), None, None, None, 0, ""));
  }

  /** The reason given for a withdrawal is one of the directive's own conditions, and it holds. */
  lemma ReasonIsTrue(d: OrderDirective, price: Option<Num>, moment: Time)
    requires SettleOne(d, price, moment).kind.Cancel?
    ensures match SettleOne(d, price, moment).reason
            case PlanSaysSo => d.action.CancelOrder?
            case OverLine(p, line) => d.cancelIfPriceAbove == Some(line) && price == Some(p) && Above(p, line)
            case UnderLine(p, line) => d.cancelIfPriceBelow == Some(line) && price == Some(p) && Above(line, p)
            case Late(after) => d.cancelIfUnfilledAfter == Some(after) && moment >= after
            case _ => false
  {
  }

  /** Not being able to read prices never makes the pass act where it would not have. */
  lemma WithholdingPricesNeverActs(ds: seq<OrderDirective>, resting: seq<string>, prices: map<string, Num>,
                                   fewer: map<string, Num>, moment: Time, i: nat)
    requires forall s :: s in fewer ==> s in prices && fewer[s] == prices[s]
    requires i < |SettleAll(ds, resting, fewer, moment)| && Acts(SettleAll(ds, resting, fewer, moment)[i])
    ensures i < |SettleAll(ds, resting, prices, moment)|
    ensures SettleAll(ds, resting, prices, moment)[i].orderId == SettleAll(ds, resting, fewer, moment)[i].orderId
    ensures Acts(SettleAll(ds, resting, prices, moment)[i])
  {
  }

  // ---------------------------------------------------------------- one settlement for each

  function CountOf(ids: seq<string>, id: string): nat {
    if ids == [] then 0 else CountOf(ids[..|ids| - 1], id) + if ids[|ids| - 1] == id then 1 else 0
  }

  /** How often an id occurs. */
  lemma {:induction false} CountIsMultiplicity(ids: seq<string>, id: string)
    ensures CountOf(ids, id) == multiset(ids)[id]
  {
    if ids != [] {
      CountIsMultiplicity(ids[..|ids| - 1], id);
      assert ids == ids[..|ids| - 1] + [ids[|ids| - 1]];
    }
  }

  function SettledIds(settlements: seq<Settlement>): (ids: seq<string>)
    ensures |ids| == |settlements|
  {
    seq(|settlements|, i requires 0 <= i < |settlements| => settlements[i].orderId)
  }

  lemma {:induction false} CountConcat(a: seq<string>, b: seq<string>, id: string)
    ensures CountOf(a + b, id) == CountOf(a, id) + CountOf(b, id)
  {
    if b == [] {
      assert a + b == a;
    } else {
      CountConcat(a, b[..|b| - 1], id);
      assert (a + b)[..|a + b| - 1] == a + b[..|b| - 1];
    }
  }

  lemma {:induction false} CountIn(ids: seq<string>, id: string)
    ensures CountOf(ids, id) > 0 <==> id in ids
  {
    if ids != [] {
      CountIn(ids[..|ids| - 1], id);
      assert ids == ids[..|ids| - 1] + [ids[|ids| - 1]];
    }
  }

  lemma {:induction false} CountFirstOfEach(ids: seq<string>, id: string)
    ensures CountOf(FirstOfEach(ids), id) == if id in ids then 1 else 0
  {
    if ids != [] {
      var front := FirstOfEach(ids[..|ids| - 1]);
      CountFirstOfEach(ids[..|ids| - 1], id);
      FirstOfEachIs(ids[..|ids| - 1]);
      CountConcat(front, [ids[|ids| - 1]], id);
      assert ids == ids[..|ids| - 1] + [ids[|ids| - 1]];
    }
  }

  lemma {:induction false} CountSilent(resting: seq<string>, mentioned: seq<string>, id: string)
    ensures CountOf(Silent(resting, mentioned), id) == if id in mentioned then 0 else CountOf(resting, id)
  {
    if resting != [] {
      var n := |resting| - 1;
      CountSilent(resting[..n], mentioned, id);
      CountConcat(Silent(resting[..n], mentioned), if resting[n] in mentioned then [] else [resting[n]], id);
    }
  }

  /** How many settlements an order gets. */
  lemma {:induction false} SettlementsOf(ds: seq<OrderDirective>, resting: seq<string>, prices: map<string, Num>,
                                         moment: Time, id: string)
    ensures var n := CountOf(IdsOf(ds), id);
            CountOf(SettledIds(SettleAll(ds, resting, prices, moment)), id)
            == if n > 0 then n else if id in resting then 1 else 0
  {
    var silent := Silent(FirstOfEach(resting), IdsOf(ds));
    assert SettledIds(SettleAll(ds, resting, prices, moment)) == IdsOf(ds) + silent;
    CountConcat(IdsOf(ds), silent, id);
    CountSilent(FirstOfEach(resting), IdsOf(ds), id);
    CountFirstOfEach(resting, id);
    CountIn(IdsOf(ds), id);
  }

  predicate Unique(ids: seq<string>) {
    forall i, j :: 0 <= i < j < |ids| ==> ids[i] != ids[j]
  }

  lemma {:induction false} UniqueCountsOnce(ids: seq<string>)
    ensures Unique(ids) <==> forall id :: CountOf(ids, id) <= 1
  {
    if ids != [] {
      var front, last := ids[..|ids| - 1], ids[|ids| - 1];
      UniqueCountsOnce(front);
      CountIn(front, last);
      if !Unique(ids) {
        if Unique(front) {
          assert last in front;
          assert CountOf(ids, last) >= 2;
        } else {
          var id :| CountOf(front, id) > 1;
          assert CountOf(ids, id) > 1;
        }
      } else {
        assert Unique(front);
        forall i | 0 <= i < |front| ensures front[i] != last {
          assert ids[i] != ids[|ids| - 1];
        }
        forall id ensures CountOf(ids, id) <= 1 {
          assert CountOf(front, id) <= 1;
        }
      }
    }
  }

  predicate Known(ds: seq<OrderDirective>, resting: seq<string>, id: string) {
    id in IdsOf(ds) || id in resting
  }

  /** Every order either side knows of is settled exactly once, exactly when no two directives name the same one. */
  lemma OneSettlementEach(ds: seq<OrderDirective>, resting: seq<string>, prices: map<string, Num>, moment: Time)
    ensures Unique(IdsOf(ds)) <==>
            forall id :: Known(ds, resting, id) ==>
              CountOf(SettledIds(SettleAll(ds, resting, prices, moment)), id) == 1
  {
    UniqueCountsOnce(IdsOf(ds));
    forall id ensures Known(ds, resting, id) ==>
      (CountOf(SettledIds(SettleAll(ds, resting, prices, moment)), id) == 1 <==> CountOf(IdsOf(ds), id) <= 1)
    {
      SettlementsOf(ds, resting, prices, moment, id);
      CountIn(IdsOf(ds), id);
    }
    if Unique(IdsOf(ds)) {
      forall id | Known(ds, resting, id)
        ensures CountOf(SettledIds(SettleAll(ds, resting, prices, moment)), id) == 1
      {
        assert CountOf(IdsOf(ds), id) <= 1;
      }
    } else {
      var id :| CountOf(IdsOf(ds), id) > 1;
      CountIn(IdsOf(ds), id);
      assert Known(ds, resting, id);
    }
  }
}
