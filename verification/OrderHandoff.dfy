/** The check that every live order goes into the next pass with a usable plan, and what it buys. */
module OrderHandoff {
  import opened Text
  import opened OrderModels
  import opened DirectiveSettlement

  datatype Order = Order(
    orderId: string,
    symbol: string,
    status: string,
    direction: string,
    quantity: int,
    filledQuantity: int,
    orderPrice: Option<Num>)

  datatype Issue = StatusMismatch | BadQuantity | Unclear | NoPlan | DuplicatePlan | WrongSymbol | WasDowngraded
    | CannotReprice | BadLine | NoBuyPrice | InvalidLines | OutsideLines

  datatype Report = Report(status: Status, activeCount: nat, coveredCount: nat, issues: seq<(string, Issue)>)

  datatype Status = Complete | Incomplete | Unknown

  // ---------------------------------------------------------------- one order

  /** Nothing is left for it to do. */
  predicate Over(o: Order) {
    || (o.status == "FILLED" && o.filledQuantity == o.quantity)
    || o.status in ["CANCELLED", "PARTIAL_CANCELLED", "REJECTED"]
    || (Live(o) && o.quantity == o.filledQuantity)
  }

  predicate Mismatched(o: Order) {
    o.status == "FILLED" && o.filledQuantity != o.quantity
  }

  /** Its status is not a final one, and its quantities make sense. */
  predicate Live(o: Order) {
    && o.status !in ["FILLED", "CANCELLED", "PARTIAL_CANCELLED", "REJECTED"]
    && o.quantity > 0 && 0 <= o.filledQuantity <= o.quantity
  }

  /** It can still fill. */
  predicate Active(o: Order) {
    Live(o) && o.filledQuantity < o.quantity
  }

  predicate Clear(o: Order, orders: seq<Order>) {
    && CountOf(OrderIds(orders), o.orderId) == 1
    && o.status in ["PENDING", "PARTIAL", "PENDING_CANCEL", "PARTIAL_PENDING_CANCEL"]
    && o.direction in ["BUY", "SELL"]
  }

  function OrderIds(orders: seq<Order>): (ids: seq<string>)
    ensures |ids| == |orders|
  {
    seq(|orders|, i requires 0 <= i < |orders| => orders[i].orderId)
  }

  /** The last directive for an id: what a dictionary of them holds. */
  function PlanOf(ds: seq<OrderDirective>, id: string): Option<OrderDirective> {
    if ds == [] then None
    else if ds[|ds| - 1].orderId == id then Some(ds[|ds| - 1])
    else PlanOf(ds[..|ds| - 1], id)
  }

  predicate BadLineOf(line: Option<Num>) {
    line.Some? && (!line.value.Fin? || line.value.value <= 0.0)
  }

  /** What the check of a limit buy against its own lines finds. */
  function BuyIssue(price: Num, below: Option<Num>, above: Option<Num>): Option<Issue> {
    if !Priced(price) then Some(InvalidLines)
    else if below.Some? && !Priced(below.value) then Some(InvalidLines)
    else if below.Some? && !Above(price, below.value) then Some(OutsideLines)
    else if above.Some? && !Priced(above.value) then Some(InvalidLines)
    else if above.Some? && !Above(above.value, price) then Some(OutsideLines)
    else None
  }

  function PlanIssue(runId: int, o: Order, ds: seq<OrderDirective>): Option<Issue> {
    var found := PlanOf(ds, o.orderId);
    if found.None? || found.value.issuedByRunId != runId then Some(NoPlan)
    else
      var plan := found.value;
      if CountOf(IdsOf(ds), o.orderId) != 1 then Some(DuplicatePlan)
      else if plan.symbol != o.symbol then Some(WrongSymbol)
      else if plan.rejectedReason != "" then Some(WasDowngraded)
      else if plan.action.RepriceOrder? then Some(CannotReprice)
      else if BadLineOf(plan.cancelIfPriceAbove) || BadLineOf(plan.cancelIfPriceBelow) then Some(BadLine)
      else if o.direction == "BUY" && plan.action.HoldOrder?
              && (plan.cancelIfPriceBelow.Some? || plan.cancelIfPriceAbove.Some?) then
        if o.orderPrice.None? then Some(NoBuyPrice)
        else BuyIssue(o.orderPrice.value, plan.cancelIfPriceBelow, plan.cancelIfPriceAbove)
      else None
  }

  datatype Finding = Skipped | Doubtful(issue: Issue, live: bool) | Missing(issue: Issue) | Covered

  function FindingOf(runId: int, o: Order, orders: seq<Order>, ds: seq<OrderDirective>): Finding {
    if Mismatched(o) then Doubtful(StatusMismatch, false)
    else if o.status in ["FILLED", "CANCELLED", "PARTIAL_CANCELLED", "REJECTED"] then Skipped
    else if o.quantity <= 0 || !(0 <= o.filledQuantity <= o.quantity) then Doubtful(BadQuantity, false)
    else if o.quantity == o.filledQuantity then Skipped
    else if !Clear(o, orders) then Doubtful(Unclear, true)
    else
      var issue := PlanIssue(runId, o, ds);
      if issue.Some? then Missing(issue.value) else Covered
  }

  // ---------------------------------------------------------------- the whole check

  /** What there is to say about one order. */
  function IssueOf(f: Finding): Option<Issue> {
    match f
    case Doubtful(issue, _) => Some(issue)
    case Missing(issue) => Some(issue)
    case _ => None
  }

  /** What there is to say about the orders, in their order. */
  function IssuesOf(orders: seq<Order>, fs: seq<Finding>): seq<(string, Issue)>
    requires |orders| == |fs|
  {
    if orders == [] then []
    else
      var n := |orders| - 1;
      IssuesOf(orders[..n], fs[..n])
        + if IssueOf(fs[n]).Some? then [(orders[n].orderId, IssueOf(fs[n]).value)] else []
  }

  lemma IssuesMore(orders: seq<Order>, fs: seq<Finding>, i: nat)
    requires i < |orders| == |fs|
    ensures IssuesOf(orders[..i + 1], fs[..i + 1])
              == IssuesOf(orders[..i], fs[..i])
                 + if IssueOf(fs[i]).Some? then [(orders[i].orderId, IssueOf(fs[i]).value)] else []
  {
    assert orders[..i + 1][..i] == orders[..i] && fs[..i + 1][..i] == fs[..i];
  }

  /** Nothing is said exactly when no order gives cause. */
  lemma {:induction false} NothingToSay(orders: seq<Order>, fs: seq<Finding>)
    requires |orders| == |fs|
    ensures IssuesOf(orders, fs) == [] <==> forall i :: 0 <= i < |fs| ==> IssueOf(fs[i]).None?
  {
    if orders != [] {
      NothingToSay(orders[..|orders| - 1], fs[..|fs| - 1]);
    }
  }

  predicate CountsActive(f: Finding) {
    f.Covered? || f.Missing? || (f.Doubtful? && f.live)
  }

  function Findings(runId: int, orders: seq<Order>, ds: seq<OrderDirective>): (r: seq<Finding>)
    ensures |r| == |orders|
  {
    seq(|orders|, i requires 0 <= i < |orders| => FindingOf(runId, orders[i], orders, ds))
  }

  function HowMany(fs: seq<Finding>, p: Finding -> bool): nat {
    if fs == [] then 0 else HowMany(fs[..|fs| - 1], p) + if p(fs[|fs| - 1]) then 1 else 0
  }

  /** The report gives the status the findings call for, counts them, and lists the issues in the orders' order. */
  ghost predicate Reports(r: Report, orders: seq<Order>, fs: seq<Finding>)
    requires |orders| == |fs|
  {
    && (r.status.Unknown? <==> exists i :: 0 <= i < |fs| && fs[i].Doubtful?)
    && (r.status.Complete? <==> forall i :: 0 <= i < |fs| ==> fs[i].Skipped? || fs[i].Covered?)
    && r.activeCount == HowMany(fs, CountsActive) && r.coveredCount == HowMany(fs, IsCovered)
    && r.issues == IssuesOf(orders, fs)
  }

  predicate IsCovered(f: Finding) {
    f.Covered?
  }

  predicate IsDoubtful(f: Finding) {
    f.Doubtful?
  }

  lemma {:induction false} HowManyZero(fs: seq<Finding>, p: Finding -> bool)
    ensures HowMany(fs, p) == 0 <==> forall i :: 0 <= i < |fs| ==> !p(fs[i])
  {
    if fs != [] {
      HowManyZero(fs[..|fs| - 1], p);
    }
  }

  lemma HowManyMore(fs: seq<Finding>, i: nat, p: Finding -> bool)
    requires i < |fs|
    ensures HowMany(fs[..i + 1], p) == HowMany(fs[..i], p) + if p(fs[i]) then 1 else 0
  {
    assert fs[..i + 1][..i] == fs[..i];
  }

  function One(b: bool): nat {
    if b then 1 else 0
  }

  /** The three counts the check keeps, after one more order. */
  lemma CountsMore(fs: seq<Finding>, i: nat)
    requires i < |fs|
    ensures HowMany(fs[..i + 1], CountsActive) == HowMany(fs[..i], CountsActive) + One(CountsActive(fs[i]))
    ensures HowMany(fs[..i + 1], IsCovered) == HowMany(fs[..i], IsCovered) + One(fs[i].Covered?)
    ensures HowMany(fs[..i + 1], IsDoubtful) == HowMany(fs[..i], IsDoubtful) + One(fs[i].Doubtful?)
  {
    HowManyMore(fs, i, CountsActive);
    HowManyMore(fs, i, IsCovered);
    HowManyMore(fs, i, IsDoubtful);
  }

  method CheckHandoff(runId: int, orders: seq<Order>, directives: seq<OrderDirective>) returns (report: Report)
    ensures Reports(report, orders, Findings(runId, orders, directives))
    ensures Tells(report, runId, orders, directives)
  {
    var issues: seq<(string, Issue)> := [];
    var active, covered, unknown := 0, 0, false;
    ghost var fs := Findings(runId, orders, directives);
    var i := 0;
    while i < |orders|
      invariant i <= |orders|
      invariant unknown <==> HowMany(fs[..i], IsDoubtful) > 0
      invariant issues == IssuesOf(orders[..i], fs[..i])
      invariant active == HowMany(fs[..i], CountsActive) && covered == HowMany(fs[..i], IsCovered)
    {
      CountsMore(fs, i);
      IssuesMore(orders, fs, i);
      var order := orders[i];
      var found := FindOne(runId, order, orders, directives);
      match found {
        case Skipped =>
        case Doubtful(issue, live) =>
          unknown, issues := true, issues + [(order.orderId, issue)];
          active := active + if live then 1 else 0;
        case Missing(issue) =>
          active, issues := active + 1, issues + [(order.orderId, issue)];
        case Covered =>
          active, covered := active + 1, covered + 1;
      }
      i := i + 1;
    }
    assert fs[..i] == fs;
    HowManyZero(fs, IsDoubtful);
    assert orders[..i] == orders;
    NothingToSay(orders, fs);
    report := Report(if unknown then Unknown else if issues != [] then Incomplete else Complete, active, covered, issues);
    ReportTells(report, runId, orders, directives);
  }

  /** One pass of the loop: the branches in the order the check takes them. */
  method FindOne(runId: int, order: Order, orders: seq<Order>, directives: seq<OrderDirective>) returns (found: Finding)
    ensures found == FindingOf(runId, order, orders, directives)
  {
    if order.status == "FILLED" && order.filledQuantity != order.quantity {
      return Doubtful(StatusMismatch, false);
    }
    if order.status in ["FILLED", "CANCELLED", "PARTIAL_CANCELLED", "REJECTED"] {
      return Skipped;
    }
    if order.quantity <= 0 || !(0 <= order.filledQuantity <= order.quantity) {
      return Doubtful(BadQuantity, false);
    }
    if order.quantity == order.filledQuantity {
      return Skipped;
    }
    if !Clear(order, orders) {
      return Doubtful(Unclear, true);
    }
    var issue := PlanIssue(runId, order, directives);
    found := if issue.Some? then Missing(issue.value) else Covered;
  }

  // ---------------------------------------------------------------- what a complete handoff buys

  lemma {:induction false} PlanIsThere(ds: seq<OrderDirective>, id: string)
    ensures PlanOf(ds, id).Some? ==> exists i :: 0 <= i < |ds| && ds[i] == PlanOf(ds, id).value && ds[i].orderId == id
    ensures PlanOf(ds, id).Some? <==> id in IdsOf(ds)
  {
    if ds != [] {
      PlanIsThere(ds[..|ds| - 1], id);
      assert IdsOf(ds) == IdsOf(ds[..|ds| - 1]) + [ds[|ds| - 1].orderId];
    }
  }

  /** A covered order has exactly one plan, of this run and about it, that can be carried out. */
  lemma CoveredMeansPlanned(runId: int, o: Order, orders: seq<Order>, ds: seq<OrderDirective>)
    requires FindingOf(runId, o, orders, ds).Covered?
    ensures CountOf(IdsOf(ds), o.orderId) == 1 && CountOf(OrderIds(orders), o.orderId) == 1
    ensures exists i :: 0 <= i < |ds| && Plans(ds[i], runId, o)
  {
    PlanIsThere(ds, o.orderId);
    var i :| 0 <= i < |ds| && ds[i] == PlanOf(ds, o.orderId).value && ds[i].orderId == o.orderId;
    assert Plans(ds[i], runId, o);
  }

  /** The plan is one the next pass can carry out for this order. */
  predicate Plans(d: OrderDirective, runId: int, o: Order) {
    && d.orderId == o.orderId && d.symbol == o.symbol && d.issuedByRunId == runId && d.rejectedReason == ""
    && !d.action.RepriceOrder? && FinitePositive(d.cancelIfPriceAbove) && FinitePositive(d.cancelIfPriceBelow)
    && (o.direction == "BUY" && d.action.HoldOrder? && (d.cancelIfPriceAbove.Some? || d.cancelIfPriceBelow.Some?) ==>
          && o.orderPrice.Some? && Priced(o.orderPrice.value)
          && (d.cancelIfPriceBelow.Some? ==> Above(o.orderPrice.value, d.cancelIfPriceBelow.value))
          && (d.cancelIfPriceAbove.Some? ==> Above(d.cancelIfPriceAbove.value, o.orderPrice.value)))
  }

  /** The settlement of a planned order is a withdrawal or a hold, and its price is inside its own lines. */
  predicate SettledAsPlanned(o: Order, s: Settlement, prices: map<string, Num>, moment: Time, d: OrderDirective) {
    && s.orderId == o.orderId && (s.kind.Cancel? || s.kind.Hold?)
    && (o.direction == "BUY" && d.action.HoldOrder? && PriceOf(prices, o.symbol) == o.orderPrice ==>
          (s.kind.Cancel? <==> d.TooLate(moment)) && (s.kind.Cancel? ==> s.reason.Late?))
  }

  /**
   * After a complete handoff, the next pass settles every active order exactly once, by withdrawing it or leaving it.
   * It never re-prices one and never finds one unmentioned, and a resting buy that is held is not withdrawn because of
   * the price while the market is at its own price.
   */
  lemma CompleteHandoffSettles(runId: int, orders: seq<Order>, ds: seq<OrderDirective>, r: Report,
                               resting: seq<string>, prices: map<string, Num>, moment: Time, k: nat)
    requires Reports(r, orders, Findings(runId, orders, ds)) && r.status.Complete?
    requires k < |orders| && Active(orders[k]) && orders[k].orderId in resting
    ensures CountOf(SettledIds(SettleAll(ds, resting, prices, moment)), orders[k].orderId) == 1
    ensures exists i :: 0 <= i < |ds| && Plans(ds[i], runId, orders[k])
              && SettledAsPlanned(orders[k], SettleAll(ds, resting, prices, moment)[i], prices, moment, ds[i])
  {
    var o := orders[k];
    assert Findings(runId, orders, ds)[k] == FindingOf(runId, o, orders, ds);
    CoveredMeansPlanned(runId, o, orders, ds);
    SettlementsOf(ds, resting, prices, moment, o.orderId);
    var i :| 0 <= i < |ds| && Plans(ds[i], runId, o);
    assert SettleAll(ds, resting, prices, moment)[i] == SettleOne(ds[i], PriceOf(prices, o.symbol), moment);
    assert SettledAsPlanned(o, SettleAll(ds, resting, prices, moment)[i], prices, moment, ds[i]);
  }

  /** A complete handoff has a usable plan for every order that can still fill, and for no other reason is complete. */
  lemma CompleteExactly(runId: int, orders: seq<Order>, ds: seq<OrderDirective>, r: Report)
    requires Reports(r, orders, Findings(runId, orders, ds))
    ensures r.status.Complete? <==>
            forall k :: 0 <= k < |orders| ==>
              Over(orders[k])
              || (Active(orders[k]) && Clear(orders[k], orders) && CountOf(IdsOf(ds), orders[k].orderId) == 1
                  && exists i :: 0 <= i < |ds| && Plans(ds[i], runId, orders[k]))
  {
    var fs := Findings(runId, orders, ds);
    forall k | 0 <= k < |orders|
      ensures (fs[k].Skipped? || fs[k].Covered?) <==>
              (Over(orders[k])
               || (Active(orders[k]) && Clear(orders[k], orders) && CountOf(IdsOf(ds), orders[k].orderId) == 1
                   && exists i :: 0 <= i < |ds| && Plans(ds[i], runId, orders[k])))
    {
      CoveredExactly(runId, orders[k], orders, ds);
    }
  }

  lemma CoveredExactly(runId: int, o: Order, orders: seq<Order>, ds: seq<OrderDirective>)
    ensures FindingOf(runId, o, orders, ds).Skipped? <==> Over(o)
    ensures FindingOf(runId, o, orders, ds).Covered? <==>
              (Active(o) && Clear(o, orders) && CountOf(IdsOf(ds), o.orderId) == 1
               && exists i :: 0 <= i < |ds| && Plans(ds[i], runId, o))
  {
    if FindingOf(runId, o, orders, ds).Covered? {
      CoveredMeansPlanned(runId, o, orders, ds);
    }
    if Active(o) && Clear(o, orders) && CountOf(IdsOf(ds), o.orderId) == 1 {
      if i :| 0 <= i < |ds| && Plans(ds[i], runId, o) {
        OnlyPlan(ds, i);
      }
    }
  }

  /** When an id is planned once, that plan is the one the dictionary holds. */
  lemma {:induction false} OnlyPlan(ds: seq<OrderDirective>, i: nat)
    requires i < |ds| && CountOf(IdsOf(ds), ds[i].orderId) == 1
    ensures PlanOf(ds, ds[i].orderId) == Some(ds[i])
  {
    var n := |ds| - 1;
    assert IdsOf(ds) == IdsOf(ds[..n]) + [ds[n].orderId];
    CountConcat(IdsOf(ds[..n]), [ds[n].orderId], ds[i].orderId);
    if i < n {
      CountIn(IdsOf(ds[..n]), ds[i].orderId);
      assert IdsOf(ds[..n])[i] == ds[i].orderId;
      OnlyPlan(ds[..n], i);
    }
  }

  // ---------------------------------------------------------------- the report, in terms of the orders

  /** The order can still fill, it is clear what it is, and its one plan can be carried out. */
  ghost predicate Provided(runId: int, o: Order, orders: seq<Order>, ds: seq<OrderDirective>) {
    && Active(o) && Clear(o, orders) && CountOf(IdsOf(ds), o.orderId) == 1
    && exists i :: 0 <= i < |ds| && Plans(ds[i], runId, o)
  }

  /** It cannot be told what the order is. */
  predicate InDoubt(o: Order, orders: seq<Order>) {
    || (o.status == "FILLED" && o.filledQuantity != o.quantity)
    || (o.status !in ["FILLED", "CANCELLED", "PARTIAL_CANCELLED", "REJECTED"]
        && (o.quantity <= 0 || o.filledQuantity < 0 || o.filledQuantity > o.quantity))
    || (Active(o) && !Clear(o, orders))
  }

  /** The only plan for the order is this one. */
  ghost predicate OnlyPlanIs(ds: seq<OrderDirective>, id: string, d: OrderDirective) {
    CountOf(IdsOf(ds), id) == 1 && d in ds && d.orderId == id
  }

  /** What the issue says of the order is so. */
  ghost predicate IsSo(issue: Issue, runId: int, o: Order, orders: seq<Order>, ds: seq<OrderDirective>) {
    match issue
    case StatusMismatch => o.status == "FILLED" && o.filledQuantity != o.quantity
    case BadQuantity => o.quantity <= 0 || o.filledQuantity < 0 || o.filledQuantity > o.quantity
    case Unclear => Active(o) && !Clear(o, orders)
    case NoPlan => forall i :: 0 <= i < |ds| && ds[i].orderId == o.orderId && ds[i].issuedByRunId == runId ==>
                     exists j :: i < j < |ds| && ds[j].orderId == o.orderId && ds[j].issuedByRunId != runId
    case DuplicatePlan => CountOf(IdsOf(ds), o.orderId) > 1
    case WrongSymbol => exists d :: OnlyPlanIs(ds, o.orderId, d) && d.symbol != o.symbol
    case WasDowngraded => exists d :: OnlyPlanIs(ds, o.orderId, d) && d.rejectedReason != ""
    case CannotReprice => exists d :: OnlyPlanIs(ds, o.orderId, d) && d.action == RepriceOrder
    case BadLine =>
      exists d :: OnlyPlanIs(ds, o.orderId, d)
                  && !(FinitePositive(d.cancelIfPriceAbove) && FinitePositive(d.cancelIfPriceBelow))
    case NoBuyPrice => o.direction == "BUY" && o.orderPrice.None?
    case InvalidLines => o.direction == "BUY" && o.orderPrice.Some? && !Priced(o.orderPrice.value)
    case OutsideLines =>
      && o.direction == "BUY" && o.orderPrice.Some?
      && exists d :: OnlyPlanIs(ds, o.orderId, d)
                     && (|| (d.cancelIfPriceBelow.Some? && !Above(o.orderPrice.value, d.cancelIfPriceBelow.value))
                         || (d.cancelIfPriceAbove.Some? && !Above(d.cancelIfPriceAbove.value, o.orderPrice.value)))
  }

  /** One issue for each order that is neither over nor provided for, in the order of the orders, and each is so. */
  ghost predicate IssuesAre(issues: seq<(string, Issue)>, upTo: nat, runId: int, orders: seq<Order>,
                            ds: seq<OrderDirective>)
    requires upTo <= |orders|
  {
    if upTo == 0 then issues == []
    else
      var o := orders[upTo - 1];
      if Over(o) || Provided(runId, o, orders, ds) then IssuesAre(issues, upTo - 1, runId, orders, ds)
      else
        && issues != [] && issues[|issues| - 1].0 == o.orderId
        && IsSo(issues[|issues| - 1].1, runId, o, orders, ds)
        && IssuesAre(issues[..|issues| - 1], upTo - 1, runId, orders, ds)
  }

  /** What the report says of the orders. */
  ghost predicate Tells(r: Report, runId: int, orders: seq<Order>, ds: seq<OrderDirective>) {
    && r.activeCount == |ActiveOnes(orders)| && r.coveredCount == |ProvidedOnes(runId, orders, ds)|
    && (r.status.Unknown? <==> exists i :: 0 <= i < |orders| && InDoubt(orders[i], orders))
    && (r.status.Complete? <==>
          forall i :: 0 <= i < |orders| ==> Over(orders[i]) || Provided(runId, orders[i], orders, ds))
    && IssuesAre(r.issues, |orders|, runId, orders, ds)
  }

  /** The places of the findings that are so. */
  function Those(fs: seq<Finding>, p: Finding -> bool): set<int> {
    set i | 0 <= i < |fs| && p(fs[i])
  }

  lemma ThoseMore(fs: seq<Finding>, p: Finding -> bool)
    requires fs != []
    ensures Those(fs, p) == Those(fs[..|fs| - 1], p) + if p(fs[|fs| - 1]) then {|fs| - 1} else {}
  {
  }

  lemma {:induction false} CountedAs(fs: seq<Finding>, p: Finding -> bool)
    ensures HowMany(fs, p) == |Those(fs, p)|
  {
    if fs != [] {
      CountedAs(fs[..|fs| - 1], p);
      ThoseMore(fs, p);
    }
  }

  lemma FindingMeans(runId: int, o: Order, orders: seq<Order>, ds: seq<OrderDirective>)
    ensures var f := FindingOf(runId, o, orders, ds);
            && (CountsActive(f) <==> Active(o)) && (f.Covered? <==> Provided(runId, o, orders, ds))
            && (f.Doubtful? <==> InDoubt(o, orders)) && (f.Skipped? <==> Over(o))
            && (IssueOf(f).None? <==> Over(o) || Provided(runId, o, orders, ds))
  {
    CoveredExactly(runId, o, orders, ds);
  }

  lemma {:induction false} LastPlan(ds: seq<OrderDirective>, id: string)
    ensures PlanOf(ds, id).Some? ==>
              exists j :: 0 <= j < |ds| && ds[j] == PlanOf(ds, id).value && ds[j].orderId == id
                          && forall i :: j < i < |ds| ==> ds[i].orderId != id
    ensures PlanOf(ds, id).None? ==> forall i :: 0 <= i < |ds| ==> ds[i].orderId != id
  {
    if ds != [] && ds[|ds| - 1].orderId != id {
      var n := |ds| - 1;
      LastPlan(ds[..n], id);
      if PlanOf(ds, id).Some? {
        var j :| 0 <= j < n && ds[..n][j] == PlanOf(ds, id).value && ds[..n][j].orderId == id
                 && forall i :: j < i < n ==> ds[..n][i].orderId != id;
        assert ds[j] == PlanOf(ds, id).value && forall i :: j < i < n ==> ds[i] == ds[..n][i];
      } else {
        assert forall i :: 0 <= i < n ==> ds[i] == ds[..n][i];
      }
    }
  }

  lemma IssueIsSo(runId: int, o: Order, orders: seq<Order>, ds: seq<OrderDirective>)
    requires IssueOf(FindingOf(runId, o, orders, ds)).Some?
    ensures IsSo(IssueOf(FindingOf(runId, o, orders, ds)).value, runId, o, orders, ds)
  {
    var issue := IssueOf(FindingOf(runId, o, orders, ds)).value;
    LastPlan(ds, o.orderId);
    PlanIsThere(ds, o.orderId);
    CountIn(IdsOf(ds), o.orderId);
    var plan := PlanOf(ds, o.orderId);
    if plan.Some? && CountOf(IdsOf(ds), o.orderId) == 1 {
      assert OnlyPlanIs(ds, o.orderId, plan.value);
    }
  }

  lemma OneMoreIssue(issues: seq<(string, Issue)>, n: nat, more: Option<Issue>, runId: int, orders: seq<Order>,
                     ds: seq<OrderDirective>)
    requires n < |orders| && IssuesAre(issues, n, runId, orders, ds)
    requires more.None? <==> Over(orders[n]) || Provided(runId, orders[n], orders, ds)
    requires more.Some? ==> IsSo(more.value, runId, orders[n], orders, ds)
    ensures IssuesAre(issues + if more.Some? then [(orders[n].orderId, more.value)] else [], n + 1, runId, orders, ds)
  {
    if more.Some? {
      assert (issues + [(orders[n].orderId, more.value)])[..|issues|] == issues;
    } else {
      assert issues + [] == issues;
    }
  }

  lemma NextIssue(issues: seq<(string, Issue)>, n: nat, runId: int, orders: seq<Order>, ds: seq<OrderDirective>)
    requires n < |orders| && IssuesAre(issues, n, runId, orders, ds)
    ensures var more := IssueOf(FindingOf(runId, orders[n], orders, ds));
            IssuesAre(issues + if more.Some? then [(orders[n].orderId, more.value)] else [], n + 1, runId, orders, ds)
  {
    var more := IssueOf(FindingOf(runId, orders[n], orders, ds));
    FindingMeans(runId, orders[n], orders, ds);
    if more.Some? {
      IssueIsSo(runId, orders[n], orders, ds);
    }
    OneMoreIssue(issues, n, more, runId, orders, ds);
  }

  lemma {:induction false} IssuesAreSo(runId: int, orders: seq<Order>, ds: seq<OrderDirective>, n: nat)
    requires n <= |orders|
    ensures IssuesAre(IssuesOf(orders[..n], Findings(runId, orders, ds)[..n]), n, runId, orders, ds)
  {
    if n > 0 {
      IssuesAreSo(runId, orders, ds, n - 1);
      NextIssue(IssuesOf(orders[..n - 1], Findings(runId, orders, ds)[..n - 1]), n - 1, runId, orders, ds);
      IssuesMore(orders, Findings(runId, orders, ds), n - 1);
    }
  }

  /** The i-th finding says this of the i-th order. */
  ghost predicate Means(f: Finding, runId: int, o: Order, orders: seq<Order>, ds: seq<OrderDirective>) {
    && (CountsActive(f) <==> Active(o)) && (IsCovered(f) <==> Provided(runId, o, orders, ds))
    && (f.Doubtful? <==> InDoubt(o, orders)) && (f.Skipped? <==> Over(o))
  }

  ghost predicate AllMean(fs: seq<Finding>, runId: int, orders: seq<Order>, ds: seq<OrderDirective>) {
    |fs| == |orders|
    && forall i {:trigger Means(fs[i], runId, orders[i], orders, ds)} :: 0 <= i < |fs| ==>
         Means(fs[i], runId, orders[i], orders, ds)
  }

  ghost function ActiveOnes(orders: seq<Order>): set<int> {
    set i | 0 <= i < |orders| && Active(orders[i])
  }

  ghost function ProvidedOnes(runId: int, orders: seq<Order>, ds: seq<OrderDirective>): set<int> {
    set i | 0 <= i < |orders| && Provided(runId, orders[i], orders, ds)
  }

  lemma CountsTell(fs: seq<Finding>, runId: int, orders: seq<Order>, ds: seq<OrderDirective>)
    requires AllMean(fs, runId, orders, ds)
    ensures HowMany(fs, CountsActive) == |ActiveOnes(orders)|
    ensures HowMany(fs, IsCovered) == |ProvidedOnes(runId, orders, ds)|
  {
    CountedAs(fs, CountsActive);
    CountedAs(fs, IsCovered);
    forall i | 0 <= i < |fs|
      ensures i in Those(fs, CountsActive) <==> i in ActiveOnes(orders)
      ensures i in Those(fs, IsCovered) <==> i in ProvidedOnes(runId, orders, ds)
    {
      assert Means(fs[i], runId, orders[i], orders, ds);
    }
    assert Those(fs, CountsActive) == ActiveOnes(orders) && Those(fs, IsCovered) == ProvidedOnes(runId, orders, ds);
  }

  lemma StatusTells(r: Report, fs: seq<Finding>, runId: int, orders: seq<Order>, ds: seq<OrderDirective>)
    requires AllMean(fs, runId, orders, ds) && Reports(r, orders, fs)
    ensures r.status.Unknown? <==> exists i :: 0 <= i < |orders| && InDoubt(orders[i], orders)
    ensures r.status.Complete? <==>
              forall i :: 0 <= i < |orders| ==> Over(orders[i]) || Provided(runId, orders[i], orders, ds)
  {
    forall i | 0 <= i < |fs|
      ensures fs[i].Doubtful? <==> InDoubt(orders[i], orders)
      ensures fs[i].Skipped? || fs[i].Covered? <==> Over(orders[i]) || Provided(runId, orders[i], orders, ds)
    {
      assert Means(fs[i], runId, orders[i], orders, ds);
    }
  }

  lemma ReportTells(r: Report, runId: int, orders: seq<Order>, ds: seq<OrderDirective>)
    requires Reports(r, orders, Findings(runId, orders, ds))
    ensures Tells(r, runId, orders, ds)
  {
    var fs := Findings(runId, orders, ds);
    forall i | 0 <= i < |orders| ensures Means(fs[i], runId, orders[i], orders, ds) {
      FindingMeans(runId, orders[i], orders, ds);
    }
    CountsTell(fs, runId, orders, ds);
    StatusTells(r, fs, runId, orders, ds);
    IssuesAreSo(runId, orders, ds, |orders|);
    assert orders[..|orders|] == orders && fs[..|orders|] == fs;
  }
}
