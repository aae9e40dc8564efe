/**
 * What a run decided about one of its resting orders, and when that lets a later pass act. Prices are the source's
 * floats: a real number, one of the infinities, or NaN, compared as floats are.
 */
module OrderModels {
  import opened Text

  datatype Num = Fin(value: real) | PosInf | NegInf | NaN

  predicate Above(a: Num, b: Num) {
    match (a, b)
    case (NaN, _) => false
    case (_, NaN) => false
    case (Fin(x), Fin(y)) => x > y
    case (PosInf, _) => b != PosInf
    case (NegInf, _) => false
    case (Fin(_), _) => b.NegInf?
  }

  /** Finite and positive: what a price of the market is. */
  predicate Priced(a: Num) {
    a.Fin? && a.value > 0.0
  }

  /** A clock time of a day; only its order matters. */
  type Time = nat

  datatype Action = CancelOrder | HoldOrder | RepriceOrder

  datatype RepricePlan =
    RepricePlan(newPrice: Num, maxTimes: int, whenPriceAbove: Option<Num>, whenPriceBelow: Option<Num>)
  {
    predicate WellFormed() {
      && !AtMostZero(newPrice) && maxTimes >= 1
      && (whenPriceAbove.Some? || whenPriceBelow.Some?)
    }

    predicate TriggeredAt(price: Num) {
      || (whenPriceAbove.Some? && Above(price, whenPriceAbove.value))
      || (whenPriceBelow.Some? && Above(whenPriceBelow.value, price))
    }
  }

  /** The float comparison `v <= 0`. */
  predicate AtMostZero(v: Num) {
    v.NegInf? || (v.Fin? && v.value <= 0.0)
  }

  datatype OrderDirective = OrderDirective(
    orderId: string,
    symbol: string,
    stockName: string,
    action: Action,
    note: string,
    issuedByRunId: int,
    cancelIfPriceAbove: Option<Num>,
    cancelIfPriceBelow: Option<Num>,
    cancelIfUnfilledAfter: Option<Time>,
    reprice: Option<RepricePlan>,
    repricedTimes: nat,
    rejectedReason: string)
  {
    predicate WellFormed() {
      && orderId != ""
      && (action.RepriceOrder? ==> reprice.Some?)
      && (reprice.Some? ==> reprice.value.WellFormed())
    }

    function RepricesLeft(): nat {
      if reprice.None? || reprice.value.maxTimes <= repricedTimes then 0 else reprice.value.maxTimes - repricedTimes
    }

    predicate NeedsWatching() {
      match action
      case CancelOrder => true
      case RepriceOrder => RepricesLeft() > 0
      case HoldOrder => cancelIfPriceAbove.Some? || cancelIfPriceBelow.Some? || cancelIfUnfilledAfter.Some?
    }

    predicate OverTheLine(price: Option<Num>) {
      price.Some? && cancelIfPriceAbove.Some? && Above(price.value, cancelIfPriceAbove.value)
    }

    predicate UnderTheLine(price: Option<Num>) {
      price.Some? && cancelIfPriceBelow.Some? && Above(cancelIfPriceBelow.value, price.value)
    }

    predicate TooLate(moment: Time) {
      cancelIfUnfilledAfter.Some? && moment >= cancelIfUnfilledAfter.value
    }

    predicate CancelsAt(price: Option<Num>, moment: Time) {
      match action
      case CancelOrder => true
      case HoldOrder => OverTheLine(price) || UnderTheLine(price) || TooLate(moment)
      case RepriceOrder => false
    }
  }
}
