/**
 * Closing values rebuilt from fills. Amounts are real numbers: binary rounding of floats is not modelled, and the
 * rounding to cents is an arbitrary function. A direction is any string, since the source's functions differ in what
 * they do with one that is neither BUY nor SELL.
 */
module Reconstruction {
  import opened Text

  type Date = int

  datatype DayFill = DayFill(tradeDate: Date, symbol: string, direction: string, quantity: int, price: real)

  datatype MissingClose = MissingClose(symbol: string, tradeDate: Date)

  datatype DailyEquity = DailyEquity(tradeDate: Date, totalAsset: real, availableCash: real, marketValue: real)

  type Closes = map<string, map<Date, real>>

  const COMMISSION_RATE: real := 0.0003
  const MINIMUM_COMMISSION: real := 5.0
  const STAMP_DUTY_RATE: real := 0.001
  const TRANSFER_FEE_RATE: real := 0.00002

  /** So many shares at a price: their product, added up share by share. */
  function Worth(quantity: int, price: real): real
    decreases if quantity < 0 then -quantity else quantity
  {
    if quantity == 0 then 0.0
    else if quantity > 0 then Worth(quantity - 1, price) + price
    else Worth(quantity + 1, price) - price
  }

  lemma {:induction false} WorthIsProduct(quantity: int, price: real)
    ensures Worth(quantity, price) == quantity as real * price
    decreases if quantity < 0 then -quantity else quantity
  {
    if quantity > 0 {
      WorthIsProduct(quantity - 1, price);
      assert quantity as real == (quantity - 1) as real + 1.0;
    } else if quantity < 0 {
      WorthIsProduct(quantity + 1, price);
      assert quantity as real == (quantity + 1) as real - 1.0;
    }
  }

  function Amount(f: DayFill): real {
    Worth(f.quantity, f.price)
  }

  function StandardFee(f: DayFill): real {
    var amount := Amount(f);
    (if amount * COMMISSION_RATE > MINIMUM_COMMISSION then amount * COMMISSION_RATE else MINIMUM_COMMISSION)
    + amount * TRANSFER_FEE_RATE
    + if f.direction == "SELL" then amount * STAMP_DUTY_RATE else 0.0
  }

  /** What a fill alone does to the cash: a sale brings its amount, anything else costs it. */
  function Proceeds(f: DayFill): real {
    if f.direction == "SELL" then Amount(f) else -Amount(f)
  }

  function CashFromFills(initial: real, fills: seq<DayFill>): real {
    if fills == [] then initial
    else CashFromFills(initial, fills[..|fills| - 1]) + Proceeds(fills[|fills| - 1])
  }

  function ModelledFees(fills: seq<DayFill>): real {
    if fills == [] then 0.0 else ModelledFees(fills[..|fills| - 1]) + StandardFee(fills[|fills| - 1])
  }

  function FeeScale(fills: seq<DayFill>, initial: real, actual: real): real {
    ScaleFor(ModelledFees(fills), CashFromFills(initial, fills) - actual)
  }

  /** The factor that makes the modelled fees the paid ones. */
  function ScaleFor(modelled: real, paid: real): real {
    if modelled <= 0.0 then 1.0 else paid / modelled
  }

  /** What a fill costs: its direction matters only for the stamp duty, a thousandth of the amount, on a sale. */
  lemma SaleCostsDutyMore(f: DayFill, g: DayFill)
    requires f.quantity == g.quantity && f.price == g.price && f.direction == "SELL" && g.direction != "SELL"
    ensures StandardFee(f) == StandardFee(g) + f.quantity as real * f.price / 1000.0
  {
    WorthIsProduct(f.quantity, f.price);
  }

  /** Apart from the duty: five yuan or three in ten thousand, whichever is more, and two in a hundred thousand. */
  lemma FeeIsCommissionAndTransfer(f: DayFill)
    requires f.direction != "SELL"
    ensures var amount := f.quantity as real * f.price;
            && Amount(f) == amount
            && StandardFee(f) >= 5.0 + amount / 50_000.0
            && StandardFee(f) >= amount * 3.0 / 10_000.0 + amount / 50_000.0
            && (StandardFee(f) == 5.0 + amount / 50_000.0
                || StandardFee(f) == amount * 3.0 / 10_000.0 + amount / 50_000.0)
  {
    WorthIsProduct(f.quantity, f.price);
  }

  /** What a fill brings in: its amount when it is a sale, and takes out otherwise. */
  lemma SalesBringIn(f: DayFill, scale: real)
    ensures Proceeds(f) == if f.direction == "SELL" then Amount(f) else 0.0 - Amount(f)
    ensures Replayed(f, scale) + StandardFee(f) * scale == if f.direction == "BUY" then 0.0 - Amount(f) else Amount(f)
    ensures f.direction == "BUY" || f.direction == "SELL" ==> Replayed(f, 0.0) == Proceeds(f)
  {
  }

  method ComputeCash(initial: real, fills: seq<DayFill>) returns (cash: real)
    ensures cash == CashFromFills(initial, fills)
  {
    cash := initial;
    var i := 0;
    while i < |fills|
      invariant i <= |fills| && cash == CashFromFills(initial, fills[..i])
    {
      assert fills[..i + 1][..i] == fills[..i];
      WorthIsProduct(fills[i].quantity, fills[i].price);
      var amount := fills[i].quantity as real * fills[i].price;
      cash := cash + if fills[i].direction == "SELL" then amount else -amount;
      i := i + 1;
    }
    assert fills[..i] == fills;
  }

  // ---------------------------------------------------------------- holdings

  function Shares(f: DayFill): int {
    if f.direction == "BUY" then f.quantity else -f.quantity
  }

  function Net(fills: seq<DayFill>, symbol: string): int {
    if fills == [] then 0
    else
      var last := fills[|fills| - 1];
      Net(fills[..|fills| - 1], symbol) + if last.symbol == symbol then Shares(last) else 0
  }

  function Held(held: map<string, int>, symbol: string): int {
    if symbol in held then held[symbol] else 0
  }

  /** The shares of a symbol bought; whatever is no purchase gives shares away. */
  function Bought(fills: seq<DayFill>, symbol: string): int {
    if fills == [] then 0
    else Bought(fills[1..], symbol) + if fills[0].symbol == symbol && fills[0].direction == "BUY" then fills[0].quantity else 0
  }

  function GivenAway(fills: seq<DayFill>, symbol: string): int {
    if fills == [] then 0
    else
      GivenAway(fills[1..], symbol)
      + if fills[0].symbol == symbol && fills[0].direction != "BUY" then fills[0].quantity else 0
  }

  lemma {:induction false} OneMoreTrade(fills: seq<DayFill>, f: DayFill, symbol: string)
    ensures var own, buy := f.symbol == symbol, f.direction == "BUY";
            && Bought(fills + [f], symbol) == Bought(fills, symbol) + (if own && buy then f.quantity else 0)
            && GivenAway(fills + [f], symbol) == GivenAway(fills, symbol) + if own && !buy then f.quantity else 0
  {
    if fills == [] {
      assert fills + [f] == [f];
    } else {
      assert (fills + [f])[1..] == fills[1..] + [f];
      OneMoreTrade(fills[1..], f, symbol);
    }
  }

  /** What is left of a symbol is what was bought less what was given away. */
  lemma {:induction false} NetIsBoughtLessGiven(fills: seq<DayFill>, symbol: string)
    ensures Net(fills, symbol) == Bought(fills, symbol) - GivenAway(fills, symbol)
  {
    if fills != [] {
      var n := |fills| - 1;
      NetIsBoughtLessGiven(fills[..n], symbol);
      assert fills == fills[..n] + [fills[n]];
      OneMoreTrade(fills[..n], fills[n], symbol);
    }
  }

  method HoldingsAfter(fills: seq<DayFill>) returns (holdings: map<string, int>)
    ensures forall s :: s in holdings <==> Net(fills, s) != 0
    ensures forall s :: s in holdings ==> holdings[s] == Net(fills, s) == Bought(fills, s) - GivenAway(fills, s)
  {
    var held: map<string, int> := map[];
    var i := 0;
    while i < |fills|
      invariant i <= |fills| && forall s :: Held(held, s) == Net(fills[..i], s)
    {
      assert fills[..i + 1][..i] == fills[..i];
      var fill := fills[i];
      held := held[fill.symbol := Held(held, fill.symbol) + if fill.direction == "BUY" then fill.quantity else -fill.quantity];
      i := i + 1;
    }
    assert fills[..i] == fills;
    holdings := map s | s in held && held[s] != 0 :: held[s];
    forall s ensures Net(fills, s) == Bought(fills, s) - GivenAway(fills, s) {
      NetIsBoughtLessGiven(fills, s);
    }
    assert forall s :: s in holdings <==> Held(held, s) != 0;
  }

  // ---------------------------------------------------------------- the replay

  function FillsOn(fills: seq<DayFill>, day: Date): seq<DayFill> {
    if fills == [] then []
    else FillsOn(fills[..|fills| - 1], day) + if fills[|fills| - 1].tradeDate == day then [fills[|fills| - 1]] else []
  }

  /** Cash, holdings in the order their symbols first appeared, and the last price known of each. */
  datatype Book = Book(cash: real, symbols: seq<string>, held: map<string, int>, lastClose: map<string, real>)

  /** What replaying a fill does to the cash: a purchase costs its amount, anything else brings it, less the fee. */
  function Replayed(f: DayFill, scale: real): real {
    (if f.direction == "BUY" then -Amount(f) else Amount(f)) - StandardFee(f) * scale
  }

  function ReplayFill(b: Book, f: DayFill, scale: real): Book {
    Book(b.cash + Replayed(f, scale),
         if f.symbol in b.held then b.symbols else b.symbols + [f.symbol],
         b.held[f.symbol := Held(b.held, f.symbol) + Shares(f)],
         if f.symbol in b.lastClose then b.lastClose else b.lastClose[f.symbol := f.price])
  }

  function ReplayFills(b: Book, fills: seq<DayFill>, scale: real): Book {
    if fills == [] then b
    else ReplayFill(ReplayFills(b, fills[..|fills| - 1], scale), fills[|fills| - 1], scale)
  }

  function CloseOf(closes: Closes, symbol: string, day: Date): Option<real> {
    if symbol in closes && day in closes[symbol] then Some(closes[symbol][day]) else None
  }

  /** The price a holding is valued at: that day's close, or the last one known. */
  function PriceOn(b: Book, closes: Closes, symbol: string, day: Date): real {
    var close := CloseOf(closes, symbol, day);
    if close.Some? then close.value else if symbol in b.lastClose then b.lastClose[symbol] else 0.0
  }

  function Valued(b: Book, symbols: seq<string>, closes: Closes, day: Date): real {
    if symbols == [] then 0.0
    else
      var s := symbols[|symbols| - 1];
      Valued(b, symbols[..|symbols| - 1], closes, day)
      + if Held(b.held, s) == 0 then 0.0 else Worth(Held(b.held, s), PriceOn(b, closes, s, day))
  }

  function MissingOn(b: Book, symbols: seq<string>, closes: Closes, day: Date): seq<MissingClose> {
    if symbols == [] then []
    else
      var s := symbols[|symbols| - 1];
      MissingOn(b, symbols[..|symbols| - 1], closes, day)
      + if Held(b.held, s) != 0 && CloseOf(closes, s, day).None? then [MissingClose(s, day)] else []
  }

  /** The prices known after valuing the holdings of a day. */
  function Marked(b: Book, symbols: seq<string>, closes: Closes, day: Date): map<string, real> {
    if symbols == [] then b.lastClose
    else
      var s := symbols[|symbols| - 1];
      var known := Marked(b, symbols[..|symbols| - 1], closes, day);
      if Held(b.held, s) == 0 then known else known[s := PriceOn(b, closes, s, day)]
  }

  datatype Replay = Replay(book: Book, values: seq<DailyEquity>, missing: seq<MissingClose>)

  /** The book after a day's fills, before its holdings are valued. */
  function Traded(b: Book, day: Date, fills: seq<DayFill>, scale: real): Book {
    ReplayFills(b, FillsOn(fills, day), scale)
  }

  function Closed(b: Book, day: Date, closes: Closes): Book {
    b.(lastClose := Marked(b, b.symbols, closes, day))
  }

  function ValueOf(b: Book, day: Date, closes: Closes, round: real -> real): DailyEquity {
    var market := Valued(b, b.symbols, closes, day);
    DailyEquity(day, round(b.cash + market), round(b.cash), round(market))
  }

  function ReplayDay(r: Replay, day: Date, fills: seq<DayFill>, closes: Closes, scale: real, round: real -> real): Replay {
    var b := Traded(r.book, day, fills, scale);
    Replay(Closed(b, day, closes), r.values + [ValueOf(b, day, closes, round)],
           r.missing + MissingOn(b, b.symbols, closes, day))
  }

  function ReplayDays(days: seq<Date>, fills: seq<DayFill>, closes: Closes, initial: real, scale: real,
                      round: real -> real): Replay
  {
    if days == [] then Replay(Book(initial, [], map[], map[]), [], [])
    else
      ReplayDay(ReplayDays(days[..|days| - 1], fills, closes, initial, scale, round), days[|days| - 1], fills, closes,
                scale, round)
  }

  // ---------------------------------------------------------------- sorting the days

  function Insert(days: seq<Date>, d: Date): seq<Date> {
    if days == [] || days[|days| - 1] <= d then days + [d]
    else Insert(days[..|days| - 1], d) + [days[|days| - 1]]
  }

  function Sorted(days: seq<Date>): seq<Date> {
    if days == [] then [] else Insert(Sorted(days[..|days| - 1]), days[|days| - 1])
  }

  predicate Ascending(days: seq<Date>) {
    forall i, j :: 0 <= i < j < |days| ==> days[i] <= days[j]
  }

  lemma AscendingMore(days: seq<Date>, d: Date)
    requires Ascending(days) && (days == [] || days[|days| - 1] <= d)
    ensures Ascending(days + [d])
  {
  }

  lemma {:induction false} InsertKeepsOrder(days: seq<Date>, d: Date)
    requires Ascending(days)
    ensures Ascending(Insert(days, d)) && |Insert(days, d)| == |days| + 1
    ensures Insert(days, d)[|days|] == if days == [] || days[|days| - 1] <= d then d else days[|days| - 1]
  {
    if days == [] || days[|days| - 1] <= d {
      AscendingMore(days, d);
    } else {
      InsertKeepsOrder(days[..|days| - 1], d);
      AscendingMore(Insert(days[..|days| - 1], d), days[|days| - 1]);
    }
  }

  lemma {:induction false} InsertKeepsAll(days: seq<Date>, d: Date)
    ensures multiset(Insert(days, d)) == multiset(days) + multiset{d} && |Insert(days, d)| == |days| + 1
  {
    if days != [] && days[|days| - 1] > d {
      var n := |days| - 1;
      InsertKeepsAll(days[..n], d);
      assert days == days[..n] + [days[n]];
    }
  }

  lemma {:induction false} SortedAscends(days: seq<Date>)
    ensures Ascending(Sorted(days))
  {
    if days != [] {
      SortedAscends(days[..|days| - 1]);
      InsertKeepsOrder(Sorted(days[..|days| - 1]), days[|days| - 1]);
    }
  }

  lemma {:induction false} SortedIs(days: seq<Date>)
    ensures multiset(Sorted(days)) == multiset(days) && |Sorted(days)| == |days|
  {
    if days != [] {
      var n := |days| - 1;
      SortedIs(days[..n]);
      InsertKeepsAll(Sorted(days[..n]), days[n]);
      assert days == days[..n] + [days[n]];
    }
  }

  // ---------------------------------------------------------------- sums over fills

  function SumOf(fills: seq<DayFill>, g: DayFill -> real): real {
    if fills == [] then 0.0 else SumOf(fills[..|fills| - 1], g) + g(fills[|fills| - 1])
  }

  function Times(days: seq<Date>, day: Date): nat {
    multiset(days)[day]
  }

  /** The sum when each day's fills count as often as the day is listed. */
  function WeightedSum(days: seq<Date>, fills: seq<DayFill>, g: DayFill -> real): real {
    if fills == [] then 0.0
    else
      var last := fills[|fills| - 1];
      WeightedSum(days, fills[..|fills| - 1], g) + Often(Times(days, last.tradeDate), g(last))
  }

  /** An amount so many times. */
  function Often(n: nat, r: real): real {
    if n == 0 then 0.0 else Often(n - 1, r) + r
  }

  lemma SumMore(fills: seq<DayFill>, f: DayFill, g: DayFill -> real)
    ensures SumOf(fills + [f], g) == SumOf(fills, g) + g(f)
  {
    assert (fills + [f])[..|fills|] == fills;
  }

  lemma TimesMore(days: seq<Date>, day: Date, x: Date)
    ensures Times(days + [day], x) == Times(days, x) + if day == x then 1 else 0
  {
  }

  /** Listing one more day counts exactly that day's fills once more. */
  lemma {:induction false} OneMoreDay(days: seq<Date>, day: Date, fills: seq<DayFill>, g: DayFill -> real)
    ensures WeightedSum(days + [day], fills, g) == WeightedSum(days, fills, g) + SumOf(FillsOn(fills, day), g)
  {
    if fills != [] {
      var n := |fills| - 1;
      OneMoreDay(days, day, fills[..n], g);
      TimesMore(days, day, fills[n].tradeDate);
      if fills[n].tradeDate == day {
        SumMore(FillsOn(fills[..n], day), fills[n], g);
      } else {
        assert FillsOn(fills, day) == FillsOn(fills[..n], day);
      }
    }
  }

  lemma {:induction false} NoDaysNoSum(fills: seq<DayFill>, g: DayFill -> real)
    ensures WeightedSum([], fills, g) == 0.0
  {
    if fills != [] {
      NoDaysNoSum(fills[..|fills| - 1], g);
    }
  }

  /** Every fill's day is listed once. */
  predicate CoversOnce(days: seq<Date>, fills: seq<DayFill>) {
    forall i :: 0 <= i < |fills| ==> Times(days, fills[i].tradeDate) == 1
  }

  lemma {:induction false} SumOnce(days: seq<Date>, fills: seq<DayFill>, g: DayFill -> real)
    requires CoversOnce(days, fills)
    ensures WeightedSum(days, fills, g) == SumOf(fills, g)
  {
    if fills != [] {
      SumOnce(days, fills[..|fills| - 1], g);
      assert Times(days, fills[|fills| - 1].tradeDate) == 1;
      OnceIs(g(fills[|fills| - 1]));
    }
  }

  lemma OnceIs(r: real)
    ensures Often(1, r) == r
  {
    assert Often(0, r) == 0.0;
  }

  /** What is left of the cash when fees at this scale are taken off. */
  function Less(cash: real, fees: real, scale: real): real {
    cash - fees * scale
  }

  lemma Spread(a: real, b: real, k: real)
    ensures (a + b) * k == a * k + b * k
  {
  }

  lemma {:induction false} SumIsLinear(fills: seq<DayFill>, g: DayFill -> real, h: DayFill -> real, k: DayFill -> real,
                                       scale: real)
    requires forall i :: 0 <= i < |fills| ==> g(fills[i]) == Less(h(fills[i]), k(fills[i]), scale)
    ensures SumOf(fills, g) == Less(SumOf(fills, h), SumOf(fills, k), scale)
  {
    if fills != [] {
      var n := |fills| - 1;
      SumIsLinear(fills[..n], g, h, k, scale);
      Spread(SumOf(fills[..n], k), k(fills[n]), scale);
    }
  }

  // ---------------------------------------------------------------- the books close

  function ReplayedBy(scale: real): DayFill -> real {
    f => Replayed(f, scale)
  }

  lemma {:induction false} FillsMoveCash(b: Book, fills: seq<DayFill>, scale: real)
    ensures ReplayFills(b, fills, scale).cash == b.cash + SumOf(fills, ReplayedBy(scale))
  {
    if fills != [] {
      FillsMoveCash(b, fills[..|fills| - 1], scale);
    }
  }

  /** The cash left at the end, for any list of days whatever: each fill counts as often as its day is listed. */
  lemma {:induction false} CashAfter(days: seq<Date>, fills: seq<DayFill>, closes: Closes, initial: real, scale: real,
                                     round: real -> real)
    ensures ReplayDays(days, fills, closes, initial, scale, round).book.cash
         == initial + WeightedSum(days, fills, ReplayedBy(scale))
  {
    if days == [] {
      NoDaysNoSum(fills, ReplayedBy(scale));
    } else {
      var n := |days| - 1;
      CashAfter(days[..n], fills, closes, initial, scale, round);
      var before := ReplayDays(days[..n], fills, closes, initial, scale, round).book;
      FillsMoveCash(before, FillsOn(fills, days[n]), scale);
      OneMoreDay(days[..n], days[n], fills, ReplayedBy(scale));
      assert days == days[..n] + [days[n]];
    }
  }

  predicate Ordinary(fills: seq<DayFill>) {
    forall i :: 0 <= i < |fills| ==> fills[i].direction in ["BUY", "SELL"]
  }

  lemma {:induction false} CashIsSum(initial: real, fills: seq<DayFill>)
    ensures CashFromFills(initial, fills) == initial + SumOf(fills, Proceeds)
    ensures ModelledFees(fills) == SumOf(fills, StandardFee)
  {
    if fills != [] {
      CashIsSum(initial, fills[..|fills| - 1]);
    }
  }

  lemma OrdinaryReplay(f: DayFill, scale: real)
    requires f.direction in ["BUY", "SELL"]
    ensures Replayed(f, scale) == Less(Proceeds(f), StandardFee(f), scale)
  {
  }

  /** Replayed once each, ordinary fills leave what they brought less the scaled fees. */
  lemma ReplayedOnce(days: seq<Date>, fills: seq<DayFill>, initial: real, scale: real)
    requires Ordinary(fills) && CoversOnce(days, fills)
    ensures initial + WeightedSum(days, fills, ReplayedBy(scale))
         == Less(CashFromFills(initial, fills), ModelledFees(fills), scale)
  {
    SumOnce(days, fills, ReplayedBy(scale));
    CashIsSum(initial, fills);
    OrdinarySum(fills, scale);
  }

  lemma OrdinarySum(fills: seq<DayFill>, scale: real)
    requires Ordinary(fills)
    ensures SumOf(fills, ReplayedBy(scale)) == Less(SumOf(fills, Proceeds), SumOf(fills, StandardFee), scale)
  {
    forall i | 0 <= i < |fills| 
      ensures ReplayedBy(scale)(fills[i]) == Less(Proceeds(fills[i]), StandardFee(fills[i]), scale)
    {
      OrdinaryReplay(fills[i], scale);
    }
    SumIsLinear(fills, ReplayedBy(scale), Proceeds, StandardFee, scale);
  }

  function FinalCash(days: seq<Date>, fills: seq<DayFill>, closes: Closes, initial: real, scale: real,
                     round: real -> real): real
  {
    ReplayDays(Sorted(days), fills, closes, initial, scale, round).book.cash
  }

  lemma CashOnce(days: seq<Date>, fills: seq<DayFill>, closes: Closes, initial: real, scale: real, round: real -> real)
    requires Ordinary(fills) && CoversOnce(days, fills)
    ensures FinalCash(days, fills, closes, initial, scale, round)
         == Less(CashFromFills(initial, fills), ModelledFees(fills), scale)
  {
    SortedIs(days);
    CashAfter(Sorted(days), fills, closes, initial, scale, round);
    ReplayedOnce(Sorted(days), fills, initial, scale);
  }

  lemma ScaledBack(modelled: real, paid: real)
    requires modelled > 0.0
    ensures modelled * (paid / modelled) == paid
  {
  }

  /**
   * With the calibrated scale the replay ends on exactly the broker's cash, whatever the order of the fills, if and
   * only if there was a fee to scale or the standard schedule was right anyway.
   */
  lemma {:induction false} BooksClose(days: seq<Date>, fills: seq<DayFill>, closes: Closes, initial: real,
                                      actual: real, round: real -> real)
    requires Ordinary(fills) && CoversOnce(days, fills)
    ensures var modelled := ModelledFees(fills);
            FinalCash(days, fills, closes, initial, FeeScale(fills, initial, actual), round) == actual
            <==> modelled > 0.0 || CashFromFills(initial, fills) - actual == modelled
  {
    var scale := FeeScale(fills, initial, actual);
    CashOnce(days, fills, closes, initial, scale, round);
    Balances(FinalCash(days, fills, closes, initial, scale, round), CashFromFills(initial, fills), ModelledFees(fills),
             actual, scale);
  }

  lemma Balances(final: real, cash: real, modelled: real, actual: real, scale: real)
    requires final == Less(cash, modelled, scale) && scale == ScaleFor(modelled, cash - actual)
    ensures final == actual <==> modelled > 0.0 || cash - actual == modelled
  {
    if modelled > 0.0 {
      ScaledBack(modelled, cash - actual);
    }
  }

  lemma FeeIsPositive(f: DayFill)
    requires Amount(f) >= 0.0
    ensures StandardFee(f) >= MINIMUM_COMMISSION
  {
  }

  /** Fills of non-negative amounts always have fees to scale. */
  lemma {:induction false} FeesArePositive(fills: seq<DayFill>)
    requires forall i :: 0 <= i < |fills| ==> Amount(fills[i]) >= 0.0
    ensures ModelledFees(fills) >= MINIMUM_COMMISSION * |fills| as real
  {
    if fills != [] {
      FeesArePositive(fills[..|fills| - 1]);
      FeeIsPositive(fills[|fills| - 1]);
    }
  }

  /** A day that is listed twice has its fills replayed twice. */
  lemma {:induction false} DuplicateDayCountsTwice(fill: DayFill, closes: Closes, initial: real, scale: real, round: real -> real)
    ensures FinalCash([fill.tradeDate, fill.tradeDate], [fill], closes, initial, scale, round)
         == initial + 2.0 * Replayed(fill, scale)
  {
    var days := [fill.tradeDate, fill.tradeDate];
    SortedIs(days);
    CashAfter(Sorted(days), [fill], closes, initial, scale, round);
    WeightedOne(Sorted(days), fill, ReplayedBy(scale));
    assert Times(Sorted(days), fill.tradeDate) == Times(days, fill.tradeDate) == 2;
    Twice(Replayed(fill, scale));
  }

  lemma Twice(r: real)
    ensures Often(2, r) == 2.0 * r
  {
    assert Often(1, r) == r;
  }

  lemma WeightedOne(days: seq<Date>, fill: DayFill, g: DayFill -> real)
    ensures WeightedSum(days, [fill], g) == Often(Times(days, fill.tradeDate), g(fill))
  {
    assert [fill][..0] == [];
  }

  // ---------------------------------------------------------------- holdings agree

  /** The shares of one symbol a fill moves, as an amount to add up. */
  function SharesOf(s: string): DayFill -> real {
    (f: DayFill) => if f.symbol == s then Shares(f) as real else 0.0
  }

  lemma {:induction false} FillsMoveShares(b: Book, fills: seq<DayFill>, scale: real, s: string)
    ensures Held(ReplayFills(b, fills, scale).held, s) as real == Held(b.held, s) as real + SumOf(fills, SharesOf(s))
  {
    if fills != [] {
      FillsMoveShares(b, fills[..|fills| - 1], scale, s);
    }
  }

  lemma {:induction false} NetIsSum(fills: seq<DayFill>, s: string)
    ensures Net(fills, s) as real == SumOf(fills, SharesOf(s))
  {
    if fills != [] {
      NetIsSum(fills[..|fills| - 1], s);
    }
  }

  /** The holdings at the end, for any list of days whatever. */
  lemma {:induction false} HeldAfter(days: seq<Date>, fills: seq<DayFill>, closes: Closes, initial: real, scale: real,
                                     round: real -> real, s: string)
    ensures Held(ReplayDays(days, fills, closes, initial, scale, round).book.held, s) as real
         == WeightedSum(days, fills, SharesOf(s))
  {
    if days == [] {
      NoDaysNoSum(fills, SharesOf(s));
    } else {
      var n := |days| - 1;
      HeldAfter(days[..n], fills, closes, initial, scale, round, s);
      FillsMoveShares(ReplayDays(days[..n], fills, closes, initial, scale, round).book, FillsOn(fills, days[n]), scale, s);
      OneMoreDay(days[..n], days[n], fills, SharesOf(s));
      assert days == days[..n] + [days[n]];
    }
  }

  /** After the last day the replay holds what the fills alone leave, in any order and for any direction. */
  lemma HoldingsAgree(days: seq<Date>, fills: seq<DayFill>, closes: Closes, initial: real, scale: real,
                      round: real -> real, s: string)
    requires CoversOnce(days, fills)
    ensures Held(ReplayDays(Sorted(days), fills, closes, initial, scale, round).book.held, s) == Net(fills, s)
  {
    SortedIs(days);
    HeldAfter(Sorted(days), fills, closes, initial, scale, round, s);
    SumOnce(Sorted(days), fills, SharesOf(s));
    NetIsSum(fills, s);
  }

  // ---------------------------------------------------------------- prices and missing closes

  /** Symbols are listed once each, in a book's holdings exactly when they are listed, and then have a price. */
  ghost predicate Listed(b: Book) {
    && (forall i, j :: 0 <= i < j < |b.symbols| ==> b.symbols[i] != b.symbols[j])
    && (forall s :: s in b.held <==> s in b.symbols)
    && (forall s :: s in b.held ==> s in b.lastClose)
  }

  lemma {:induction false} FillsKeepListed(b: Book, fills: seq<DayFill>, scale: real)
    requires Listed(b)
    ensures Listed(ReplayFills(b, fills, scale))
  {
    if fills != [] {
      FillsKeepListed(b, fills[..|fills| - 1], scale);
    }
  }

  lemma {:induction false} MarkingKeepsPrices(b: Book, symbols: seq<string>, closes: Closes, day: Date)
    ensures forall s :: s in b.lastClose ==> s in Marked(b, symbols, closes, day)
  {
    if symbols != [] {
      MarkingKeepsPrices(b, symbols[..|symbols| - 1], closes, day);
    }
  }

  /** No held symbol is ever without a last known price, so no valuation can fail. */
  lemma {:induction false} AlwaysListed(days: seq<Date>, fills: seq<DayFill>, closes: Closes, initial: real,
                                        scale: real, round: real -> real)
    ensures Listed(ReplayDays(days, fills, closes, initial, scale, round).book)
  {
    if days != [] {
      var n := |days| - 1;
      AlwaysListed(days[..n], fills, closes, initial, scale, round);
      var before := ReplayDays(days[..n], fills, closes, initial, scale, round).book;
      FillsKeepListed(before, FillsOn(fills, days[n]), scale);
      var b := ReplayFills(before, FillsOn(fills, days[n]), scale);
      MarkingKeepsPrices(b, b.symbols, closes, days[n]);
    }
  }

  lemma {:induction false} MissingOnIs(b: Book, symbols: seq<string>, closes: Closes, day: Date, m: MissingClose)
    ensures m in MissingOn(b, symbols, closes, day) <==>
            m.tradeDate == day && m.symbol in symbols && Held(b.held, m.symbol) != 0
            && CloseOf(closes, m.symbol, day).None?
  {
    if symbols != [] {
      var n := |symbols| - 1;
      MissingOnIs(b, symbols[..n], closes, day, m);
      assert symbols == symbols[..n] + [symbols[n]];
    }
  }

  /** The i-th day ends with this symbol held and no close for it. */
  predicate OpenOn(days: seq<Date>, i: nat, fills: seq<DayFill>, closes: Closes, m: MissingClose) {
    && i < |days| && days[i] == m.tradeDate && CloseOf(closes, m.symbol, m.tradeDate).None?
    && WeightedSum(days[..i + 1], fills, SharesOf(m.symbol)) != 0.0
  }

  ghost predicate HeldWithoutClose(days: seq<Date>, fills: seq<DayFill>, closes: Closes, m: MissingClose) {
    exists i :: OpenOn(days, i, fills, closes, m)
  }

  lemma HeldOnDay(days: seq<Date>, fills: seq<DayFill>, closes: Closes, initial: real, scale: real,
                  round: real -> real, s: string)
    requires days != []
    ensures var before := ReplayDays(days[..|days| - 1], fills, closes, initial, scale, round).book;
            var b := ReplayFills(before, FillsOn(fills, days[|days| - 1]), scale);
            Listed(b) && Held(b.held, s) as real == WeightedSum(days, fills, SharesOf(s))
  {
    var n := |days| - 1;
    AlwaysListed(days[..n], fills, closes, initial, scale, round);
    FillsKeepListed(ReplayDays(days[..n], fills, closes, initial, scale, round).book, FillsOn(fills, days[n]), scale);
    HeldAfter(days, fills, closes, initial, scale, round, s);
  }

  lemma OpenOnFront(days: seq<Date>, i: nat, fills: seq<DayFill>, closes: Closes, m: MissingClose)
    requires i + 1 < |days|
    ensures OpenOn(days[..|days| - 1], i, fills, closes, m) <==> OpenOn(days, i, fills, closes, m)
  {
    assert days[..|days| - 1][..i + 1] == days[..i + 1];
  }

  lemma HeldWithoutCloseMore(days: seq<Date>, fills: seq<DayFill>, closes: Closes, m: MissingClose)
    requires days != []
    ensures HeldWithoutClose(days, fills, closes, m) <==>
            HeldWithoutClose(days[..|days| - 1], fills, closes, m) || OpenOn(days, |days| - 1, fills, closes, m)
  {
    var front := days[..|days| - 1];
    if HeldWithoutClose(front, fills, closes, m) {
      var i: nat :| OpenOn(front, i, fills, closes, m);
      OpenOnFront(days, i, fills, closes, m);
    }
    if HeldWithoutClose(days, fills, closes, m) {
      var i: nat :| OpenOn(days, i, fills, closes, m);
      if i + 1 < |days| {
        OpenOnFront(days, i, fills, closes, m);
      }
    }
  }

  /** The missing closes are exactly the days and symbols that were held over a day that has no close for them. */
  lemma {:induction false} MissingIsExact(days: seq<Date>, fills: seq<DayFill>, closes: Closes, initial: real,
                                          scale: real, round: real -> real, m: MissingClose)
    ensures m in ReplayDays(days, fills, closes, initial, scale, round).missing <==>
            HeldWithoutClose(days, fills, closes, m)
  {
    if days != [] {
      var n := |days| - 1;
      MissingIsExact(days[..n], fills, closes, initial, scale, round, m);
      HeldOnDay(days, fills, closes, initial, scale, round, m.symbol);
      var before := ReplayDays(days[..n], fills, closes, initial, scale, round);
      var b := ReplayFills(before.book, FillsOn(fills, days[n]), scale);
      MissingOnIs(b, b.symbols, closes, days[n], m);
      HeldWithoutCloseMore(days, fills, closes, m);
      assert days[..n + 1] == days;
    }
  }

  // ---------------------------------------------------------------- last known prices

  /** The price of the first fill in a symbol. */
  function FirstPrice(fills: seq<DayFill>, s: string): Option<real> {
    if fills == [] then None
    else
      var earlier := FirstPrice(fills[..|fills| - 1], s);
      if earlier.Some? then earlier
      else if fills[|fills| - 1].symbol == s then Some(fills[|fills| - 1].price)
      else None
  }

  /**
   * The last price known of a symbol, from its own days alone: the close of the last day it was held over that has
   * one, or else the price of its first fill.
   */
  function LastKnown(days: seq<Date>, fills: seq<DayFill>, closes: Closes, s: string): Option<real> {
    if days == [] then None
    else
      var day := days[|days| - 1];
      var before := LastKnown(days[..|days| - 1], fills, closes, s);
      var close := CloseOf(closes, s, day);
      if close.Some? && WeightedSum(days, fills, SharesOf(s)) != 0.0 then close
      else if before.Some? then before
      else FirstPrice(FillsOn(fills, day), s)
  }

  function Known(prices: map<string, real>, s: string): Option<real> {
    if s in prices then Some(prices[s]) else None
  }

  lemma {:induction false} FillsTellPrices(b: Book, fills: seq<DayFill>, scale: real, s: string)
    ensures Known(ReplayFills(b, fills, scale).lastClose, s)
         == if s in b.lastClose then Some(b.lastClose[s]) else FirstPrice(fills, s)
  {
    if fills != [] {
      FillsTellPrices(b, fills[..|fills| - 1], scale, s);
    }
  }

  lemma {:induction false} MarkedIs(b: Book, symbols: seq<string>, closes: Closes, day: Date, s: string)
    requires Listed(b) && forall x :: x in symbols ==> x in b.symbols
    ensures Known(Marked(b, symbols, closes, day), s)
         == if s in symbols && Held(b.held, s) != 0 && CloseOf(closes, s, day).Some? then CloseOf(closes, s, day)
            else Known(b.lastClose, s)
  {
    if symbols != [] {
      var n := |symbols| - 1;
      assert symbols == symbols[..n] + [symbols[n]];
      MarkedIs(b, symbols[..n], closes, day, s);
    }
  }

  /** What the book remembers of a symbol's price is the last price known of it. */
  lemma {:induction false} PricesAreLastKnown(days: seq<Date>, fills: seq<DayFill>, closes: Closes, initial: real,
                                              scale: real, round: real -> real, s: string)
    ensures Known(ReplayDays(days, fills, closes, initial, scale, round).book.lastClose, s)
         == LastKnown(days, fills, closes, s)
  {
    if days != [] {
      var n := |days| - 1;
      PricesAreLastKnown(days[..n], fills, closes, initial, scale, round, s);
      var before := ReplayDays(days[..n], fills, closes, initial, scale, round).book;
      var b := Traded(before, days[n], fills, scale);
      FillsTellPrices(before, FillsOn(fills, days[n]), scale, s);
      HeldOnDay(days, fills, closes, initial, scale, round, s);
      MarkedIs(b, b.symbols, closes, days[n], s);
    }
  }

  /** The worth of the holdings at these prices. */
  function WorthAt(b: Book, symbols: seq<string>, prices: map<string, real>): real {
    if symbols == [] then 0.0
    else
      var s := symbols[|symbols| - 1];
      WorthAt(b, symbols[..|symbols| - 1], prices)
      + if s in prices then Worth(Held(b.held, s), prices[s]) else 0.0
  }

  lemma {:induction false} ValuedAtMarks(b: Book, k: nat, closes: Closes, day: Date)
    requires Listed(b) && k <= |b.symbols|
    ensures Valued(b, b.symbols[..k], closes, day) == WorthAt(b, b.symbols[..k], Marked(b, b.symbols, closes, day))
  {
    if k > 0 {
      var s := b.symbols[k - 1];
      assert b.symbols[..k][..k - 1] == b.symbols[..k - 1];
      ValuedAtMarks(b, k - 1, closes, day);
      MarkedIs(b, b.symbols, closes, day, s);
      assert Known(Marked(b, b.symbols, closes, day), s).Some?;
    }
  }

  /** The last value is the holdings at the prices the book remembers, beside the cash. */
  ghost predicate MarkedToMarket(r: Replay, round: real -> real) {
    var market := WorthAt(r.book, r.book.symbols, r.book.lastClose);
    && r.values != []
    && r.values[|r.values| - 1].marketValue == round(market)
    && r.values[|r.values| - 1].totalAsset == round(r.book.cash + market)
  }

  lemma ClosingMarks(b: Book, day: Date, closes: Closes)
    requires Listed(b)
    ensures Valued(b, b.symbols, closes, day)
         == WorthAt(Closed(b, day, closes), b.symbols, Marked(b, b.symbols, closes, day))
  {
    ValuedAtMarks(b, |b.symbols|, closes, day);
    assert b.symbols[..|b.symbols|] == b.symbols;
    WorthIgnoresPrices(b, Closed(b, day, closes), b.symbols, Marked(b, b.symbols, closes, day));
  }

  lemma DayIsMarked(r: Replay, day: Date, fills: seq<DayFill>, closes: Closes, scale: real, round: real -> real)
    requires Listed(Traded(r.book, day, fills, scale))
    ensures MarkedToMarket(ReplayDay(r, day, fills, closes, scale, round), round)
  {
    ClosingMarks(Traded(r.book, day, fills, scale), day, closes);
  }

  /** A day's market value is its holdings at the prices known when the day is over. */
  lemma ValueIsHoldingsAtLastKnown(days: seq<Date>, fills: seq<DayFill>, closes: Closes, initial: real, scale: real,
                                   round: real -> real)
    requires days != []
    ensures MarkedToMarket(ReplayDays(days, fills, closes, initial, scale, round), round)
  {
    var n := |days| - 1;
    HeldOnDay(days, fills, closes, initial, scale, round, "");
    DayIsMarked(ReplayDays(days[..n], fills, closes, initial, scale, round), days[n], fills, closes, scale, round);
  }

  lemma {:induction false} WorthIgnoresPrices(a: Book, b: Book, symbols: seq<string>, prices: map<string, real>)
    requires a.held == b.held
    ensures WorthAt(a, symbols, prices) == WorthAt(b, symbols, prices)
  {
    if symbols != [] {
      WorthIgnoresPrices(a, b, symbols[..|symbols| - 1], prices);
    }
  }

  // ---------------------------------------------------------------- only the past matters

  lemma {:induction false} SameCloses(b: Book, symbols: seq<string>, closes: Closes, other: Closes, day: Date)
    requires forall s :: CloseOf(closes, s, day) == CloseOf(other, s, day)
    ensures Valued(b, symbols, closes, day) == Valued(b, symbols, other, day)
    ensures MissingOn(b, symbols, closes, day) == MissingOn(b, symbols, other, day)
    ensures Marked(b, symbols, closes, day) == Marked(b, symbols, other, day)
  {
    if symbols != [] {
      SameCloses(b, symbols[..|symbols| - 1], closes, other, day);
    }
  }

  /** The inputs say the same about a day. */
  ghost predicate SameDay(day: Date, fills: seq<DayFill>, others: seq<DayFill>, closes: Closes, other: Closes) {
    && FillsOn(fills, day) == FillsOn(others, day)
    && forall s :: CloseOf(closes, s, day) == CloseOf(other, s, day)
  }

  ghost predicate AgreeOn(days: seq<Date>, fills: seq<DayFill>, others: seq<DayFill>, closes: Closes, other: Closes) {
    forall i :: 0 <= i < |days| ==> SameDay(days[i], fills, others, closes, other)
  }

  lemma SameDayReplay(r: Replay, day: Date, fills: seq<DayFill>, others: seq<DayFill>, closes: Closes, other: Closes,
                      scale: real, round: real -> real)
    requires SameDay(day, fills, others, closes, other)
    ensures ReplayDay(r, day, fills, closes, scale, round) == ReplayDay(r, day, others, other, scale, round)
  {
    var b := ReplayFills(r.book, FillsOn(fills, day), scale);
    SameCloses(b, b.symbols, closes, other, day);
  }

  lemma {:induction false} SameReplay(days: seq<Date>, fills: seq<DayFill>, others: seq<DayFill>, closes: Closes,
                                      other: Closes, initial: real, scale: real, round: real -> real)
    requires AgreeOn(days, fills, others, closes, other)
    ensures ReplayDays(days, fills, closes, initial, scale, round)
         == ReplayDays(days, others, other, initial, scale, round)
  {
    if days != [] {
      var n := |days| - 1;
      SameReplay(days[..n], fills, others, closes, other, initial, scale, round);
      var before := ReplayDays(days[..n], fills, closes, initial, scale, round);
      SameDayReplay(before, days[n], fills, others, closes, other, scale, round);
    }
  }

  lemma DayAdds(r: Replay, day: Date, fills: seq<DayFill>, closes: Closes, scale: real, round: real -> real)
    ensures var d := ReplayDay(r, day, fills, closes, scale, round);
            |d.values| == |r.values| + 1 && d.values[..|r.values|] == r.values
            && d.values[|r.values|].availableCash == round(d.book.cash)
  {
  }

  lemma {:induction false} OneValueADay(days: seq<Date>, fills: seq<DayFill>, closes: Closes, initial: real,
                                        scale: real, round: real -> real)
    ensures var r := ReplayDays(days, fills, closes, initial, scale, round);
            |r.values| == |days| && (days != [] ==> r.values[|days| - 1].availableCash == round(r.book.cash))
  {
    if days != [] {
      var n := |days| - 1;
      OneValueADay(days[..n], fills, closes, initial, scale, round);
      DayAdds(ReplayDays(days[..n], fills, closes, initial, scale, round), days[n], fills, closes, scale, round);
    }
  }

  lemma {:induction false} ValuesOfPrefix(days: seq<Date>, k: nat, fills: seq<DayFill>, closes: Closes, initial: real,
                                          scale: real, round: real -> real)
    requires k <= |days|
    ensures |ReplayDays(days, fills, closes, initial, scale, round).values| == |days|
    ensures ReplayDays(days, fills, closes, initial, scale, round).values[..k]
         == ReplayDays(days[..k], fills, closes, initial, scale, round).values
  {
    OneValueADay(days, fills, closes, initial, scale, round);
    if k == |days| {
      assert days[..k] == days;
    } else {
      var n := |days| - 1;
      ValuesOfPrefix(days[..n], k, fills, closes, initial, scale, round);
      assert days[..n][..k] == days[..k];
      DayAdds(ReplayDays(days[..n], fills, closes, initial, scale, round), days[n], fills, closes, scale, round);
    }
  }

  lemma {:induction false} EarlierDaysSettle(days: seq<Date>, k: nat, fills: seq<DayFill>, others: seq<DayFill>,
                                             closes: Closes, other: Closes, initial: real, scale: real,
                                             round: real -> real)
    requires k <= |days| && AgreeOn(days[..k], fills, others, closes, other)
    ensures |ReplayDays(days, fills, closes, initial, scale, round).values| == |days|
         == |ReplayDays(days, others, other, initial, scale, round).values|
    ensures ReplayDays(days, fills, closes, initial, scale, round).values[..k]
         == ReplayDays(days, others, other, initial, scale, round).values[..k]
  {
    ValuesOfPrefix(days, k, fills, closes, initial, scale, round);
    ValuesOfPrefix(days, k, others, other, initial, scale, round);
    SameReplay(days[..k], fills, others, closes, other, initial, scale, round);
  }

  function Dates(values: seq<DailyEquity>): (days: seq<Date>)
    ensures |days| == |values|
  {
    seq(|values|, i requires 0 <= i < |values| => values[i].tradeDate)
  }

  /** There is one value for each day, in the order of the days. */
  lemma {:induction false} DatesAre(days: seq<Date>, fills: seq<DayFill>, closes: Closes, initial: real, scale: real,
                                    round: real -> real)
    ensures Dates(ReplayDays(days, fills, closes, initial, scale, round).values) == days
  {
    if days != [] {
      var n := |days| - 1;
      DatesAre(days[..n], fills, closes, initial, scale, round);
      var r := ReplayDays(days[..n], fills, closes, initial, scale, round);
      assert Dates(ReplayDay(r, days[n], fills, closes, scale, round).values) == Dates(r.values) + [days[n]];
      assert days == days[..n] + [days[n]];
    }
  }

  /** The values are about exactly these days, and in the order of their dates. */
  predicate InDateOrder(values: seq<DailyEquity>, days: seq<Date>) {
    Ascending(Dates(values)) && multiset(Dates(values)) == multiset(days)
  }

  lemma ReplayIsInDateOrder(days: seq<Date>, fills: seq<DayFill>, closes: Closes, initial: real, scale: real,
                            round: real -> real)
    ensures InDateOrder(ReplayDays(Sorted(days), fills, closes, initial, scale, round).values, days)
  {
    DatesAre(Sorted(days), fills, closes, initial, scale, round);
    SortedAscends(days);
    SortedIs(days);
  }

  /** How many of the days come no later than d. */
  function Through(days: seq<Date>, d: Date): (k: nat)
    ensures k <= |days|
  {
    if days == [] then 0 else if days[|days| - 1] <= d then |days| else Through(days[..|days| - 1], d)
  }

  lemma {:induction false} ThroughIs(days: seq<Date>, d: Date)
    requires Ascending(days)
    ensures forall i :: 0 <= i < |days| ==> (days[i] <= d <==> i < Through(days, d))
  {
    if days != [] && days[|days| - 1] > d {
      var n := |days| - 1;
      ThroughIs(days[..n], d);
      assert forall i :: 0 <= i < n ==> days[..n][i] == days[i];
    }
  }

  /** The values of the days up to a date. */
  function ValuesUpTo(values: seq<DailyEquity>, d: Date): seq<DailyEquity> {
    if values == [] then []
    else
      var n := |values| - 1;
      ValuesUpTo(values[..n], d) + if values[n].tradeDate <= d then [values[n]] else []
  }

  lemma {:induction false} UpToIsPrefix(values: seq<DailyEquity>, d: Date, k: nat)
    requires k <= |values|
    requires forall i :: 0 <= i < |values| ==> (values[i].tradeDate <= d <==> i < k)
    ensures ValuesUpTo(values, d) == values[..k]
  {
    if values != [] {
      var n := |values| - 1;
      UpToIsPrefix(values[..n], d, if k <= n then k else n);
      if k <= n {
        assert values[..n][..k] == values[..k];
      } else {
        assert values[..k] == values[..n] + [values[n]];
      }
    }
  }

  lemma {:induction false} ValuesUpToAre(days: seq<Date>, d: Date, fills: seq<DayFill>, closes: Closes, initial: real,
                                         scale: real, round: real -> real)
    requires Ascending(days)
    ensures var values := ReplayDays(days, fills, closes, initial, scale, round).values;
            |values| == |days| && ValuesUpTo(values, d) == values[..Through(days, d)]
  {
    var values := ReplayDays(days, fills, closes, initial, scale, round).values;
    DatesAre(days, fills, closes, initial, scale, round);
    ThroughIs(days, d);
    forall i | 0 <= i < |values| ensures values[i].tradeDate <= d <==> i < Through(days, d) {
      assert Dates(values)[i] == days[i];
    }
    UpToIsPrefix(values, d, Through(days, d));
  }

  /**
   * For a fixed scale, the values up to a date are settled by the fills and closes of the days up to that date, in
   * whatever order the days were listed.
   */
  lemma {:induction false} OnlyThePastMatters(days: seq<Date>, d: Date, fills: seq<DayFill>, others: seq<DayFill>,
                                              closes: Closes, other: Closes, initial: real, scale: real,
                                              round: real -> real)
    requires forall day :: day in days && day <= d ==> SameDay(day, fills, others, closes, other)
    ensures ValuesUpTo(ReplayDays(Sorted(days), fills, closes, initial, scale, round).values, d)
         == ValuesUpTo(ReplayDays(Sorted(days), others, other, initial, scale, round).values, d)
  {
    var sorted := Sorted(days);
    var k := Through(sorted, d);
    SortedAscends(days);
    ThroughIs(sorted, d);
    forall i | 0 <= i < k ensures SameDay(sorted[..k][i], fills, others, closes, other) {
      SortedIs(days);
      assert sorted[i] in multiset(sorted);
    }
    EarlierDaysSettle(sorted, k, fills, others, closes, other, initial, scale, round);
    ValuesUpToAre(sorted, d, fills, closes, initial, scale, round);
    ValuesUpToAre(sorted, d, others, other, initial, scale, round);
  }

  // ---------------------------------------------------------------- each day by its date

  /** The fills up to a date. */
  function FillsUpTo(fills: seq<DayFill>, d: Date): seq<DayFill> {
    if fills == [] then []
    else
      var n := |fills| - 1;
      FillsUpTo(fills[..n], d) + if fills[n].tradeDate <= d then [fills[n]] else []
  }

  /** What the fills up to a date leave of the cash. */
  function CashAt(d: Date, fills: seq<DayFill>, initial: real, scale: real): real {
    initial + SumOf(FillsUpTo(fills, d), ReplayedBy(scale))
  }

  /** A day listed once is among the first k of them exactly when it comes no later than the k-th. */
  lemma TimesUpTo(days: seq<Date>, k: nat, day: Date)
    requires Ascending(days) && 0 < k <= |days| && Times(days, day) == 1
    ensures Times(days[..k], day) == if day <= days[k - 1] then 1 else 0
  {
    assert days == days[..k] + days[k..];
    if day < days[k - 1] {
      assert day !in days[k..];
    } else if day == days[k - 1] {
      assert days[..k][k - 1] == day;
    } else {
      assert day !in days[..k];
    }
  }

  lemma {:induction false} WeightedUpTo(days: seq<Date>, i: nat, fills: seq<DayFill>, g: DayFill -> real)
    requires Ascending(days) && i < |days| && CoversOnce(days, fills)
    ensures WeightedSum(days[..i + 1], fills, g) == SumOf(FillsUpTo(fills, days[i]), g)
  {
    if fills != [] {
      var n := |fills| - 1;
      WeightedUpTo(days, i, fills[..n], g);
      assert Times(days, fills[n].tradeDate) == 1;
      TimesUpTo(days, i + 1, fills[n].tradeDate);
      OnceIs(g(fills[n]));
      var earlier := FillsUpTo(fills[..n], days[i]);
      SumMore(earlier, fills[n], g);
      assert earlier + [] == earlier;
    }
  }

  lemma {:induction false} CashUpTo(days: seq<Date>, i: nat, fills: seq<DayFill>, closes: Closes, initial: real,
                                    scale: real, round: real -> real)
    requires Ascending(days) && i < |days| && CoversOnce(days, fills)
    ensures ReplayDays(days[..i + 1], fills, closes, initial, scale, round).book.cash
         == CashAt(days[i], fills, initial, scale)
  {
    CashAfter(days[..i + 1], fills, closes, initial, scale, round);
    WeightedUpTo(days, i, fills, ReplayedBy(scale));
  }

  /** The cash reported for a day is what the fills up to its date leave, whatever the order of days and fills. */
  lemma {:induction false} CashOfDay(days: seq<Date>, fills: seq<DayFill>, closes: Closes, initial: real, scale: real,
                                     round: real -> real, i: nat)
    requires CoversOnce(days, fills) && i < |days|
    ensures var values := ReplayDays(Sorted(days), fills, closes, initial, scale, round).values;
            |values| == |days|
            && values[i].availableCash == round(CashAt(values[i].tradeDate, fills, initial, scale))
  {
    var sorted := Sorted(days);
    SortedIs(days);
    SortedAscends(days);
    ValueOfPrefix(sorted, i, fills, closes, initial, scale, round);
    CashUpTo(sorted, i, fills, closes, initial, scale, round);
  }

  /** The i-th value is the last of a replay that stops there, and is about the i-th day. */
  lemma {:induction false} ValueOfPrefix(days: seq<Date>, i: nat, fills: seq<DayFill>, closes: Closes, initial: real,
                                         scale: real, round: real -> real)
    requires i < |days|
    ensures var values := ReplayDays(days, fills, closes, initial, scale, round).values;
            && |values| == |days| && values[i].tradeDate == days[i]
            && values[i].availableCash
            == round(ReplayDays(days[..i + 1], fills, closes, initial, scale, round).book.cash)
  {
    var values := ReplayDays(days, fills, closes, initial, scale, round).values;
    ValuesOfPrefix(days, i + 1, fills, closes, initial, scale, round);
    assert values[i] == values[..i + 1][i];
    OneValueADay(days[..i + 1], fills, closes, initial, scale, round);
    DatesAre(days, fills, closes, initial, scale, round);
    assert Dates(values)[i] == values[i].tradeDate;
  }

  /** So are the holdings it is valued at. */
  lemma {:induction false} HoldingsOfDay(days: seq<Date>, fills: seq<DayFill>, closes: Closes, initial: real,
                                         scale: real, round: real -> real, i: nat, s: string)
    requires CoversOnce(days, fills) && i < |Sorted(days)|
    ensures Held(ReplayDays(Sorted(days)[..i + 1], fills, closes, initial, scale, round).book.held, s)
         == Net(FillsUpTo(fills, Sorted(days)[i]), s)
  {
    SortedIs(days);
    SortedAscends(days);
    HeldAfter(Sorted(days)[..i + 1], fills, closes, initial, scale, round, s);
    WeightedUpTo(Sorted(days), i, fills, SharesOf(s));
    NetIsSum(FillsUpTo(fills, Sorted(days)[i]), s);
  }

  // ---------------------------------------------------------------- the reconstruction itself

  lemma FillsOnMore(fills: seq<DayFill>, i: nat, day: Date)
    requires i < |fills|
    ensures FillsOn(fills[..i + 1], day)
         == FillsOn(fills[..i], day) + if fills[i].tradeDate == day then [fills[i]] else []
  {
    assert fills[..i + 1][..i] == fills[..i];
  }

  method GroupByDay(fills: seq<DayFill>) returns (byDay: map<Date, seq<DayFill>>)
    ensures forall day :: (if day in byDay then byDay[day] else []) == FillsOn(fills, day)
  {
    byDay := map[];
    var i := 0;
    while i < |fills|
      invariant i <= |fills|
      invariant forall day :: (if day in byDay then byDay[day] else []) == FillsOn(fills[..i], day)
    {
      forall day ensures FillsOn(fills[..i + 1], day)
        == FillsOn(fills[..i], day) + if fills[i].tradeDate == day then [fills[i]] else []
      {
        FillsOnMore(fills, i, day);
      }
      var fill := fills[i];
      byDay := byDay[fill.tradeDate := (if fill.tradeDate in byDay then byDay[fill.tradeDate] else []) + [fill]];
      i := i + 1;
    }
    assert fills[..i] == fills;
  }

  method ReplayOneDay(book: Book, fills: seq<DayFill>, scale: real) returns (b: Book)
    ensures b == ReplayFills(book, fills, scale)
  {
    b := book;
    var i := 0;
    while i < |fills|
      invariant i <= |fills| && b == ReplayFills(book, fills[..i], scale)
    {
      assert fills[..i + 1][..i] == fills[..i];
      b := ReplayOneFill(b, fills[i], scale);
      i := i + 1;
    }
    assert fills[..i] == fills;
  }

  method ReplayOneFill(book: Book, fill: DayFill, scale: real) returns (b: Book)
    ensures b == ReplayFill(book, fill, scale)
  {
    var cash, symbols, held, lastClose := book.cash, book.symbols, book.held, book.lastClose;
    var amount := Amount(fill);
    var fee := StandardFee(fill) * scale;
    if fill.symbol !in held {
      symbols := symbols + [fill.symbol];
    }
    if fill.direction == "BUY" {
      cash := cash - (amount + fee);
      held := held[fill.symbol := Held(held, fill.symbol) + fill.quantity];
    } else {
      cash := cash + (amount - fee);
      held := held[fill.symbol := Held(held, fill.symbol) - fill.quantity];
    }
    if fill.symbol !in lastClose {
      lastClose := lastClose[fill.symbol := fill.price];
    }
    b := Book(cash, symbols, held, lastClose);
  }

  lemma {:induction false} MarkedElsewhere(b: Book, symbols: seq<string>, closes: Closes, day: Date, s: string)
    requires s !in symbols
    ensures (s in Marked(b, symbols, closes, day) <==> s in b.lastClose)
    ensures s in b.lastClose ==> Marked(b, symbols, closes, day)[s] == b.lastClose[s]
  {
    if symbols != [] {
      var n := |symbols| - 1;
      assert symbols == symbols[..n] + [symbols[n]];
      MarkedElsewhere(b, symbols[..n], closes, day, s);
    }
  }

  /** The price one holding is valued at, given the prices marked so far. */
  method PriceFor(b: Book, i: nat, closes: Closes, day: Date, lastClose: map<string, real>) returns (price: real)
    requires Listed(b) && i < |b.symbols| && lastClose == Marked(b, b.symbols[..i], closes, day)
    ensures price == PriceOn(b, closes, b.symbols[i], day)
  {
    var symbol := b.symbols[i];
    MarkedElsewhere(b, b.symbols[..i], closes, day, symbol);
    var close := CloseOf(closes, symbol, day);
    price := if close.None? then lastClose[symbol] else close.value;
  }

  method ValueOneDay(b: Book, closes: Closes, day: Date)
    returns (market: real, lastClose: map<string, real>, missing: seq<MissingClose>)
    requires Listed(b)
    ensures market == Valued(b, b.symbols, closes, day) && lastClose == Marked(b, b.symbols, closes, day)
    ensures missing == MissingOn(b, b.symbols, closes, day)
  {
    market, lastClose, missing := 0.0, b.lastClose, [];
    var i := 0;
    while i < |b.symbols|
      invariant i <= |b.symbols| && market == Valued(b, b.symbols[..i], closes, day)
      invariant lastClose == Marked(b, b.symbols[..i], closes, day)
      invariant missing == MissingOn(b, b.symbols[..i], closes, day)
    {
      assert b.symbols[..i + 1][..i] == b.symbols[..i];
      var symbol := b.symbols[i];
      var quantity := b.held[symbol];
      if quantity != 0 {
        var price := PriceFor(b, i, closes, day, lastClose);
        if CloseOf(closes, symbol, day).None? {
          missing := missing + [MissingClose(symbol, day)];
        }
        lastClose := lastClose[symbol := price];
        market := market + Worth(quantity, price);
      }
      i := i + 1;
    }
    assert b.symbols[..i] == b.symbols;
  }

  method ReconstructDay(book: Book, day: Date, ghost fills: seq<DayFill>, today: seq<DayFill>, closes: Closes, scale: real,
                        round: real -> real)
    returns (b: Book, value: DailyEquity, missing: seq<MissingClose>)
    requires Listed(book) && today == FillsOn(fills, day)
    ensures b == Closed(Traded(book, day, fills, scale), day, closes)
    ensures value == ValueOf(Traded(book, day, fills, scale), day, closes, round)
    ensures missing == MissingOn(Traded(book, day, fills, scale), b.symbols, closes, day)
  {
    FillsKeepListed(book, today, scale);
    var traded := ReplayOneDay(book, today, scale);
    b, value, missing := CloseDay(traded, day, closes, round);
  }

  method CloseDay(traded: Book, day: Date, closes: Closes, round: real -> real)
    returns (b: Book, value: DailyEquity, missing: seq<MissingClose>)
    requires Listed(traded)
    ensures b == Closed(traded, day, closes) && value == ValueOf(traded, day, closes, round)
    ensures missing == MissingOn(traded, traded.symbols, closes, day)
  {
    var market, lastClose, more := ValueOneDay(traded, closes, day);
    b, missing := traded.(lastClose := lastClose), more;
    value := DailyEquity(day, round(traded.cash + market), round(traded.cash), round(market));
  }

  method Reconstruct(days: seq<Date>, fills: seq<DayFill>, closes: Closes, initial: real, scale: real,
                     round: real -> real)
    returns (values: seq<DailyEquity>, missing: seq<MissingClose>)
    ensures values == ReplayDays(Sorted(days), fills, closes, initial, scale, round).values
    ensures missing == ReplayDays(Sorted(days), fills, closes, initial, scale, round).missing
    ensures |values| == |days| && InDateOrder(values, days)
    ensures days != [] ==>
              values[|values| - 1].availableCash == round(FinalCash(days, fills, closes, initial, scale, round))
  {
    var byDay := GroupByDay(fills);
    var sorted := Sorted(days);
    var book := Book(initial, [], map[], map[]);
    values, missing := [], [];
    var i := 0;
    while i < |sorted|
      invariant i <= |sorted|
      invariant Replay(book, values, missing) == ReplayDays(sorted[..i], fills, closes, initial, scale, round)
    {
      AlwaysListed(sorted[..i], fills, closes, initial, scale, round);
      NextDay(sorted, i, fills, closes, initial, scale, round);
      var day := sorted[i];
      var value, more;
      book, value, more := ReconstructDay(book, day, fills, if day in byDay then byDay[day] else [], closes, scale, round);
      values, missing := values + [value], missing + more;
      i := i + 1;
    }
    assert sorted[..i] == sorted;
    LastValueIsFinalCash(days, fills, closes, initial, scale, round);
    ReplayIsInDateOrder(days, fills, closes, initial, scale, round);
  }

  lemma LastValueIsFinalCash(days: seq<Date>, fills: seq<DayFill>, closes: Closes, initial: real, scale: real,
                             round: real -> real)
    ensures var values := ReplayDays(Sorted(days), fills, closes, initial, scale, round).values;
            && |values| == |days|
            && (days != [] ==>
                  values[|values| - 1].availableCash == round(FinalCash(days, fills, closes, initial, scale, round)))
  {
    SortedIs(days);
    OneValueADay(Sorted(days), fills, closes, initial, scale, round);
  }

  lemma NextDay(days: seq<Date>, i: nat, fills: seq<DayFill>, closes: Closes, initial: real, scale: real,
                round: real -> real)
    requires i < |days|
    ensures ReplayDays(days[..i + 1], fills, closes, initial, scale, round)
         == ReplayDay(ReplayDays(days[..i], fills, closes, initial, scale, round), days[i], fills, closes, scale, round)
  {
    assert days[..i + 1][..i] == days[..i];
  }
}
