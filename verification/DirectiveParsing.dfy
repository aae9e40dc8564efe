/**
 * Reading what a model emitted, failing towards inaction: whatever is unusable downgrades its entry to a bare HOLD.
 * How Python reads an integer from a text is a parameter; where it raises instead of refusing is modelled.
 */
module DirectiveParsing {
  import opened Text
  import opened OrderModels
  import opened DirectiveSettlement

  /** A decoded JSON value. */
  datatype Value = Null | Bool(b: bool) | Int(n: int) | Float(f: Num) | Str(s: string) | Obj(fields: map<string, Value>)
    | List(items: seq<Value>)

  type Payload = map<string, Value>

  /** Python's `int` of a text, None where it raises ValueError. */
  type IntReader = string -> Option<int>

  /** A reader's result: a value, a ValueError, or the OverflowError of an integer too large to be converted. */
  datatype Read<T> = Good(value: T) | Bad(reason: string) | TooLarge

  const MAX_NOTE_CHARACTERS: nat := 500

  // The wording of the problems is left open, but that none of them is empty.
  datatype Problem = NotANumber | NotPositive | NotAClock | NoRepriceObject | NoNewPrice | NotAnInteger
    | BadPlan | UnknownAction

  function Say(p: Problem): (text: string)
    ensures text != ""
  {
    match p
    case NotANumber => "number"
    case NotPositive => "> 0"
    case NotAClock => "HH:MM"
    case NoRepriceObject => "object"
    case NoNewPrice => "new_price"
    case NotAnInteger => "integer"
    case BadPlan => "plan"
    case UnknownAction => "action"
  }

  function Field(payload: Payload, key: string): Value {
    if key in payload then payload[key] else Null
  }

  function TextOf(payload: Payload, key: string): string {
    var value := Field(payload, key);
    if value.Str? then Strip(value.s) else ""
  }

  function Pow2(n: nat): nat {
    if n == 0 then 1 else 2 * Pow2(n - 1)
  }

  /** The smallest positive integer that `float()` refuses. */
  function FloatLimit(): int {
    Pow2(1024) - Pow2(970)
  }

  function PriceFrom(value: Value): Read<Option<Num>> {
    match value
    case Null => Good(None)
    case Int(n) =>
      if n <= 0 then Bad(Say(NotPositive))
      else if n >= FloatLimit() then TooLarge
      else Good(Some(Fin(n as real)))
    case Float(f) => if AtMostZero(f) then Bad(Say(NotPositive)) else Good(Some(f))
    case _ => Bad(Say(NotANumber))
  }

  function ColonAt(s: string): (i: nat)
    ensures i <= |s|
    ensures i < |s| ==> s[i] == ':'
    ensures forall j :: 0 <= j < i ==> s[j] != ':'
  {
    if s == "" || s[0] == ':' then 0 else 1 + ColonAt(s[1..])
  }

  /** The two integers around the first colon of a text. */
  function Spelt(s: string, ints: IntReader): Option<(int, int)> {
    var text := Strip(s);
    var i := ColonAt(text);
    if i == |text| || ints(text[..i]).None? || ints(text[i + 1..]).None? then None
    else Some((ints(text[..i]).value, ints(text[i + 1..]).value))
  }

  /** What an argument of `datetime.time` must be for the call not to overflow. */
  predicate FitsCInt(n: int) {
    -0x8000_0000 <= n <= 0x7FFF_FFFF
  }

  predicate IsTimeOfDay(hour: int, minute: int) {
    0 <= hour < 24 && 0 <= minute < 60
  }

  const MICROSECONDS_A_MINUTE := 60_000_000

  function TimeOfDay(hour: int, minute: int): Time
    requires IsTimeOfDay(hour, minute)
  {
    (hour * 60 + minute) * MICROSECONDS_A_MINUTE
  }

  function ClockFrom(value: Value, ints: IntReader): Read<Option<Time>> {
    match value
    case Null => Good(None)
    case Str(s) =>
      var read := Spelt(s, ints);
      if read.None? then Bad(Say(NotAClock))
      else if !FitsCInt(read.value.0) || !FitsCInt(read.value.1) then TooLarge
      else if !IsTimeOfDay(read.value.0, read.value.1) then Bad(Say(NotAClock))
      else Good(Some(TimeOfDay(read.value.0, read.value.1)))
    case _ => Bad(Say(NotAClock))
  }

  function Failed<T, U>(r: Read<T>): Read<U>
    requires !r.Good?
  {
    if r.Bad? then Bad(r.reason) else TooLarge
  }

  function MaxTimesFrom(raw: Payload): Read<int> {
    if "max_times" !in raw then Good(1)
    else
      match raw["max_times"]
      case Int(n) => Good(n)
      case _ => Bad(Say(NotAnInteger))
  }

  function PlanFrom(value: Value): Read<RepricePlan> {
    if !value.Obj? then Bad(Say(NoRepriceObject))
    else
      var raw := value.fields;
      var newPrice := PriceFrom(Field(raw, "new_price"));
      if !newPrice.Good? then Failed(newPrice)
      else if newPrice.value.None? then Bad(Say(NoNewPrice))
      else
        var maxTimes := MaxTimesFrom(raw);
        if !maxTimes.Good? then Failed(maxTimes)
        else
          var above := PriceFrom(Field(raw, "when_price_above"));
          if !above.Good? then Failed(above)
          else
            var below := PriceFrom(Field(raw, "when_price_below"));
            if !below.Good? then Failed(below)
            else
              var plan := RepricePlan(newPrice.value.value, maxTimes.value, above.value, below.value);
              if plan.WellFormed() then Good(plan) else Bad(Say(BadPlan))
  }

  function ActionFrom(text: string): Option<Action> {
    if text == "cancel" then Some(CancelOrder)
    else if text == "hold" then Some(HoldOrder)
    else if text == "reprice" then Some(RepriceOrder)
    else None
  }

  function Note(text: string): string {
    if |text| <= MAX_NOTE_CHARACTERS then text else text[..MAX_NOTE_CHARACTERS]
  }

  /** The bare HOLD an unusable entry is kept as. */
  function Downgraded(payload: Payload, runId: int, reason: string): OrderDirective {
    OrderDirective(TextOf(payload, "order_id"), TextOf(payload, "symbol"), TextOf(payload, "stock_name"), HoldOrder,
                   Note(TextOf(payload, "note")), runId, None, None, None, None, 0, reason)
  }

  datatype Conditions = Conditions(above: Option<Num>, below: Option<Num>, after: Option<Time>)

  function ConditionsFrom(payload: Payload, ints: IntReader): Read<Conditions> {
    var above := PriceFrom(Field(payload, "cancel_if_price_above"));
    if !above.Good? then Failed(above)
    else
      var below := PriceFrom(Field(payload, "cancel_if_price_below"));
      if !below.Good? then Failed(below)
      else
        var after := ClockFrom(Field(payload, "cancel_if_unfilled_after"), ints);
        if !after.Good? then Failed(after) else Good(Conditions(above.value, below.value, after.value))
  }

  datatype Declaration = Declaration(action: Action, plan: Option<RepricePlan>, conditions: Conditions)

  /** What an entry declares, when all of it can be read. */
  function DeclarationFrom(payload: Payload, ints: IntReader): Read<Declaration> {
    var action := ActionFrom(TextOf(payload, "action"));
    if action.None? then Bad(Say(UnknownAction))
    else if !action.value.RepriceOrder? then
      var conditions := ConditionsFrom(payload, ints);
      if conditions.Good? then Good(Declaration(action.value, None, conditions.value)) else Failed(conditions)
    else
      var plan := PlanFrom(Field(payload, "reprice"));
      if !plan.Good? then Failed(plan)
      else
        var conditions := ConditionsFrom(payload, ints);
        if conditions.Good? then Good(Declaration(action.value, Some(plan.value), conditions.value))
        else Failed(conditions)
  }

  function Declared(payload: Payload, runId: int, d: Declaration): OrderDirective {
    OrderDirective(TextOf(payload, "order_id"), TextOf(payload, "symbol"), TextOf(payload, "stock_name"), d.action,
                   Note(TextOf(payload, "note")), runId, d.conditions.above, d.conditions.below, d.conditions.after,
                   d.plan, 0, "")
  }

  /** The entry for an order, or None for one that names no order; TooLarge is the error nothing catches. */
  function ParseDirective(payload: Payload, runId: int, ints: IntReader): Read<Option<OrderDirective>> {
    if TextOf(payload, "order_id") == "" then Good(None)
    else
      match DeclarationFrom(payload, ints)
      case Good(d) => Good(Some(Declared(payload, runId, d)))
      case Bad(reason) => Good(Some(Downgraded(payload, runId, reason)))
      case TooLarge => TooLarge
  }

  // ---------------------------------------------------------------- what one entry becomes

  predicate Readable(value: Value) {
    value.Null? || (value.Int? && 0 < value.n < FloatLimit()) || (value.Float? && !AtMostZero(value.f))
  }

  predicate ReadableClock(value: Value, ints: IntReader) {
    value.Null?
    || (value.Str? && Spelt(value.s, ints).Some? && IsTimeOfDay(Spelt(value.s, ints).value.0, Spelt(value.s, ints).value.1))
  }

  predicate ReadablePlan(value: Value) {
    && value.Obj? && Readable(Field(value.fields, "new_price")) && !Field(value.fields, "new_price").Null?
    && ("max_times" in value.fields ==> value.fields["max_times"].Int? && value.fields["max_times"].n >= 1)
    && Readable(Field(value.fields, "when_price_above")) && Readable(Field(value.fields, "when_price_below"))
    && !(Field(value.fields, "when_price_above").Null? && Field(value.fields, "when_price_below").Null?)
  }

  predicate ReadableConditions(payload: Payload, ints: IntReader) {
    && Readable(Field(payload, "cancel_if_price_above")) && Readable(Field(payload, "cancel_if_price_below"))
    && ReadableClock(Field(payload, "cancel_if_unfilled_after"), ints)
  }

  /** Every field the entry's action makes the parser look at is one it can read. */
  predicate ReadableEntry(payload: Payload, ints: IntReader) {
    var action := ActionFrom(TextOf(payload, "action"));
    action.Some? && ReadableConditions(payload, ints)
    && (action.value.RepriceOrder? ==> ReadablePlan(Field(payload, "reprice")))
  }

  lemma PriceReads(value: Value)
    ensures PriceFrom(value).Good? <==> Readable(value)
    ensures PriceFrom(value).TooLarge? <==> Huge(value)
    ensures PriceFrom(value).Good? ==> (PriceFrom(value).value.None? <==> value.Null?)
    ensures PriceFrom(value).Good? && PriceFrom(value).value.Some? ==> !AtMostZero(PriceFrom(value).value.value)
    ensures PriceFrom(value).Bad? ==> PriceFrom(value).reason != ""
  {
    LimitIsPositive();
  }

  lemma ConditionsRead(payload: Payload, ints: IntReader)
    ensures var c := ConditionsFrom(payload, ints);
            && (c.Good? <==> ReadableConditions(payload, ints)) && (c.TooLarge? <==> ConditionsOverflow(payload, ints))
            && (c.Bad? ==> c.reason != "")
  {
    PriceReads(Field(payload, "cancel_if_price_above"));
    PriceReads(Field(payload, "cancel_if_price_below"));
  }

  lemma PlanReads(value: Value)
    ensures var plan := PlanFrom(value);
            && (plan.Good? <==> ReadablePlan(value))
            && (plan.TooLarge? <==> value.Obj? && PlanOverflows(value.fields))
            && (plan.Bad? ==> plan.reason != "") && (plan.Good? ==> plan.value.WellFormed())
  {
    if value.Obj? {
      PriceReads(Field(value.fields, "new_price"));
      PriceReads(Field(value.fields, "when_price_above"));
      PriceReads(Field(value.fields, "when_price_below"));
    }
  }

  /** The parser reads an entry exactly when it is readable, and its error escapes exactly when it overflows. */
  lemma DeclarationReads(payload: Payload, ints: IntReader)
    ensures var d := DeclarationFrom(payload, ints);
            && (d.Good? <==> ReadableEntry(payload, ints)) && (d.TooLarge? <==> Overflows(payload, ints))
            && (d.Bad? ==> d.reason != "")
            && (d.Good? ==> (d.value.plan.Some? <==> d.value.action.RepriceOrder?)
                            && (d.value.plan.Some? ==> d.value.plan.value.WellFormed()))
  {
    ConditionsRead(payload, ints);
    PlanReads(Field(payload, "reprice"));
  }

  /** An entry arrives intact exactly when every field it declares is readable. */
  lemma IntactExactlyWhenReadable(payload: Payload, runId: int, ints: IntReader)
    requires TextOf(payload, "order_id") != ""
    ensures var r := ParseDirective(payload, runId, ints);
            (r.Good? && r.value.Some? && r.value.value.rejectedReason == "") <==> ReadableEntry(payload, ints)
  {
    DeclarationReads(payload, ints);
  }

  /** Whatever is read is a directive its own constructor accepts, of this run and for the named order. */
  lemma ParsedIsWellFormed(payload: Payload, runId: int, ints: IntReader)
    requires var r := ParseDirective(payload, runId, ints); r.Good? && r.value.Some?
    ensures var d := ParseDirective(payload, runId, ints).value.value;
            d.WellFormed() && d.issuedByRunId == runId && d.orderId == TextOf(payload, "order_id")
            && |d.note| <= MAX_NOTE_CHARACTERS && d.repricedTimes == 0
  {
    DeclarationReads(payload, ints);
  }

  /** An entry that was not read as written leaves its order alone at every price and time, and asks for no watching. */
  lemma DowngradedNeverActs(payload: Payload, runId: int, ints: IntReader, price: Option<Num>, moment: Time)
    requires var r := ParseDirective(payload, runId, ints);
             r.Good? && r.value.Some? && r.value.value.rejectedReason != ""
    ensures var d := ParseDirective(payload, runId, ints).value.value;
            SettleOne(d, price, moment).kind.Hold? && !d.NeedsWatching() && d.action.HoldOrder?
  {
    DeclarationReads(payload, ints);
  }

  /** A field holds this price. */
  predicate Says(payload: Payload, key: string, price: Num) {
    PriceFrom(Field(payload, key)) == Good(Some(price))
  }

  /** The entry holds this clock time. */
  predicate SaysTime(payload: Payload, hour: int, minute: int, ints: IntReader) {
    var value := Field(payload, "cancel_if_unfilled_after");
    value.Str? && Spelt(value.s, ints) == Some((hour, minute)) && IsTimeOfDay(hour, minute)
  }

  /** The entry itself declares the condition under which the pass acts. */
  ghost predicate DeclaresIt(payload: Payload, ints: IntReader, price: Option<Num>, moment: Time, s: Settlement) {
    match TextOf(payload, "action")
    case "cancel" => s.kind.Cancel?
    case "hold" =>
      && s.kind.Cancel?
      && (|| (price.Some? && exists line :: Says(payload, "cancel_if_price_above", line) && Above(price.value, line))
          || (price.Some? && exists line :: Says(payload, "cancel_if_price_below", line) && Above(line, price.value))
          || exists hour, minute :: SaysTime(payload, hour, minute, ints) && moment >= TimeOfDay(hour, minute))
    case "reprice" =>
      && s.kind.Reprice? && price.Some? && Field(payload, "reprice").Obj? && s.newPrice.Some?
      && Says(Field(payload, "reprice").fields, "new_price", s.newPrice.value)
      && (|| (exists line :: Says(Field(payload, "reprice").fields, "when_price_above", line) && Above(price.value, line))
          || (exists line :: Says(Field(payload, "reprice").fields, "when_price_below", line) && Above(line, price.value)))
    case _ => false
  }

  /** Whatever the pass does to an order, the entry as written said so. */
  lemma AuthorityIsDeclared(payload: Payload, runId: int, ints: IntReader, price: Option<Num>, moment: Time)
    requires var r := ParseDirective(payload, runId, ints); r.Good? && r.value.Some?
    requires Acts(SettleOne(ParseDirective(payload, runId, ints).value.value, price, moment))
    ensures DeclaresIt(payload, ints, price, moment,
                       SettleOne(ParseDirective(payload, runId, ints).value.value, price, moment))
  {
    DeclarationReads(payload, ints);
    var d := ParseDirective(payload, runId, ints).value.value;
    ReasonIsDeclared(payload, DeclarationFrom(payload, ints).value, ints);
  }

  lemma ReasonIsDeclared(payload: Payload, d: Declaration, ints: IntReader)
    requires DeclarationFrom(payload, ints) == Good(d)
    ensures d.conditions.above.Some? ==> Says(payload, "cancel_if_price_above", d.conditions.above.value)
    ensures d.conditions.below.Some? ==> Says(payload, "cancel_if_price_below", d.conditions.below.value)
    ensures d.conditions.after.Some? ==>
              exists hour, minute ::
                SaysTime(payload, hour, minute, ints) && d.conditions.after == Some(TimeOfDay(hour, minute))
    ensures ActionFrom(TextOf(payload, "action")) == Some(d.action)
    ensures d.plan.Some? ==>
              && Field(payload, "reprice").Obj?
              && var raw := Field(payload, "reprice").fields;
              && Says(raw, "new_price", d.plan.value.newPrice)
              && (d.plan.value.whenPriceAbove.Some? ==> Says(raw, "when_price_above", d.plan.value.whenPriceAbove.value))
              && (d.plan.value.whenPriceBelow.Some? ==> Says(raw, "when_price_below", d.plan.value.whenPriceBelow.value))
  {
    ConditionsAreSaid(payload, d.conditions, ints);
    if d.plan.Some? {
      PlanIsSaid(Field(payload, "reprice"), d.plan.value);
    }
  }

  lemma ConditionsAreSaid(payload: Payload, c: Conditions, ints: IntReader)
    requires ConditionsFrom(payload, ints) == Good(c)
    ensures c.above.Some? ==> Says(payload, "cancel_if_price_above", c.above.value)
    ensures c.below.Some? ==> Says(payload, "cancel_if_price_below", c.below.value)
    ensures c.after.Some? ==>
              exists hour, minute :: SaysTime(payload, hour, minute, ints) && c.after == Some(TimeOfDay(hour, minute))
  {
  }

  lemma PlanIsSaid(value: Value, plan: RepricePlan)
    requires PlanFrom(value) == Good(plan)
    ensures value.Obj? && Says(value.fields, "new_price", plan.newPrice)
    ensures plan.whenPriceAbove.Some? ==> Says(value.fields, "when_price_above", plan.whenPriceAbove.value)
    ensures plan.whenPriceBelow.Some? ==> Says(value.fields, "when_price_below", plan.whenPriceBelow.value)
  {
  }

  // ---------------------------------------------------------------- what is written is what is kept

  /** The text under this key without the white space around it, empty when there is no text. */
  ghost predicate HasText(payload: Payload, key: string, text: string) {
    if key in payload && payload[key].Str? then TrimmedFrom(text, payload[key].s) else text == ""
  }

  /** The value is a usable price, and it is this one; or it is null, and there is none. */
  predicate IsPrice(value: Value, price: Option<Num>) {
    match value
    case Null => price == None
    case Int(n) => 0 < n < FloatLimit() && price == Some(Fin(n as real))
    case Float(f) => !f.NegInf? && (f.Fin? ==> f.value > 0.0) && price == Some(f)
    case _ => false
  }

  /** The text spells a time of day: hour, colon, minute. */
  ghost predicate SpellsTime(text: string, time: Time, ints: IntReader) {
    exists i, hour, minute ::
      TimeAround(text, i, hour, minute, ints) && time == hour * 3_600_000_000 + minute * 60_000_000
  }

  /** The first colon is at i, and an hour and a minute stand around it. */
  predicate TimeAround(text: string, i: int, hour: int, minute: int, ints: IntReader) {
    && 0 <= i < |text| && text[i] == ':' && ':' !in text[..i]
    && ints(text[..i]) == Some(hour) && ints(text[i + 1..]) == Some(minute)
    && 0 <= hour < 24 && 0 <= minute < 60
  }

  /** The value is a clock time, and it is this one; or it is null, and there is none. */
  ghost predicate IsClock(value: Value, time: Option<Time>, ints: IntReader) {
    match value
    case Null => time == None
    case Str(s) => time.Some? && exists text :: TrimmedFrom(text, s) && SpellsTime(text, time.value, ints)
    case _ => false
  }

  predicate HasPrice(payload: Payload, key: string, price: Option<Num>) {
    IsPrice(if key in payload then payload[key] else Null, price)
  }

  ghost predicate HasClock(payload: Payload, key: string, time: Option<Time>, ints: IntReader) {
    IsClock(if key in payload then payload[key] else Null, time, ints)
  }

  predicate IsAction(text: string, action: Action) {
    match action
    case CancelOrder => text == "cancel"
    case HoldOrder => text == "hold"
    case RepriceOrder => text == "reprice"
  }

  /** The object holds this plan, with a new price, a number of times, and at least one trigger. */
  predicate HasPlan(payload: Payload, plan: RepricePlan) {
    && "reprice" in payload && payload["reprice"].Obj?
    && var raw := payload["reprice"].fields;
    && HasPrice(raw, "new_price", Some(plan.newPrice))
    && (if "max_times" in raw then raw["max_times"] == Int(plan.maxTimes) else plan.maxTimes == 1) && plan.maxTimes >= 1
    && HasPrice(raw, "when_price_above", plan.whenPriceAbove) && HasPrice(raw, "when_price_below", plan.whenPriceBelow)
    && (plan.whenPriceAbove.Some? || plan.whenPriceBelow.Some?)
  }

  /** Whom the directive is for, and its note, of which the first 500 characters are kept. */
  ghost predicate HasNames(payload: Payload, d: OrderDirective, runId: int) {
    && HasText(payload, "order_id", d.orderId) && HasText(payload, "symbol", d.symbol)
    && HasText(payload, "stock_name", d.stockName) && d.issuedByRunId == runId && d.repricedTimes == 0
    && exists note :: HasText(payload, "note", note) && d.note == if |note| <= 500 then note else note[..500]
  }

  /** The directive is what the entry says, field by field. */
  ghost predicate WrittenAs(payload: Payload, d: OrderDirective, runId: int, ints: IntReader) {
    && HasNames(payload, d, runId) && d.rejectedReason == ""
    && (exists text :: HasText(payload, "action", text) && IsAction(text, d.action))
    && HasPrice(payload, "cancel_if_price_above", d.cancelIfPriceAbove)
    && HasPrice(payload, "cancel_if_price_below", d.cancelIfPriceBelow)
    && HasClock(payload, "cancel_if_unfilled_after", d.cancelIfUnfilledAfter, ints)
    && (if d.action.RepriceOrder? then d.reprice.Some? && HasPlan(payload, d.reprice.value) else d.reprice == None)
  }

  /** The directive is a bare HOLD for the entry's order, with the reason why. */
  ghost predicate HeldFor(payload: Payload, d: OrderDirective, runId: int) {
    && HasNames(payload, d, runId) && d.rejectedReason != "" && d.action.HoldOrder? && d.reprice == None
    && d.cancelIfPriceAbove == None && d.cancelIfPriceBelow == None && d.cancelIfUnfilledAfter == None
  }

  /** What an entry comes to: itself when all of it can be read, a bare HOLD otherwise. */
  ghost predicate ComesTo(payload: Payload, d: OrderDirective, runId: int, ints: IntReader) {
    || WrittenAs(payload, d, runId, ints)
    || (HeldFor(payload, d, runId) && forall x :: !WrittenAs(payload, x, runId, ints))
  }

  lemma TextIsThere(payload: Payload, key: string)
    ensures HasText(payload, key, TextOf(payload, key))
  {
    if key in payload && payload[key].Str? {
      StripIsMiddle(payload[key].s);
    }
  }

  lemma TextIsOne(payload: Payload, key: string, text: string)
    requires HasText(payload, key, text)
    ensures text == TextOf(payload, key)
  {
    TextIsThere(payload, key);
    if key in payload && payload[key].Str? {
      TrimmedOnce(payload[key].s, text, TextOf(payload, key));
    }
  }

  lemma PriceIsWritten(value: Value, price: Option<Num>)
    ensures IsPrice(value, price) <==> PriceFrom(value) == Good(price)
  {
    LimitIsPositive();
  }

  lemma ClockIsWritten(value: Value, time: Option<Time>, ints: IntReader)
    ensures IsClock(value, time, ints) <==> ClockFrom(value, ints) == Good(time)
  {
    if value.Str? {
      StripIsMiddle(value.s);
      if ClockFrom(value, ints) == Good(time) {
        TimeIsSpelt(Strip(value.s), value.s, time, ints);
      }
      if IsClock(value, time, ints) {
        var text :| TrimmedFrom(text, value.s) && SpellsTime(text, time.value, ints);
        TrimmedOnce(value.s, text, Strip(value.s));
        SpeltTimeIsRead(value.s, time.value, ints);
      }
    }
  }

  lemma TimeIsSpelt(text: string, s: string, time: Option<Time>, ints: IntReader)
    requires text == Strip(s) && ClockFrom(Str(s), ints) == Good(time)
    ensures time.Some? && SpellsTime(text, time.value, ints)
  {
    var i := ColonAt(text);
    assert TimeAround(text, i, Spelt(s, ints).value.0, Spelt(s, ints).value.1, ints);
  }

  lemma SpeltTimeIsRead(s: string, time: Time, ints: IntReader)
    requires SpellsTime(Strip(s), time, ints)
    ensures ClockFrom(Str(s), ints) == Good(Some(time))
  {
    var i, hour, minute :|
      TimeAround(Strip(s), i, hour, minute, ints) && time == hour * 3_600_000_000 + minute * 60_000_000;
    ReadAround(s, i, hour, minute, ints);
  }

  lemma ReadAround(s: string, i: int, hour: int, minute: int, ints: IntReader)
    requires TimeAround(Strip(s), i, hour, minute, ints)
    ensures Spelt(s, ints) == Some((hour, minute))
  {
    FirstColon(Strip(s), i);
  }

  lemma FirstColon(text: string, i: nat)
    requires i < |text| && text[i] == ':' && ':' !in text[..i]
    ensures ColonAt(text) == i
  {
    forall n | 0 <= n < i ensures text[n] != ':' {
      assert text[..i][n] == text[n];
    }
  }

  lemma PlanIsWritten(payload: Payload, plan: RepricePlan)
    ensures HasPlan(payload, plan) <==> PlanFrom(Field(payload, "reprice")) == Good(plan)
  {
    var value := Field(payload, "reprice");
    if value.Obj? {
      PriceIsWritten(Field(value.fields, "new_price"), Some(plan.newPrice));
      PriceIsWritten(Field(value.fields, "when_price_above"), plan.whenPriceAbove);
      PriceIsWritten(Field(value.fields, "when_price_below"), plan.whenPriceBelow);
      PriceReads(Field(value.fields, "new_price"));
    }
  }

  lemma ActionIsWritten(payload: Payload, action: Action)
    ensures (exists text :: HasText(payload, "action", text) && IsAction(text, action))
       <==> ActionFrom(TextOf(payload, "action")) == Some(action)
  {
    TextIsThere(payload, "action");
    if text :| HasText(payload, "action", text) && IsAction(text, action) {
      TextIsOne(payload, "action", text);
    }
  }

  lemma NamesAreThere(payload: Payload, runId: int, d: OrderDirective)
    requires d.orderId == TextOf(payload, "order_id") && d.symbol == TextOf(payload, "symbol")
    requires d.stockName == TextOf(payload, "stock_name") && d.note == Note(TextOf(payload, "note"))
    requires d.issuedByRunId == runId && d.repricedTimes == 0
    ensures HasNames(payload, d, runId)
  {
    TextIsThere(payload, "order_id");
    TextIsThere(payload, "symbol");
    TextIsThere(payload, "stock_name");
    TextIsThere(payload, "note");
  }

  /** What an entry declares is exactly what is written in it. */
  lemma DeclarationIsWritten(payload: Payload, ints: IntReader, action: Action, plan: Option<RepricePlan>,
                             c: Conditions)
    ensures DeclarationFrom(payload, ints) == Good(Declaration(action, plan, c)) <==>
              && (exists text :: HasText(payload, "action", text) && IsAction(text, action))
              && HasPrice(payload, "cancel_if_price_above", c.above)
              && HasPrice(payload, "cancel_if_price_below", c.below)
              && HasClock(payload, "cancel_if_unfilled_after", c.after, ints)
              && (if action.RepriceOrder? then plan.Some? && HasPlan(payload, plan.value) else plan == None)
  {
    ActionIsWritten(payload, action);
    PriceIsWritten(Field(payload, "cancel_if_price_above"), c.above);
    PriceIsWritten(Field(payload, "cancel_if_price_below"), c.below);
    ClockIsWritten(Field(payload, "cancel_if_unfilled_after"), c.after, ints);
    if plan.Some? {
      PlanIsWritten(payload, plan.value);
    }
  }

  /** Of an entry that cannot be read no directive says what is written there. */
  lemma UnreadableIsUnwritten(payload: Payload, runId: int, ints: IntReader)
    requires !DeclarationFrom(payload, ints).Good?
    ensures forall x :: !WrittenAs(payload, x, runId, ints)
  {
    forall x ensures !WrittenAs(payload, x, runId, ints) {
      DeclarationIsWritten(payload, ints, x.action, x.reprice,
                           Conditions(x.cancelIfPriceAbove, x.cancelIfPriceBelow, x.cancelIfUnfilledAfter));
    }
  }

  /** An entry is kept as it is written, or held when it cannot be read. */
  lemma EntryIsKept(payload: Payload, runId: int, ints: IntReader)
    requires var r := ParseDirective(payload, runId, ints); r.Good? && r.value.Some?
    ensures ComesTo(payload, ParseDirective(payload, runId, ints).value.value, runId, ints)
  {
    var d := ParseDirective(payload, runId, ints).value.value;
    var read := DeclarationFrom(payload, ints);
    DeclarationReads(payload, ints);
    NamesAreThere(payload, runId, d);
    if read.Good? {
      DeclarationIsWritten(payload, ints, read.value.action, read.value.plan, read.value.conditions);
    } else {
      UnreadableIsUnwritten(payload, runId, ints);
    }
  }

  // ---------------------------------------------------------------- the error that escapes

  predicate Huge(value: Value) {
    value.Int? && value.n >= FloatLimit()
  }

  lemma {:induction false} Pow2Grows(m: nat, n: nat)
    requires m < n
    ensures 0 < Pow2(m) < Pow2(n)
    decreases n
  {
    if m == 0 {
      if n > 1 {
        Pow2Grows(0, n - 1);
      }
    } else {
      Pow2Grows(m - 1, n - 1);
    }
  }

  /** A clock text whose hour or minute is no C integer. */
  predicate ClockOverflows(value: Value, ints: IntReader) {
    value.Str? && Spelt(value.s, ints).Some?
    && (!FitsCInt(Spelt(value.s, ints).value.0) || !FitsCInt(Spelt(value.s, ints).value.1))
  }

  /** Reading the conditions fails with the error that nothing catches. */
  predicate ConditionsOverflow(payload: Payload, ints: IntReader) {
    || Huge(Field(payload, "cancel_if_price_above"))
    || (Readable(Field(payload, "cancel_if_price_above")) && Huge(Field(payload, "cancel_if_price_below")))
    || (Readable(Field(payload, "cancel_if_price_above")) && Readable(Field(payload, "cancel_if_price_below"))
        && ClockOverflows(Field(payload, "cancel_if_unfilled_after"), ints))
  }

  predicate PlanOverflows(raw: Payload) {
    || Huge(Field(raw, "new_price"))
    || (Readable(Field(raw, "new_price")) && !Field(raw, "new_price").Null? && MaxTimesFrom(raw).Good?
        && (|| Huge(Field(raw, "when_price_above"))
            || (Readable(Field(raw, "when_price_above")) && Huge(Field(raw, "when_price_below")))))
  }

  predicate Overflows(payload: Payload, ints: IntReader) {
    var action := ActionFrom(TextOf(payload, "action"));
    && action.Some?
    && if !action.value.RepriceOrder? then ConditionsOverflow(payload, ints)
       else
         && Field(payload, "reprice").Obj?
         && (|| PlanOverflows(Field(payload, "reprice").fields)
             || (ReadablePlan(Field(payload, "reprice")) && ConditionsOverflow(payload, ints)))
  }

  /** An entry with a number too large to be converted is not downgraded: its error escapes the parser. */
  predicate Escapes(payload: Payload, ints: IntReader) {
    TextOf(payload, "order_id") != "" && Overflows(payload, ints)
  }

  lemma LimitIsPositive()
    ensures FloatLimit() > 0
  {
    Pow2Grows(970, 1024);
  }

  lemma EscapesExactly(payload: Payload, runId: int, ints: IntReader)
    ensures ParseDirective(payload, runId, ints).TooLarge? <==> Escapes(payload, ints)
  {
    DeclarationReads(payload, ints);
  }

  /** A bare HOLD for an order, with one condition. */
  function HoldEntry(orderId: string, key: string, value: Value): Payload {
    map["order_id" := Str(orderId), "action" := Str("hold"), key := value]
  }

  lemma HoldEntryHolds(orderId: string, key: string, value: Value)
    requires Strip(orderId) != "" && key != "order_id" && key != "action"
    ensures TextOf(HoldEntry(orderId, key, value), "order_id") != ""
    ensures ActionFrom(TextOf(HoldEntry(orderId, key, value), "action")) == Some(HoldOrder)
  {
    StripTrims("hold");
  }

  /** A price as large as the limit escapes, whatever order it is for. */
  lemma LargePriceEscapes(orderId: string, ints: IntReader)
    requires Strip(orderId) != ""
    ensures Escapes(HoldEntry(orderId, "cancel_if_price_above", Int(FloatLimit())), ints)
  {
    HoldEntryHolds(orderId, "cancel_if_price_above", Int(FloatLimit()));
  }

  /** So does a clock text with an hour that is no C integer. */
  lemma LargeClockEscapes(orderId: string, text: string, ints: IntReader)
    requires Strip(orderId) != "" && ClockOverflows(Str(text), ints)
    ensures Escapes(HoldEntry(orderId, "cancel_if_unfilled_after", Str(text)), ints)
  {
    HoldEntryHolds(orderId, "cancel_if_unfilled_after", Str(text));
  }

  /** Such a text: a large hour, written as Python reads it, and any minute. */
  lemma LargeHourOverflows(hour: string, minute: string, ints: IntReader)
    requires Trimmed(hour + ":" + minute) && forall i :: 0 <= i < |hour| ==> hour[i] != ':'
    requires ints(hour).Some? && ints(minute).Some? && ints(hour).value > 0x7FFF_FFFF
    ensures ClockOverflows(Str(hour + ":" + minute), ints)
  {
    var text := hour + ":" + minute;
    StripTrims(text);
    assert text[|hour|] == ':' && forall i :: 0 <= i < |hour| ==> text[i] == hour[i];
    assert ColonAt(text) == |hour|;
    assert text[..|hour|] == hour && text[|hour| + 1..] == minute;
  }

  // ---------------------------------------------------------------- a whole list

  datatype Entry = NotAnObject | Object(payload: Payload)

  /** An insertion-ordered dictionary by order id: a later entry takes the place of an earlier one. */
  function Filed(ds: seq<OrderDirective>, d: OrderDirective): seq<OrderDirective> {
    if ds == [] then [d]
    else if ds[0].orderId == d.orderId then [d] + ds[1..]
    else [ds[0]] + Filed(ds[1..], d)
  }

  function DirectiveFor(ds: seq<OrderDirective>, id: string): Option<OrderDirective> {
    if ds == [] then None else if ds[0].orderId == id then Some(ds[0]) else DirectiveFor(ds[1..], id)
  }

  /** An order keeps the place of its first directive, and a new one comes last. */
  lemma {:induction false} FiledKeepsPlaces(ds: seq<OrderDirective>, d: OrderDirective)
    ensures IdsOf(Filed(ds, d)) == if d.orderId in IdsOf(ds) then IdsOf(ds) else IdsOf(ds) + [d.orderId]
  {
    if ds == [] {
      assert IdsOf([d]) == [d.orderId];
    } else {
      assert IdsOf(ds) == [ds[0].orderId] + IdsOf(ds[1..]);
      if ds[0].orderId == d.orderId {
        assert IdsOf([d] + ds[1..]) == [d.orderId] + IdsOf(ds[1..]);
      } else {
        FiledKeepsPlaces(ds[1..], d);
        assert IdsOf(Filed(ds, d)) == [ds[0].orderId] + IdsOf(Filed(ds[1..], d));
      }
    }
  }

  lemma {:induction false} FiledIs(ds: seq<OrderDirective>, d: OrderDirective, id: string)
    ensures DirectiveFor(Filed(ds, d), id) == if id == d.orderId then Some(d) else DirectiveFor(ds, id)
    ensures id in IdsOf(Filed(ds, d)) <==> id in IdsOf(ds) || id == d.orderId
  {
    if ds != [] && ds[0].orderId != d.orderId {
      FiledIs(ds[1..], d, id);
    }
    FiledKeepsPlaces(ds, d);
  }

  lemma UniqueHead(a: string, rest: seq<string>)
    ensures Unique([a] + rest) <==> Unique(rest) && a !in rest
  {
    var ids := [a] + rest;
    if Unique(ids) {
      forall i, j | 0 <= i < j < |rest| ensures rest[i] != rest[j] {
        assert ids[i + 1] != ids[j + 1];
      }
      forall j | 0 <= j < |rest| ensures rest[j] != a {
        assert ids[0] != ids[j + 1];
      }
    }
  }

  lemma {:induction false} FiledKeepsUnique(ds: seq<OrderDirective>, d: OrderDirective)
    requires Unique(IdsOf(ds))
    ensures Unique(IdsOf(Filed(ds, d)))
  {
    if ds == [] {
    } else if ds[0].orderId == d.orderId {
      assert IdsOf([d] + ds[1..]) == IdsOf(ds);
    } else {
      assert IdsOf(ds) == [ds[0].orderId] + IdsOf(ds[1..]);
      assert IdsOf(Filed(ds, d)) == [ds[0].orderId] + IdsOf(Filed(ds[1..], d));
      UniqueHead(ds[0].orderId, IdsOf(ds[1..]));
      FiledKeepsUnique(ds[1..], d);
      FiledIs(ds[1..], d, ds[0].orderId);
      UniqueHead(ds[0].orderId, IdsOf(Filed(ds[1..], d)));
    }
  }

  /** What an entry files, if anything. */
  function FiledBy(e: Entry, runId: int, ints: IntReader): Option<OrderDirective> {
    if e.Object? && ParseDirective(e.payload, runId, ints).Good? then ParseDirective(e.payload, runId, ints).value
    else None
  }

  predicate EntryEscapes(e: Entry, ints: IntReader) {
    e.Object? && Escapes(e.payload, ints)
  }

  function Escaping(ints: IntReader): Entry -> bool {
    e => EntryEscapes(e, ints)
  }

  function FiledAll(entries: seq<Entry>, runId: int, ints: IntReader): (filed: seq<Option<OrderDirective>>)
    ensures |filed| == |entries|
  {
    seq(|entries|, i requires 0 <= i < |entries| => FiledBy(entries[i], runId, ints))
  }

  predicate IsFor(filed: Option<OrderDirective>, id: string) {
    filed.Some? && filed.value.orderId == id
  }

  function LastFor(filed: seq<Option<OrderDirective>>, id: string): Option<OrderDirective> {
    if filed == [] then None
    else if IsFor(filed[|filed| - 1], id) then filed[|filed| - 1]
    else LastFor(filed[..|filed| - 1], id)
  }

  /** The places where nothing was filed. */
  function Unfiled(filed: seq<Option<OrderDirective>>): set<int> {
    set i | 0 <= i < |filed| && filed[i].None?
  }

  /** The last entry of the list that speaks about an order. */
  function LastWord(entries: seq<Entry>, runId: int, ints: IntReader, id: string): Option<OrderDirective> {
    LastFor(FiledAll(entries, runId, ints), id)
  }

  /** How many entries could not be filed. */
  function Unfilable(entries: seq<Entry>, runId: int, ints: IntReader): nat {
    |Unfiled(FiledAll(entries, runId, ints))|
  }

  lemma FiledMore(entries: seq<Entry>, i: nat, runId: int, ints: IntReader)
    requires i < |entries|
    ensures FiledAll(entries[..i + 1], runId, ints)
         == FiledAll(entries[..i], runId, ints) + [FiledBy(entries[i], runId, ints)]
  {
  }

  lemma LastForMore(filed: seq<Option<OrderDirective>>, d: Option<OrderDirective>, id: string)
    ensures LastFor(filed + [d], id) == if IsFor(d, id) then d else LastFor(filed, id)
    ensures |Unfiled(filed + [d])| == |Unfiled(filed)| + if d.None? then 1 else 0
  {
    assert (filed + [d])[..|filed|] == filed;
    assert Unfiled(filed + [d]) == Unfiled(filed) + if d.None? then {|filed|} else {};
  }

  lemma WordMore(entries: seq<Entry>, i: nat, runId: int, ints: IntReader, id: string)
    requires i < |entries|
    ensures LastWord(entries[..i + 1], runId, ints, id)
         == var d := FiledBy(entries[i], runId, ints);
            if IsFor(d, id) then d else LastWord(entries[..i], runId, ints, id)
    ensures Unfilable(entries[..i + 1], runId, ints)
         == Unfilable(entries[..i], runId, ints) + if FiledBy(entries[i], runId, ints).None? then 1 else 0
  {
    FiledMore(entries, i, runId, ints);
    LastForMore(FiledAll(entries[..i], runId, ints), FiledBy(entries[i], runId, ints), id);
  }

  /** The directives are the last word of the entries on every order. */
  ghost predicate LastWords(ds: seq<OrderDirective>, entries: seq<Entry>, runId: int, ints: IntReader) {
    Unique(IdsOf(ds)) && forall id :: DirectiveFor(ds, id) == LastWord(entries, runId, ints, id)
  }

  lemma OneMoreEntry(ds: seq<OrderDirective>, entries: seq<Entry>, i: nat, runId: int, ints: IntReader)
    requires i < |entries| && LastWords(ds, entries[..i], runId, ints)
    ensures var d := FiledBy(entries[i], runId, ints);
            LastWords(if d.Some? then Filed(ds, d.value) else ds, entries[..i + 1], runId, ints)
  {
    var d := FiledBy(entries[i], runId, ints);
    var more := if d.Some? then Filed(ds, d.value) else ds;
    if d.Some? {
      FiledKeepsUnique(ds, d.value);
    }
    forall id ensures DirectiveFor(more, id) == LastWord(entries[..i + 1], runId, ints, id) {
      WordMore(entries, i, runId, ints, id);
      if d.Some? {
        FiledIs(ds, d.value, id);
      }
    }
  }

  predicate NoneOf<T>(items: seq<T>, p: T -> bool) {
    items == [] || (NoneOf(items[..|items| - 1], p) && !p(items[|items| - 1]))
  }

  lemma {:induction false} NoneOfIs<T>(items: seq<T>, p: T -> bool)
    ensures NoneOf(items, p) <==> forall i :: 0 <= i < |items| ==> !p(items[i])
  {
    if items != [] {
      var n := |items| - 1;
      NoneOfIs(items[..n], p);
      assert forall i :: 0 <= i < n ==> items[..n][i] == items[i];
    }
  }

  // ---------------------------------------------------------------- the list, in terms of its entries

  /** The entry is an object that names this order. */
  ghost predicate NamesOrder(e: Entry, id: string) {
    e.Object? && id != "" && HasText(e.payload, "order_id", id)
  }

  ghost predicate Filable(e: Entry) {
    exists id :: NamesOrder(e, id)
  }

  /** The directive is what the i-th entry comes to, and no later entry names its order. */
  ghost predicate IsLastWord(entries: seq<Entry>, i: nat, d: OrderDirective, runId: int, ints: IntReader)
    requires i < |entries|
  {
    && NamesOrder(entries[i], d.orderId) && ComesTo(entries[i].payload, d, runId, ints)
    && forall j :: i < j < |entries| ==> !NamesOrder(entries[j], d.orderId)
  }

  /** The entries that name no order. */
  ghost function Unnamed(entries: seq<Entry>): set<int> {
    set i | 0 <= i < |entries| && !Filable(entries[i])
  }

  /** The last entry that names the directive's order comes to it. */
  ghost predicate IsKeptLast(entries: seq<Entry>, d: OrderDirective, runId: int, ints: IntReader) {
    exists i :: 0 <= i < |entries| && IsLastWord(entries, i, d, runId, ints)
  }

  ghost predicate EachIsLast(entries: seq<Entry>, ds: seq<OrderDirective>, runId: int, ints: IntReader) {
    forall k :: 0 <= k < |ds| ==> IsKeptLast(entries, ds[k], runId, ints)
  }

  ghost predicate EachHasOne(entries: seq<Entry>, ds: seq<OrderDirective>) {
    forall i, id :: 0 <= i < |entries| && NamesOrder(entries[i], id) ==>
      exists k :: 0 <= k < |ds| && ds[k].orderId == id
  }

  /** One directive for every order named, the last word on it, and a problem for every entry that names none. */
  ghost predicate KeptFrom(entries: seq<Entry>, ds: seq<OrderDirective>, problems: nat, runId: int, ints: IntReader) {
    && EachIsLast(entries, ds, runId, ints) && EachHasOne(entries, ds)
    && (forall j, k :: 0 <= j < k < |ds| ==> ds[j].orderId != ds[k].orderId)
    && problems == |Unnamed(entries)|
  }

  predicate IsLastFor(filed: seq<Option<OrderDirective>>, i: nat, id: string)
    requires i < |filed|
  {
    IsFor(filed[i], id) && forall j :: i < j < |filed| ==> !IsFor(filed[j], id)
  }

  lemma {:induction false} LastForIs(filed: seq<Option<OrderDirective>>, id: string)
    ensures var d := LastFor(filed, id);
            && (d.Some? ==> exists i :: 0 <= i < |filed| && filed[i] == d && IsLastFor(filed, i, id))
            && (d.None? ==> forall i :: 0 <= i < |filed| ==> !IsFor(filed[i], id))
  {
    if filed != [] {
      var n := |filed| - 1;
      if IsFor(filed[n], id) {
        assert IsLastFor(filed, n, id);
      } else {
        LastForIs(filed[..n], id);
        if LastFor(filed, id).Some? {
          var i :| 0 <= i < n && filed[..n][i] == LastFor(filed, id) && IsLastFor(filed[..n], i, id);
          LastForLater(filed, i, id);
        }
      }
    }
  }

  lemma LastForLater(filed: seq<Option<OrderDirective>>, i: nat, id: string)
    requires i < |filed| - 1 && IsLastFor(filed[..|filed| - 1], i, id) && !IsFor(filed[|filed| - 1], id)
    ensures IsLastFor(filed, i, id)
  {
    forall j | i < j < |filed| - 1 ensures !IsFor(filed[j], id) {
      assert filed[j] == filed[..|filed| - 1][j];
    }
  }

  /** What the i-th entry files, in its own terms. */
  ghost predicate Files(e: Entry, filed: Option<OrderDirective>, runId: int, ints: IntReader) {
    && (filed.Some? ==> NamesOrder(e, filed.value.orderId) && ComesTo(e.payload, filed.value, runId, ints))
    && forall id :: NamesOrder(e, id) ==> IsFor(filed, id)
  }

  ghost predicate AllFile(entries: seq<Entry>, filed: seq<Option<OrderDirective>>, runId: int, ints: IntReader) {
    |filed| == |entries|
    && forall i {:trigger Files(entries[i], filed[i], runId, ints)} :: 0 <= i < |entries| ==>
         Files(entries[i], filed[i], runId, ints)
  }

  lemma NamedOnce(payload: Payload, id: string)
    ensures HasText(payload, "order_id", id) <==> id == TextOf(payload, "order_id")
  {
    TextIsThere(payload, "order_id");
    if HasText(payload, "order_id", id) {
      TextIsOne(payload, "order_id", id);
    }
  }

  lemma FiledForItsOrder(payload: Payload, runId: int, ints: IntReader)
    requires !ParseDirective(payload, runId, ints).TooLarge?
    ensures var filed, id := FiledBy(Object(payload), runId, ints), TextOf(payload, "order_id");
            (filed.Some? <==> id != "") && (filed.Some? ==> filed.value.orderId == id)
  {
    DeclarationReads(payload, ints);
  }

  lemma FilesWhatItSays(e: Entry, runId: int, ints: IntReader)
    requires !EntryEscapes(e, ints)
    ensures Files(e, FiledBy(e, runId, ints), runId, ints)
  {
    if e.Object? {
      EscapesExactly(e.payload, runId, ints);
      FiledForItsOrder(e.payload, runId, ints);
      forall id ensures HasText(e.payload, "order_id", id) <==> id == TextOf(e.payload, "order_id") {
        NamedOnce(e.payload, id);
      }
      if FiledBy(e, runId, ints).Some? {
        EntryIsKept(e.payload, runId, ints);
      }
    }
  }

  lemma {:induction false} DirectiveIsFor(ds: seq<OrderDirective>, k: nat)
    requires k < |ds| && Unique(IdsOf(ds))
    ensures DirectiveFor(ds, ds[k].orderId) == Some(ds[k])
  {
    if k > 0 {
      assert IdsOf(ds)[0] != IdsOf(ds)[k];
      UniqueHead(ds[0].orderId, IdsOf(ds[1..]));
      assert IdsOf(ds) == [ds[0].orderId] + IdsOf(ds[1..]);
      DirectiveIsFor(ds[1..], k - 1);
    }
  }

  lemma {:induction false} DirectiveIsThere(ds: seq<OrderDirective>, id: string)
    ensures DirectiveFor(ds, id).Some? ==> exists k :: 0 <= k < |ds| && ds[k].orderId == id
  {
    if ds != [] && ds[0].orderId != id {
      DirectiveIsThere(ds[1..], id);
      if DirectiveFor(ds, id).Some? {
        var k :| 0 <= k < |ds[1..]| && ds[1..][k].orderId == id;
        assert ds[k + 1].orderId == id;
      }
    }
  }

  lemma WordIsLast(entries: seq<Entry>, filed: seq<Option<OrderDirective>>, d: OrderDirective, runId: int,
                   ints: IntReader)
    requires AllFile(entries, filed, runId, ints)
    requires LastFor(filed, d.orderId) == Some(d)
    ensures IsKeptLast(entries, d, runId, ints)
  {
    LastForIs(filed, d.orderId);
    var i :| 0 <= i < |filed| && filed[i] == Some(d) && IsLastFor(filed, i, d.orderId);
    assert Files(entries[i], filed[i], runId, ints);
    forall j | i < j < |entries| ensures !NamesOrder(entries[j], d.orderId) {
      assert Files(entries[j], filed[j], runId, ints) && !IsFor(filed[j], d.orderId);
    }
    assert IsLastWord(entries, i, d, runId, ints);
  }

  lemma NamedIsFiled(entries: seq<Entry>, filed: seq<Option<OrderDirective>>, i: nat, id: string, runId: int,
                     ints: IntReader)
    requires i < |entries| == |filed| && Files(entries[i], filed[i], runId, ints) && NamesOrder(entries[i], id)
    ensures LastFor(filed, id).Some?
  {
    LastForIs(filed, id);
    assert IsFor(filed[i], id);
  }

  lemma UnnamedAreUnfiled(entries: seq<Entry>, filed: seq<Option<OrderDirective>>, runId: int, ints: IntReader)
    requires AllFile(entries, filed, runId, ints)
    ensures Unfiled(filed) == Unnamed(entries)
  {
    forall i | 0 <= i < |entries| ensures filed[i].None? <==> !Filable(entries[i]) {
      assert Files(entries[i], filed[i], runId, ints);
    }
  }

  /** Every order that an entry names has a directive. */
  lemma AllNamed(entries: seq<Entry>, filed: seq<Option<OrderDirective>>, ds: seq<OrderDirective>, runId: int,
                 ints: IntReader)
    requires AllFile(entries, filed, runId, ints) && forall id :: DirectiveFor(ds, id) == LastFor(filed, id)
    ensures EachHasOne(entries, ds)
  {
    forall i, id | 0 <= i < |entries| && NamesOrder(entries[i], id)
      ensures exists k :: 0 <= k < |ds| && ds[k].orderId == id
    {
      NamedIsFiled(entries, filed, i, id, runId, ints);
      DirectiveIsThere(ds, id);
    }
  }

  lemma {:induction false} AllLast(entries: seq<Entry>, filed: seq<Option<OrderDirective>>, ds: seq<OrderDirective>,
                                   runId: int, ints: IntReader)
    requires AllFile(entries, filed, runId, ints) && Unique(IdsOf(ds))
    requires forall id :: DirectiveFor(ds, id) == LastFor(filed, id)
    ensures EachIsLast(entries, ds, runId, ints)
  {
    forall k | 0 <= k < |ds| ensures IsKeptLast(entries, ds[k], runId, ints) {
      DirectiveIsFor(ds, k);
      WordIsLast(entries, filed, ds[k], runId, ints);
    }
  }

  lemma {:induction false} IdsDiffer(ds: seq<OrderDirective>)
    requires Unique(IdsOf(ds))
    ensures forall j, k :: 0 <= j < k < |ds| ==> ds[j].orderId != ds[k].orderId
  {
    forall j, k | 0 <= j < k < |ds| ensures ds[j].orderId != ds[k].orderId {
      assert IdsOf(ds)[j] != IdsOf(ds)[k];
    }
  }

  lemma KeptWhenFiled(entries: seq<Entry>, filed: seq<Option<OrderDirective>>, ds: seq<OrderDirective>, runId: int,
                      ints: IntReader)
    requires AllFile(entries, filed, runId, ints) && Unique(IdsOf(ds))
    requires forall id :: DirectiveFor(ds, id) == LastFor(filed, id)
    ensures KeptFrom(entries, ds, |Unfiled(filed)|, runId, ints)
  {
    AllLast(entries, filed, ds, runId, ints);
    IdsDiffer(ds);
    AllNamed(entries, filed, ds, runId, ints);
    UnnamedAreUnfiled(entries, filed, runId, ints);
  }

  lemma AllFileWhatTheySay(entries: seq<Entry>, runId: int, ints: IntReader)
    requires forall i :: 0 <= i < |entries| ==> !EntryEscapes(entries[i], ints)
    ensures AllFile(entries, FiledAll(entries, runId, ints), runId, ints)
  {
    var filed := FiledAll(entries, runId, ints);
    forall i | 0 <= i < |entries| ensures Files(entries[i], filed[i], runId, ints) {
      FilesWhatItSays(entries[i], runId, ints);
    }
  }

  lemma ListIsKept(entries: seq<Entry>, ds: seq<OrderDirective>, runId: int, ints: IntReader)
    requires forall i :: 0 <= i < |entries| ==> !EntryEscapes(entries[i], ints)
    requires LastWords(ds, entries, runId, ints)
    ensures KeptFrom(entries, ds, Unfilable(entries, runId, ints), runId, ints)
  {
    AllFileWhatTheySay(entries, runId, ints);
    KeptWhenFiled(entries, FiledAll(entries, runId, ints), ds, runId, ints);
  }

  /** One entry: what it files, or that its error escapes. */
  method ReadEntry(entry: Entry, runId: int, ints: IntReader) returns (escapes: bool, filed: Option<OrderDirective>)
    ensures escapes <==> EntryEscapes(entry, ints)
    ensures !escapes ==> filed == FiledBy(entry, runId, ints)
  {
    if entry.NotAnObject? {
      return false, None;
    }
    var parsed := ParseDirective(entry.payload, runId, ints);
    EscapesExactly(entry.payload, runId, ints);
    if parsed.TooLarge? {
      return true, None;
    }
    ParsedIsNeverBad(entry.payload, runId, ints);
    return false, parsed.value;
  }

  /**
   * Parsing a whole list gives every order at most one directive, the last one said about it, and counts what could
   * not be filed. It raises exactly when the error of some entry escapes.
   */
  method ParseDirectives(entries: seq<Entry>, runId: int, ints: IntReader)
    returns (raised: bool, directives: seq<OrderDirective>, problems: nat)
    ensures raised <==> exists i :: 0 <= i < |entries| && EntryEscapes(entries[i], ints)
    ensures !raised ==> Unique(IdsOf(directives)) && problems == Unfilable(entries, runId, ints)
    ensures !raised ==> forall id :: DirectiveFor(directives, id) == LastWord(entries, runId, ints, id)
    ensures !raised ==> KeptFrom(entries, directives, problems, runId, ints)
  {
    directives, problems := [], 0;
    var i := 0;
    while i < |entries|
      invariant i <= |entries| && LastWords(directives, entries[..i], runId, ints)
      invariant problems == Unfilable(entries[..i], runId, ints)
      invariant NoneOf(entries[..i], Escaping(ints))
    {
      assert entries[..i + 1][..i] == entries[..i];
      OneMoreEntry(directives, entries, i, runId, ints);
      WordMore(entries, i, runId, ints, "");
      var escapes, filed := ReadEntry(entries[i], runId, ints);
      if escapes {
        NoneOfIs(entries, Escaping(ints));
        return true, [], 0;
      }
      if filed.None? {
        problems := problems + 1;
      } else {
        directives := Filed(directives, filed.value);
      }
      i := i + 1;
    }
    assert entries[..i] == entries;
    NoneOfIs(entries, Escaping(ints));
    ListIsKept(entries, directives, runId, ints);
    raised := false;
  }

  lemma ParsedIsNeverBad(payload: Payload, runId: int, ints: IntReader)
    ensures !ParseDirective(payload, runId, ints).Bad?
  {
  }
}
