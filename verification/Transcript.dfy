/** Chat messages, compaction summaries, the journal of a session and its projection. */
module Transcript {
  import opened Text

  datatype Role = System | User | Assistant | Tool

  /** `arguments` is the JSON text of the call's arguments. */
  datatype ToolCall = ToolCall(id: string, name: string, arguments: string)

  /** `callId` is used by tool messages, `calls` by assistant messages; `marked` is the trusted checkpoint marker. */
  datatype Message = Message(role: Role, content: Option<string>, calls: seq<ToolCall>, callId: string, marked: bool)

  datatype Cause = Proactive | ProviderOverflow

  datatype Mutation =
    | Appended(message: Message)
    | Checkpoint(summary: string, retained: seq<Message>, originalTokens: nat, compactedTokens: nat,
                 summarizedCount: nat, cause: Cause)

  // ---------------------------------------------------------------- compaction summaries

  // The envelope around a summary. Nothing here depends on its wording, so the two texts are left
  // open; the program's own are the constants in backend/agent/contracts.py.
  const SUMMARY_PREFIX: string
  const SUMMARY_SUFFIX: string

  function SummaryMessage(summary: string): Message {
    Message(User, Some(SUMMARY_PREFIX + summary + SUMMARY_SUFFIX), [], "", true)
  }

  predicate EndsWith(s: string, suffix: string) {
    |suffix| <= |s| && s[|s| - |suffix|..] == suffix
  }

  predicate IsSummary(m: Message) {
    && m.marked && m.role == User && m.content.Some?
    && SUMMARY_PREFIX <= m.content.value && EndsWith(m.content.value, SUMMARY_SUFFIX)
  }

  /** Python's slice `[len(prefix):-len(suffix)]`, empty when the two overlap. */
  function SummaryText(m: Message): string
    requires IsSummary(m)
  {
    var c := m.content.value;
    if |SUMMARY_PREFIX| <= |c| - |SUMMARY_SUFFIX| then c[|SUMMARY_PREFIX|..|c| - |SUMMARY_SUFFIX|] else ""
  }

  lemma UnwrapAffixes(prefix: string, s: string, suffix: string)
    ensures prefix <= prefix + s + suffix
    ensures EndsWith(prefix + s + suffix, suffix)
    ensures (prefix + s + suffix)[|prefix|..|prefix + s + suffix| - |suffix|] == s
  {
  }

  /** Wrapping a summary into its message and reading it back gives the same text. */
  lemma SummaryRoundTrip(summary: string)
    ensures IsSummary(SummaryMessage(summary)) && SummaryText(SummaryMessage(summary)) == summary
  {
    UnwrapAffixes(SUMMARY_PREFIX, summary, SUMMARY_SUFFIX);
  }

  // ---------------------------------------------------------------- journal projection

  function Appendeds(journal: seq<Mutation>): seq<Message> {
    if journal == [] then []
    else
      var earlier := Appendeds(journal[..|journal| - 1]);
      match journal[|journal| - 1]
      case Appended(m) => earlier + [m]
      case Checkpoint(_, _, _, _, _, _) => earlier
  }

  function FirstSystem(messages: seq<Message>): Option<Message> {
    if messages == [] then None
    else if messages[0].role == System then Some(messages[0])
    else FirstSystem(messages[1..])
  }

  function OptionToSeq<T>(o: Option<T>): seq<T> {
    match o case None => [] case Some(v) => [v]
  }

  /** Index of the newest checkpoint, or -1. */
  function LastCheckpoint(journal: seq<Mutation>): (k: int)
    ensures -1 <= k < |journal|
    ensures k >= 0 ==> journal[k].Checkpoint?
  {
    if journal == [] then -1
    else if journal[|journal| - 1].Checkpoint? then |journal| - 1
    else LastCheckpoint(journal[..|journal| - 1])
  }

  /** What a journal projects to: its raw messages, or the newest checkpoint and what came after it. */
  datatype View =
    | Raw(messages: seq<Message>)
    | Since(system: Option<Message>, summary: string, retained: seq<Message>, later: seq<Message>)

  function ViewOf(journal: seq<Mutation>): View {
    var k := LastCheckpoint(journal);
    if k < 0 then Raw(Appendeds(journal))
    else
      Since(FirstSystem(Appendeds(journal)), journal[k].summary, journal[k].retained, Appendeds(journal[k + 1..]))
  }

  function Render(view: View): seq<Message> {
    match view
    case Raw(messages) => messages
    case Since(system, summary, retained, later) =>
      OptionToSeq(system) + [SummaryMessage(summary)] + retained + later
  }

  /** What the model is shown of a journal. */
  function Project(journal: seq<Mutation>): seq<Message> {
    Render(ViewOf(journal))
  }

  lemma {:induction false} FirstSystemConcat(a: seq<Message>, b: seq<Message>)
    ensures FirstSystem(a + b) == if FirstSystem(a).Some? then FirstSystem(a) else FirstSystem(b)
  {
    if a == [] {
      assert a + b == b;
    } else {
      assert (a + b)[1..] == a[1..] + b;
      FirstSystemConcat(a[1..], b);
    }
  }

  lemma {:induction false} FirstSystemIs(ms: seq<Message>)
    ensures FirstSystem(ms).Some? ==> FirstSystem(ms).value in ms && FirstSystem(ms).value.role == System
    ensures FirstSystem(ms).None? <==> forall m :: m in ms ==> m.role != System
  {
    if ms != [] {
      FirstSystemIs(ms[1..]);
      assert forall m :: m in ms <==> m == ms[0] || m in ms[1..];
    }
  }

  /** The system message the model sees is the one the journal recorded first. */
  ghost predicate Coherent(journal: seq<Mutation>) {
    FirstSystem(Project(journal)) == FirstSystem(Appendeds(journal))
  }

  lemma LastCheckpointAppend(journal: seq<Mutation>, m: Message)
    ensures LastCheckpoint(journal + [Appended(m)]) == LastCheckpoint(journal)
  {
    var j := journal + [Appended(m)];
    assert j[..|j| - 1] == journal;
  }

  lemma AppendedsPush(journal: seq<Mutation>, m: Message)
    ensures Appendeds(journal + [Appended(m)]) == Appendeds(journal) + [m]
  {
    var j := journal + [Appended(m)];
    assert j[..|j| - 1] == journal;
  }

  /** w is v with one more message at the end. */
  predicate OneMore(v: View, m: Message, w: View) {
    if v.Raw? then w.Raw? && w.messages == v.messages + [m]
    else w.Since? && w.system == v.system && w.summary == v.summary && w.retained == v.retained && w.later == v.later + [m]
  }

  lemma RenderOneMore(v: View, m: Message, w: View)
    requires OneMore(v, m, w)
    ensures Render(w) == Render(v) + [m]
  {
    if v.Since? {
      var head := OptionToSeq(v.system) + [SummaryMessage(v.summary)] + v.retained;
      assert head + (v.later + [m]) == (head + v.later) + [m];
    }
  }

  lemma LaterPush(journal: seq<Mutation>, m: Message, k: nat)
    requires k <= |journal|
    ensures Appendeds((journal + [Appended(m)])[k..]) == Appendeds(journal[k..]) + [m]
  {
    assert (journal + [Appended(m)])[k..] == journal[k..] + [Appended(m)];
    AppendedsPush(journal[k..], m);
  }

  lemma ViewOneMore(journal: seq<Mutation>, m: Message)
    requires m.role != System || LastCheckpoint(journal) < 0 || FirstSystem(Appendeds(journal)).Some?
    ensures OneMore(ViewOf(journal), m, ViewOf(journal + [Appended(m)]))
  {
    var k := LastCheckpoint(journal);
    LastCheckpointAppend(journal, m);
    AppendedsPush(journal, m);
    if k >= 0 {
      LaterPush(journal, m, k + 1);
      FirstSystemConcat(Appendeds(journal), [m]);
    }
  }

  /** Recording a message shows it to the model at the end, unless it is a late first system message. */
  lemma ProjectAppend(journal: seq<Mutation>, m: Message)
    requires m.role != System || LastCheckpoint(journal) < 0 || FirstSystem(Appendeds(journal)).Some?
    ensures Project(journal + [Appended(m)]) == Project(journal) + [m]
    ensures Coherent(journal) ==> Coherent(journal + [Appended(m)])
  {
    ViewOneMore(journal, m);
    RenderOneMore(ViewOf(journal), m, ViewOf(journal + [Appended(m)]));
    AppendedsPush(journal, m);
    FirstSystemConcat(Appendeds(journal), [m]);
    FirstSystemConcat(Project(journal), [m]);
  }

  /** A checkpoint replaces everything shown so far except the system message. */
  lemma ProjectCheckpoint(journal: seq<Mutation>, c: Mutation)
    requires c.Checkpoint?
    ensures Project(journal + [c])
         == OptionToSeq(FirstSystem(Appendeds(journal))) + [SummaryMessage(c.summary)] + c.retained
    ensures Appendeds(journal + [c]) == Appendeds(journal)
  {
    var j := journal + [c];
    assert j[..|j| - 1] == journal;
    assert LastCheckpoint(j) == |journal| && j[|journal|] == c;
    assert ViewOf(j) == Since(FirstSystem(Appendeds(journal)), c.summary, c.retained, []);
  }

  // ---------------------------------------------------------------- tool-call pairing

  /** The id a call is answered under: trimmed, or its position when blank. */
  function NormalizedId(call: ToolCall, index: nat): string {
    var id := Strip(call.id);
    if id != "" then id else FallbackId(index)
  }

  function FallbackId(index: nat): (id: string)
    ensures id != "" && id[0] == 't'
  {
    "tool-call-" + Decimal(index)
  }

  function Decimal(n: nat): string {
    if n < 10 then ["0123456789"[n]] else Decimal(n / 10) + ["0123456789"[n % 10]]
  }

  /** The digits spell the number. */
  predicate Spells(digits: string, n: nat) {
    |digits| > 0 && '0' <= digits[|digits| - 1] <= '9'
    && var last := digits[|digits| - 1] as int - '0' as int;
       if |digits| == 1 then n == last
       else n >= 10 && n % 10 == last && Spells(digits[..|digits| - 1], n / 10)
  }

  lemma {:induction false} DecimalSpells(n: nat)
    ensures Spells(Decimal(n), n)
  {
    if n >= 10 {
      DecimalSpells(n / 10);
      assert Decimal(n)[..|Decimal(n)| - 1] == Decimal(n / 10);
    }
  }

  /** The ids still to be answered after a transcript prefix, or Broken when pairing already failed. */
  datatype Owed = Broken | Owed(ids: seq<string>)

  const SETTLED := Owed.Owed([])

  function CallIds(calls: seq<ToolCall>): (ids: seq<string>)
    ensures |ids| == |calls|
  {
    seq(|calls|, i requires 0 <= i < |calls| => NormalizedId(calls[i], i))
  }

  function PairStep(owed: Owed, m: Message): Owed {
    if owed.Broken? then Broken
    else if owed.ids != [] then
      if m.role == Tool && m.callId == owed.ids[0] then Owed.Owed(owed.ids[1..]) else Broken
    else match m.role
      case Assistant => Owed.Owed(CallIds(m.calls))
      case Tool => Broken
      case _ => owed
  }

  function PairAll(owed: Owed, messages: seq<Message>): Owed
    decreases |messages|
  {
    if messages == [] then owed else PairAll(PairStep(owed, messages[0]), messages[1..])
  }

  /** Every assistant message is followed at once by one result per call, in order; no other results occur. */
  predicate Paired(messages: seq<Message>) {
    PairAll(SETTLED, messages) == SETTLED
  }

  lemma {:induction false} PairAllConcat(owed: Owed, a: seq<Message>, b: seq<Message>)
    ensures PairAll(owed, a + b) == PairAll(PairAll(owed, a), b)
    decreases |a|
  {
    if a == [] {
      assert a + b == b;
    } else {
      assert (a + b)[1..] == a[1..] + b;
      PairAllConcat(PairStep(owed, a[0]), a[1..], b);
    }
  }

  lemma {:induction false} BrokenStays(ms: seq<Message>)
    ensures PairAll(Broken, ms) == Broken
  {
    if ms != [] {
      BrokenStays(ms[1..]);
    }
  }

  /** A paired transcript may be cut in front of anything but a tool result. */
  lemma CutKeepsPairing(a: seq<Message>, b: seq<Message>)
    requires Paired(a + b) && (b == [] || b[0].role != Tool)
    ensures Paired(a) && Paired(b)
  {
    PairAllConcat(SETTLED, a, b);
    if b != [] {
      BrokenStays(b);
      BrokenStays(b[1..]);
    }
  }

  /** Call k of the message at i is answered at i + 1 + k. */
  predicate Answered(ms: seq<Message>, i: nat, k: nat)
    requires i < |ms| && k < |ms[i].calls|
  {
    && i + 1 + k < |ms|
    && ms[i + 1 + k].role == Tool
    && ms[i + 1 + k].callId == NormalizedId(ms[i].calls[k], k)
  }

  predicate CallReaches(ms: seq<Message>, i: int, t: int) {
    0 <= i < t < |ms| && ms[i].role == Assistant && t <= i + |ms[i].calls|
  }

  ghost predicate AnswersSomeCall(ms: seq<Message>, t: int) {
    exists i :: CallReaches(ms, i, t)
  }

  /** Pairing said position by position, the way a provider would check it. */
  ghost predicate AnsweredInPlace(ms: seq<Message>) {
    EveryCallAnswered(ms) && EveryResultCalledFor(ms)
  }

  ghost predicate EveryCallAnswered(ms: seq<Message>) {
    forall i, k :: 0 <= i < |ms| && ms[i].role == Assistant && 0 <= k < |ms[i].calls| ==> Answered(ms, i, k)
  }

  ghost predicate EveryResultCalledFor(ms: seq<Message>) {
    forall t :: 0 <= t < |ms| && ms[t].role == Tool ==> AnswersSomeCall(ms, t)
  }

  /** What is owed first is what comes first. */
  lemma OwedIsNext(ids: seq<string>, ms: seq<Message>)
    requires ids != [] && PairAll(Owed.Owed(ids), ms) == SETTLED
    ensures ms != [] && ms[0].role == Tool && ms[0].callId == ids[0]
    ensures PairAll(Owed.Owed(ids[1..]), ms[1..]) == SETTLED
  {
    if ms != [] {
      BrokenStays(ms[1..]);
    }
  }

  /** The messages begin with one result for each id, in order. */
  predicate BeginWith(ids: seq<string>, ms: seq<Message>) {
    |ids| <= |ms| && forall k :: 0 <= k < |ids| ==> ms[k].role == Tool && ms[k].callId == ids[k]
  }

  lemma BeginWithOneMore(ids: seq<string>, ms: seq<Message>)
    requires ids != [] && ms != [] && ms[0].role == Tool && ms[0].callId == ids[0] && BeginWith(ids[1..], ms[1..])
    ensures BeginWith(ids, ms)
  {
    forall k | 1 <= k < |ids| ensures ms[k].role == Tool && ms[k].callId == ids[k] {
      assert ms[1..][k - 1] == ms[k] && ids[1..][k - 1] == ids[k];
    }
  }

  /** Owed ids are exactly those of the messages that come next. */
  lemma {:induction false} OwedAreNext(ids: seq<string>, ms: seq<Message>)
    requires PairAll(Owed.Owed(ids), ms) == SETTLED
    ensures BeginWith(ids, ms) && Paired(ms[|ids|..])
  {
    if ids == [] {
      assert ms[0..] == ms;
    } else {
      OwedIsNext(ids, ms);
      OwedAreNext(ids[1..], ms[1..]);
      BeginWithOneMore(ids, ms);
      assert ms[1..][|ids| - 1..] == ms[|ids|..];
    }
  }

  lemma {:induction false} NextAreOwed(ids: seq<string>, ms: seq<Message>)
    requires |ids| <= |ms|
    requires forall k :: 0 <= k < |ids| ==> ms[k].role == Tool && ms[k].callId == ids[k]
    ensures PairAll(Owed.Owed(ids), ms) == PairAll(SETTLED, ms[|ids|..])
  {
    if ids == [] {
      assert ms[0..] == ms;
    } else {
      assert ms[0].role == Tool && ms[0].callId == ids[0];
      forall k | 0 <= k < |ids| - 1 ensures ms[1..][k].role == Tool && ms[1..][k].callId == ids[1..][k] {
        assert ms[1..][k] == ms[k + 1];
      }
      NextAreOwed(ids[1..], ms[1..]);
      assert ms[1..][|ids| - 1..] == ms[|ids|..];
    }
  }

  /** How many of the messages after the first one answer it. */
  function AnswersTo(m: Message): nat {
    if m.role == Assistant then |m.calls| else 0
  }

  /** The first message is no result, and its own calls are answered. */
  predicate OpensExchange(ms: seq<Message>) {
    && |ms| > 0 && ms[0].role != Tool
    && |ms| > AnswersTo(ms[0])
    && forall k :: 0 <= k < AnswersTo(ms[0]) ==> Answered(ms, 0, k)
  }

  lemma AnswersAreResults(ms: seq<Message>)
    requires OpensExchange(ms)
    ensures forall i :: 1 <= i <= AnswersTo(ms[0]) ==> ms[i].role == Tool
  {
    forall i | 1 <= i <= AnswersTo(ms[0]) ensures ms[i].role == Tool {
      assert Answered(ms, 0, i - 1);
    }
  }

  lemma AnsweredFromRest(ms: seq<Message>)
    requires OpensExchange(ms)
    requires AnsweredInPlace(ms[1 + AnswersTo(ms[0])..])
    ensures AnsweredInPlace(ms)
  {
    CallsAnsweredFromRest(ms);
    ResultsCalledForFromRest(ms);
  }

  lemma CallsAnsweredFromRest(ms: seq<Message>)
    requires OpensExchange(ms)
    requires EveryCallAnswered(ms[1 + AnswersTo(ms[0])..])
    ensures EveryCallAnswered(ms)
  {
    var n := AnswersTo(ms[0]);
    var rest := ms[1 + n..];
    AnswersAreResults(ms);
    forall i, k | 0 <= i < |ms| && ms[i].role == Assistant && 0 <= k < |ms[i].calls|
      ensures Answered(ms, i, k)
    {
      if i > n {
        assert ms[i] == rest[i - 1 - n];
        assert Answered(rest, i - 1 - n, k);
        assert ms[i + 1 + k] == rest[i - n + k];
      }
    }
  }

  lemma ResultsCalledForFromRest(ms: seq<Message>)
    requires OpensExchange(ms)
    requires EveryResultCalledFor(ms[1 + AnswersTo(ms[0])..])
    ensures EveryResultCalledFor(ms)
  {
    var n := AnswersTo(ms[0]);
    var rest := ms[1 + n..];
    forall t | 0 <= t < |ms| && ms[t].role == Tool
      ensures AnswersSomeCall(ms, t)
    {
      if t <= n {
        assert CallReaches(ms, 0, t);
      } else {
        assert ms[t] == rest[t - 1 - n];
        assert AnswersSomeCall(rest, t - 1 - n);
        var i :| CallReaches(rest, i, t - 1 - n);
        assert CallReaches(ms, i + 1 + n, t);
      }
    }
  }

  lemma AnsweredInRest(ms: seq<Message>)
    requires OpensExchange(ms) && AnsweredInPlace(ms)
    ensures AnsweredInPlace(ms[1 + AnswersTo(ms[0])..])
  {
    CallsAnsweredInRest(ms);
    ResultsCalledForInRest(ms);
  }

  lemma CallsAnsweredInRest(ms: seq<Message>)
    requires OpensExchange(ms) && EveryCallAnswered(ms)
    ensures EveryCallAnswered(ms[1 + AnswersTo(ms[0])..])
  {
    var n := AnswersTo(ms[0]);
    var rest := ms[1 + n..];
    forall i, k | 0 <= i < |rest| && rest[i].role == Assistant && 0 <= k < |rest[i].calls|
      ensures Answered(rest, i, k)
    {
      assert ms[i + 1 + n] == rest[i];
      assert Answered(ms, i + 1 + n, k);
    }
  }

  lemma ResultsCalledForInRest(ms: seq<Message>)
    requires OpensExchange(ms) && EveryResultCalledFor(ms)
    ensures EveryResultCalledFor(ms[1 + AnswersTo(ms[0])..])
  {
    var n := AnswersTo(ms[0]);
    var rest := ms[1 + n..];
    AnswersAreResults(ms);
    forall t | 0 <= t < |rest| && rest[t].role == Tool
      ensures AnswersSomeCall(rest, t)
    {
      assert ms[t + 1 + n] == rest[t];
      assert AnswersSomeCall(ms, t + 1 + n);
      var i :| CallReaches(ms, i, t + 1 + n);
      assert i > n;
      assert ms[i] == rest[i - 1 - n];
      assert CallReaches(rest, i - 1 - n, t);
    }
  }

  /** The ids the first message is owed answers under. */
  function FirstIds(ms: seq<Message>): (ids: seq<string>)
    requires ms != []
    ensures |ids| == AnswersTo(ms[0])
  {
    if ms[0].role == Assistant then CallIds(ms[0].calls) else []
  }

  lemma PairedOpens(ms: seq<Message>)
    requires ms != [] && ms[0].role != Tool && Paired(ms)
    ensures OpensExchange(ms)
  {
    assert PairStep(SETTLED, ms[0]) == Owed.Owed(FirstIds(ms));
    OwedAreNext(FirstIds(ms), ms[1..]);
    forall k | 0 <= k < AnswersTo(ms[0]) ensures Answered(ms, 0, k) {
      assert ms[1..][k] == ms[1 + k];
    }
  }

  /** Once the first exchange is complete, pairing is decided by what follows it. */
  lemma ExchangeLeavesRest(ms: seq<Message>)
    requires OpensExchange(ms)
    ensures Paired(ms) <==> Paired(ms[1 + AnswersTo(ms[0])..])
  {
    var ids, tail := FirstIds(ms), ms[1..];
    assert PairStep(SETTLED, ms[0]) == Owed.Owed(ids);
    forall k | 0 <= k < |ids| ensures tail[k].role == Tool && tail[k].callId == ids[k] {
      assert Answered(ms, 0, k);
    }
    NextAreOwed(ids, tail);
    assert tail[|ids|..] == ms[1 + AnswersTo(ms[0])..];
  }

  lemma OpensWhenAnswered(ms: seq<Message>)
    requires ms != [] && AnsweredInPlace(ms)
    ensures OpensExchange(ms)
  {
    var n := AnswersTo(ms[0]);
    assert ms[0].role == Tool ==> AnswersSomeCall(ms, 0);
    assert n > 0 ==> Answered(ms, 0, n - 1);
  }

  /** The fold says exactly what the position-by-position statement says. */
  lemma {:induction false} PairedMeansAnswered(ms: seq<Message>)
    ensures Paired(ms) <==> AnsweredInPlace(ms)
    decreases |ms|
  {
    if ms != [] && ms[0].role == Tool {
      BrokenStays(ms[1..]);
      assert AnsweredInPlace(ms) ==> AnswersSomeCall(ms, 0);
    } else if ms != [] {
      if AnsweredInPlace(ms) {
        OpensWhenAnswered(ms);
        AnsweredInRest(ms);
      }
      if Paired(ms) {
        PairedOpens(ms);
      }
      if Paired(ms) || AnsweredInPlace(ms) {
        ExchangeLeavesRest(ms);
        PairedMeansAnswered(ms[1 + AnswersTo(ms[0])..]);
        if Paired(ms) {
          AnsweredFromRest(ms);
        }
      }
    }
  }

  /**
   * An answer carries its call's own id, character for character, exactly when that id is
   * trimmed and not blank; any other id is answered under its normalised form.
   */
  lemma AnsweredUnderOwnId(call: ToolCall, index: nat)
    ensures NormalizedId(call, index) == call.id <==> Trimmed(call.id) && call.id != ""
  {
    StripTrims(call.id);
    assert FallbackId(index)[0] == 't';
  }

  // ---------------------------------------------------------------- splitting a transcript

  /** Index of the last user message that is not a summary, or -1. */
  function LastUser(ms: seq<Message>): (u: int)
    ensures -1 <= u < |ms|
    ensures u >= 0 ==> ms[u].role == User && !IsSummary(ms[u])
    ensures forall i :: u < i < |ms| && ms[i].role == User ==> IsSummary(ms[i])
  {
    if ms == [] then -1
    else
      var last := ms[|ms| - 1];
      if last.role == User && !IsSummary(last) then |ms| - 1 else LastUser(ms[..|ms| - 1])
  }

  function LastSummary(ms: seq<Message>): Option<string> {
    if ms == [] then None
    else
      var later := LastSummary(ms[1..]);
      if later.None? && IsSummary(ms[0]) then Some(SummaryText(ms[0])) else later
  }

  /** The messages that are neither the first system message, nor a summary, nor the one at index u. */
  function Unpinned(ms: seq<Message>, u: int, systemSeen: bool): seq<Message> {
    if ms == [] then []
    else if ms[0].role == System && !systemSeen then Unpinned(ms[1..], u - 1, true)
    else if IsSummary(ms[0]) || u == 0 then Unpinned(ms[1..], u - 1, systemSeen)
    else [ms[0]] + Unpinned(ms[1..], u - 1, systemSeen)
  }

  datatype Parts = Parts(system: Option<Message>, user: Option<Message>, summary: Option<string>, history: seq<Message>)

  function PartsOf(ms: seq<Message>): Parts {
    var u := LastUser(ms);
    Parts(FirstSystem(ms), if u < 0 then None else Some(ms[u]), LastSummary(ms), Unpinned(ms, u, false))
  }

  /** The message at i is to be summarised or kept: no summary, not the request, and not the first system message. */
  predicate InHistory(ms: seq<Message>, i: nat, u: int, systemSeen: bool)
    requires i < |ms|
  {
    && i != u && !IsSummary(ms[i])
    && (ms[i].role == System ==> systemSeen || exists j :: 0 <= j < i && ms[j].role == System)
  }

  /** The history is the messages at these places, in order. */
  ghost predicate PickedAt(ms: seq<Message>, history: seq<Message>, places: seq<nat>) {
    && |places| == |history|
    && (forall j :: 0 <= j < |places| ==> places[j] < |ms| && history[j] == ms[places[j]])
    && (forall j, k :: 0 <= j < k < |places| ==> places[j] < places[k])
  }

  ghost predicate Picked(ms: seq<Message>, history: seq<Message>, places: seq<nat>, u: int, systemSeen: bool) {
    && PickedAt(ms, history, places)
    && forall i: nat {:trigger i in places} :: i < |ms| ==> (i in places <==> InHistory(ms, i, u, systemSeen))
  }

  lemma LaterInHistory(ms: seq<Message>, i: nat, u: int, systemSeen: bool)
    requires 0 < i < |ms|
    ensures InHistory(ms, i, u, systemSeen)
       <==> InHistory(ms[1..], i - 1, u - 1, systemSeen || ms[0].role == System)
  {
    assert forall j :: 0 <= j < i - 1 ==> ms[1..][j] == ms[j + 1];
    if j :| 0 <= j < i && ms[j].role == System {
      assert j > 0 ==> ms[1..][j - 1] == ms[j];
    }
  }

  function Shifted(places: seq<nat>): (shifted: seq<nat>)
    ensures |shifted| == |places|
  {
    seq(|places|, j requires 0 <= j < |places| => places[j] + 1)
  }

  lemma ShiftedIn(places: seq<nat>, i: nat)
    ensures i in Shifted(places) <==> i > 0 && i - 1 in places
  {
    if i > 0 && i - 1 in places {
      var j :| 0 <= j < |places| && places[j] == i - 1;
      assert Shifted(places)[j] == i;
    }
  }

  lemma {:induction false} UnpinnedIsPicked(ms: seq<Message>, u: int, systemSeen: bool) returns (places: seq<nat>)
    requires 0 <= u < |ms| ==> ms[u].role == User
    ensures Picked(ms, Unpinned(ms, u, systemSeen), places, u, systemSeen)
  {
    places := [];
    if ms != [] {
      var seen := systemSeen || ms[0].role == System;
      var rest := Unpinned(ms[1..], u - 1, seen);
      var later := UnpinnedIsPicked(ms[1..], u - 1, seen);
      places := if InHistory(ms, 0, u, systemSeen) then [0] + Shifted(later) else Shifted(later);
      forall i: nat | i < |ms| ensures i in places <==> InHistory(ms, i, u, systemSeen) {
        ShiftedIn(later, i);
        if i > 0 {
          LaterInHistory(ms, i, u, systemSeen);
        }
      }
      PickedShifted(ms, rest, later);
    }
  }

  lemma PickedShifted(ms: seq<Message>, rest: seq<Message>, later: seq<nat>)
    requires ms != [] && PickedAt(ms[1..], rest, later)
    ensures PickedAt(ms, rest, Shifted(later)) && PickedAt(ms, [ms[0]] + rest, [0] + Shifted(later))
  {
  }

  predicate IsFirstSystem(ms: seq<Message>, i: nat)
    requires i < |ms|
  {
    ms[i].role == System && forall j :: 0 <= j < i ==> ms[j].role != System
  }

  predicate IsLastSummary(ms: seq<Message>, i: nat)
    requires i < |ms|
  {
    IsSummary(ms[i]) && forall j :: i < j < |ms| ==> !IsSummary(ms[j])
  }

  ghost predicate SystemIsFirst(ms: seq<Message>, system: Option<Message>) {
    if system.Some? then exists i :: 0 <= i < |ms| && IsFirstSystem(ms, i) && system.value == ms[i]
    else forall i :: 0 <= i < |ms| ==> ms[i].role != System
  }

  ghost predicate SummaryIsLast(ms: seq<Message>, summary: Option<string>) {
    if summary.Some? then exists i :: 0 <= i < |ms| && IsLastSummary(ms, i) && summary.value == SummaryText(ms[i])
    else forall i :: 0 <= i < |ms| ==> !IsSummary(ms[i])
  }

  ghost predicate RestIsHistory(ms: seq<Message>, user: Option<Message>, history: seq<Message>) {
    exists u, places ::
      && LastRequest(ms, u) && Picked(ms, history, places, u, false)
      && user == if u < 0 then None else Some(ms[u])
  }

  /** What a transcript is split into, said by the places of its messages. */
  ghost predicate SplitsInto(ms: seq<Message>, parts: Parts) {
    && SystemIsFirst(ms, parts.system) && SummaryIsLast(ms, parts.summary)
    && RestIsHistory(ms, parts.user, parts.history)
  }

  /** The place of the last thing the user said, or -1. */
  predicate LastRequest(ms: seq<Message>, u: int) {
    && -1 <= u < |ms| && (u >= 0 ==> ms[u].role == User && !IsSummary(ms[u]))
    && forall i :: u < i < |ms| && ms[i].role == User ==> IsSummary(ms[i])
  }

  lemma {:induction false} FirstSystemAt(ms: seq<Message>)
    ensures SystemIsFirst(ms, FirstSystem(ms))
  {
    if ms != [] && ms[0].role == System {
      assert IsFirstSystem(ms, 0);
    } else if ms != [] {
      FirstSystemAt(ms[1..]);
      if FirstSystem(ms).Some? {
        var i :| 0 <= i < |ms[1..]| && IsFirstSystem(ms[1..], i) && FirstSystem(ms).value == ms[1..][i];
        FirstSystemLater(ms, i);
      } else {
        assert forall i :: 0 < i < |ms| ==> ms[i] == ms[1..][i - 1];
      }
    }
  }

  lemma FirstSystemLater(ms: seq<Message>, i: nat)
    requires i + 1 < |ms| && ms[0].role != System && IsFirstSystem(ms[1..], i)
    ensures IsFirstSystem(ms, i + 1) && ms[i + 1] == ms[1..][i]
  {
    assert forall j :: 0 < j <= i ==> ms[j] == ms[1..][j - 1];
  }

  lemma {:induction false} LastSummaryAt(ms: seq<Message>)
    ensures SummaryIsLast(ms, LastSummary(ms))
  {
    if ms != [] {
      LastSummaryAt(ms[1..]);
      if LastSummary(ms[1..]).Some? {
        var i :| 0 <= i < |ms[1..]| && IsLastSummary(ms[1..], i)
                 && LastSummary(ms[1..]).value == SummaryText(ms[1..][i]);
        LastSummaryLater(ms, i);
      } else {
        assert forall i :: 0 < i < |ms| ==> ms[i] == ms[1..][i - 1];
        assert IsSummary(ms[0]) ==> IsLastSummary(ms, 0);
      }
    }
  }

  lemma LastSummaryLater(ms: seq<Message>, i: nat)
    requires i + 1 < |ms| && IsLastSummary(ms[1..], i)
    ensures IsLastSummary(ms, i + 1) && ms[i + 1] == ms[1..][i]
  {
    assert forall j :: 0 < j < |ms| ==> ms[j] == ms[1..][j - 1];
  }

  /** Splitting a transcript loses nothing: each message goes where it belongs. */
  lemma PartsAreSplit(ms: seq<Message>)
    ensures SplitsInto(ms, PartsOf(ms))
  {
    FirstSystemAt(ms);
    LastSummaryAt(ms);
    var u := LastUser(ms);
    var places := UnpinnedIsPicked(ms, u, false);
    assert LastRequest(ms, u);
  }

  function Assemble(system: Option<Message>, user: Option<Message>, summary: string, retained: seq<Message>): seq<Message> {
    OptionToSeq(system) + [SummaryMessage(summary)] + retained + OptionToSeq(user)
  }

  lemma {:induction false} UnpinnedKeepsPairing(owed: Owed, ms: seq<Message>, u: int, systemSeen: bool)
    requires PairAll(owed, ms) != Broken
    requires 0 <= u < |ms| ==> ms[u].role == User
    ensures PairAll(owed, Unpinned(ms, u, systemSeen)) == PairAll(owed, ms)
    decreases |ms|
  {
    if ms != [] {
      BrokenStays(ms[1..]);
      var next := PairStep(owed, ms[0]);
      var seen := systemSeen || (ms[0].role == System && !systemSeen);
      UnpinnedKeepsPairing(next, ms[1..], u - 1, seen);
      var rest := Unpinned(ms[1..], u - 1, seen);
      if ms[0].role == Assistant || ms[0].role == Tool {
        assert ([ms[0]] + rest)[1..] == rest;
      } else {
        assert next == owed;
        assert ([ms[0]] + rest)[1..] == rest;
      }
    }
  }

  /** Taking out the pinned messages leaves the calls and results paired. */
  lemma HistoryIsPaired(ms: seq<Message>)
    requires Paired(ms)
    ensures Paired(PartsOf(ms).history)
  {
    UnpinnedKeepsPairing(SETTLED, ms, LastUser(ms), false);
  }

  lemma {:induction false} UnpinnedFrom(ms: seq<Message>, u: int, systemSeen: bool)
    ensures forall m :: m in Unpinned(ms, u, systemSeen) ==> m in ms && !IsSummary(m)
    ensures !systemSeen && FirstSystem(ms).None? ==> forall m :: m in Unpinned(ms, u, systemSeen) ==> m.role != System
  {
    if ms != [] {
      var seen := systemSeen || (ms[0].role == System && !systemSeen);
      UnpinnedFrom(ms[1..], u - 1, seen);
      FirstSystemIs(ms);
    }
  }

  /** What is left to compact holds no summary, and no system or user message unless one of that kind is pinned. */
  lemma HistoryHoldsNoPinnedKind(ms: seq<Message>)
    ensures forall m :: m in PartsOf(ms).history ==> m in ms && !IsSummary(m)
    ensures PartsOf(ms).system.None? ==> forall m :: m in PartsOf(ms).history ==> m.role != System
    ensures PartsOf(ms).user.None? ==> forall m :: m in PartsOf(ms).history ==> m.role != User
  {
    UnpinnedFrom(ms, LastUser(ms), false);
  }

  /** The messages a compaction may keep beside what it pins. */
  ghost predicate Keepable(system: Option<Message>, user: Option<Message>, retained: seq<Message>) {
    && (system.Some? ==> system.value.role == System)
    && (user.Some? ==> user.value.role == User && !IsSummary(user.value))
    && (forall m :: m in retained ==> !IsSummary(m))
    && (system.None? ==> forall m :: m in retained ==> m.role != System)
    && (user.None? ==> forall m :: m in retained ==> m.role != User)
  }

  /** Assembling shows one summary, keeps the user's request word for word as the last message, and can be split again. */
  lemma SplitOfAssemble(system: Option<Message>, user: Option<Message>, summary: string, retained: seq<Message>)
    requires Keepable(system, user, retained)
    ensures PartsOf(Assemble(system, user, summary, retained)) == Parts(system, user, Some(summary), retained)
  {
    SystemOfAssemble(system, user, summary, retained);
    UserOfAssemble(system, user, summary, retained);
    SummaryOfAssemble(system, user, summary, retained);
    HistoryOfAssemble(system, user, summary, retained);
  }

  lemma SystemOfAssemble(system: Option<Message>, user: Option<Message>, summary: string, retained: seq<Message>)
    requires Keepable(system, user, retained)
    ensures FirstSystem(Assemble(system, user, summary, retained)) == system
  {
    var head := OptionToSeq(system) + [SummaryMessage(summary)];
    FirstSystemConcat(OptionToSeq(system), [SummaryMessage(summary)]);
    FirstSystemConcat(head, retained);
    FirstSystemConcat(head + retained, OptionToSeq(user));
    FirstSystemIs(retained);
    FirstSystemIs(OptionToSeq(user));
  }

  lemma UserOfAssemble(system: Option<Message>, user: Option<Message>, summary: string, retained: seq<Message>)
    requires Keepable(system, user, retained)
    ensures var a := Assemble(system, user, summary, retained);
            LastUser(a) == if user.Some? then |a| - 1 else -1
    ensures user.Some? ==> Assemble(system, user, summary, retained)[|Assemble(system, user, summary, retained)| - 1] == user.value
  {
    var a := Assemble(system, user, summary, retained);
    if user.None? {
      SummaryRoundTrip(summary);
      assert forall i :: 0 <= i < |a| ==> a[i] in OptionToSeq(system) || a[i] == SummaryMessage(summary) || a[i] in retained;
    }
  }

  lemma SummaryOfAssemble(system: Option<Message>, user: Option<Message>, summary: string, retained: seq<Message>)
    requires Keepable(system, user, retained)
    ensures LastSummary(Assemble(system, user, summary, retained)) == Some(summary)
  {
    var tail := retained + OptionToSeq(user);
    var shown := [SummaryMessage(summary)] + tail;
    SummaryRoundTrip(summary);
    NoSummaryIn(tail);
    assert shown[1..] == tail;
    if system.Some? {
      assert Assemble(system, user, summary, retained) == [system.value] + shown;
      assert ([system.value] + shown)[1..] == shown;
    } else {
      assert Assemble(system, user, summary, retained) == shown;
    }
  }

  lemma {:induction false} HistoryOfAssemble(system: Option<Message>, user: Option<Message>, summary: string,
                                             retained: seq<Message>)
    requires Keepable(system, user, retained)
    ensures var a := Assemble(system, user, summary, retained); Unpinned(a, LastUser(a), false) == retained
  {
    var u := LastUser(Assemble(system, user, summary, retained));
    UserOfAssemble(system, user, summary, retained);
    AssembleShape(system, user, summary, retained);
    HistoryOfShown(user, summary, retained, u - |OptionToSeq(system)|, system.Some?);
    if system.Some? {
      UnpinnedPush(system.value, [SummaryMessage(summary)] + (retained + OptionToSeq(user)), u, false);
    }
  }

  lemma {:induction false} HistoryOfShown(user: Option<Message>, summary: string, retained: seq<Message>, u: int,
                                          systemSeen: bool)
    requires forall m :: m in retained ==> !IsSummary(m) && (m.role == System ==> systemSeen)
    requires user.Some? ==> user.value.role == User && u == |retained| + 1
    requires user.None? ==> u < 1
    ensures Unpinned([SummaryMessage(summary)] + (retained + OptionToSeq(user)), u, systemSeen) == retained
  {
    SummaryRoundTrip(summary);
    UnpinnedTail(retained, user, u - 1, systemSeen);
    UnpinnedPush(SummaryMessage(summary), retained + OptionToSeq(user), u, systemSeen);
  }

  lemma AssembleShape(system: Option<Message>, user: Option<Message>, summary: string, retained: seq<Message>)
    ensures var shown := [SummaryMessage(summary)] + (retained + OptionToSeq(user));
            Assemble(system, user, summary, retained) == if system.Some? then [system.value] + shown else shown
  {
  }

  /** The first system message and every summary are skipped. */
  lemma UnpinnedPush(m: Message, ms: seq<Message>, u: int, systemSeen: bool)
    requires (m.role == System && !systemSeen) || IsSummary(m)
    ensures Unpinned([m] + ms, u, systemSeen) == Unpinned(ms, u - 1, systemSeen || m.role == System)
  {
    assert ([m] + ms)[1..] == ms;
  }

  lemma {:induction false} NoSummaryIn(ms: seq<Message>)
    requires forall m :: m in ms ==> !IsSummary(m)
    ensures LastSummary(ms) == None
  {
    if ms != [] {
      NoSummaryIn(ms[1..]);
    }
  }

  lemma {:induction false} UnpinnedTail(retained: seq<Message>, user: Option<Message>, u: int, systemSeen: bool)
    requires forall m :: m in retained ==> !IsSummary(m) && (m.role == System ==> systemSeen)
    requires user.Some? ==> user.value.role == User && u == |retained|
    requires user.None? ==> u < 0
    ensures Unpinned(retained + OptionToSeq(user), u, systemSeen) == retained
  {
    var all := retained + OptionToSeq(user);
    if retained != [] {
      assert all[1..] == retained[1..] + OptionToSeq(user);
      UnpinnedTail(retained[1..], user, u - 1, systemSeen);
      assert all[0] == retained[0];
    } else if user.Some? {
      assert all[1..] == [];
    }
  }
}
