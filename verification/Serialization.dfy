/** How messages are written out for a summary, and that nothing the summary has to stand for is left out. */
module Serialization {
  import opened Text
  import opened Transcript
  import opened Summarizer

  const TOOL_RESULT_SUMMARY_CHARS := 2_000

  function CallTexts(calls: seq<ToolCall>): seq<string> {
    if calls == [] then [] else [calls[0].name + "(" + calls[0].arguments + ")"] + CallTexts(calls[1..])
  }

  function TruncatedResult(text: string): string {
    if |text| <= TOOL_RESULT_SUMMARY_CHARS then text
    else text[..TOOL_RESULT_SUMMARY_CHARS]
         + "\n[... " + Decimal(|text| - TOOL_RESULT_SUMMARY_CHARS) + " characters truncated]"
  }

  function MessageEntries(m: Message): seq<string> {
    match m.role
    case Assistant =>
      (if m.content.Some? && m.content.value != "" then ["[Assistant]: " + m.content.value] else [])
      + (if m.calls != [] then ["[Assistant tool calls]: " + Join(CallTexts(m.calls), "; ")] else [])
    case Tool => ["[Tool result]: " + TruncatedResult(if m.content.Some? then m.content.value else "")]
    case System => if m.content.Some? then ["[System]: " + m.content.value] else []
    case User => if m.content.Some? then ["[User]: " + m.content.value] else []
  }

  function SerializeEntries(messages: seq<Message>): seq<string> {
    if messages == [] then [] else MessageEntries(messages[0]) + SerializeEntries(messages[1..])
  }

  // ---------------------------------------------------------------- what the entries tell

  predicate HasText(m: Message) {
    m.content.Some? && (m.role == Assistant ==> m.content.value != "")
  }

  predicate HasCalls(m: Message) {
    m.role == Assistant && m.calls != []
  }

  /** The entry is labelled and contains the text. */
  ghost predicate Tells(entry: string, mark: string, text: string) {
    mark <= entry && Inside(text, entry[|mark|..])
  }

  /** The entry gives every call with its name and its arguments. */
  ghost predicate TellsCalls(entry: string, calls: seq<ToolCall>) {
    && "[Assistant tool calls]: " <= entry
    && forall i {:trigger calls[i]} :: 0 <= i < |calls| ==>
         Inside(calls[i].name + "(" + calls[i].arguments + ")", entry)
  }

  /** The entry gives a tool result whole or, when it is long, its first 2000 characters and how many are missing. */
  ghost predicate TellsResult(entry: string, text: string) {
    if |text| <= 2000 then Tells(entry, "[Tool result]: ", text)
    else
      exists digits ::
        Spells(digits, |text| - 2000) && Tells(entry, "[Tool result]: ", text[..2000] + "\n[... " + digits)
  }

  /** The entries are those of one message. */
  ghost predicate TellsMessage(entries: seq<string>, m: Message) {
    match m.role
    case Tool => |entries| == 1 && TellsResult(entries[0], if m.content.Some? then m.content.value else "")
    case Assistant =>
      && |entries| == (if HasText(m) then 1 else 0) + (if HasCalls(m) then 1 else 0)
      && (HasText(m) ==> Tells(entries[0], "[Assistant]: ", m.content.value))
      && (HasCalls(m) ==> TellsCalls(entries[|entries| - 1], m.calls))
    case System =>
      |entries| == (if HasText(m) then 1 else 0) && (HasText(m) ==> Tells(entries[0], "[System]: ", m.content.value))
    case User =>
      |entries| == (if HasText(m) then 1 else 0) && (HasText(m) ==> Tells(entries[0], "[User]: ", m.content.value))
  }

  /** The entries are those of the messages, one message after the other. */
  ghost predicate TellsAll(entries: seq<string>, messages: seq<Message>) {
    if messages == [] then entries == []
    else
      exists n {:trigger entries[..n]} ::
        0 <= n <= |entries| && TellsMessage(entries[..n], messages[0]) && TellsAll(entries[n..], messages[1..])
  }

  lemma LabelledTells(mark: string, text: string)
    ensures Tells(mark + text, mark, text)
  {
    InsideOf(text, "", "");
    assert "" + text + "" == text && (mark + text)[|mark|..] == text;
  }

  lemma {:induction false} CallIsWritten(calls: seq<ToolCall>, i: nat)
    requires i < |calls|
    ensures |CallTexts(calls)| == |calls|
    ensures CallTexts(calls)[i] == calls[i].name + "(" + calls[i].arguments + ")"
  {
    if i > 0 {
      CallIsWritten(calls[1..], i - 1);
    } else if |calls| > 1 {
      CallIsWritten(calls[1..], 0);
    }
  }

  lemma CallsAreTold(calls: seq<ToolCall>)
    requires calls != []
    ensures TellsCalls("[Assistant tool calls]: " + Join(CallTexts(calls), "; "), calls)
  {
    var mark, texts := "[Assistant tool calls]: ", CallTexts(calls);
    forall i | 0 <= i < |calls|
      ensures Inside(calls[i].name + "(" + calls[i].arguments + ")", mark + Join(texts, "; "))
    {
      CallIsWritten(calls, i);
      PartInJoin(texts, "; ", i);
      InsideMore(texts[i], Join(texts, "; "), mark, "");
      assert mark + Join(texts, "; ") + "" == mark + Join(texts, "; ");
    }
  }

  lemma ResultIsTold(text: string)
    ensures TellsResult("[Tool result]: " + TruncatedResult(text), text)
  {
    var mark := "[Tool result]: ";
    if |text| <= TOOL_RESULT_SUMMARY_CHARS {
      LabelledTells(mark, text);
    } else {
      var digits := Decimal(|text| - TOOL_RESULT_SUMMARY_CHARS);
      DecimalSpells(|text| - TOOL_RESULT_SUMMARY_CHARS);
      var told := text[..2000] + "\n[... " + digits;
      MarkedTells(mark, told, " characters truncated]");
    }
  }

  lemma MarkedTells(mark: string, text: string, after: string)
    ensures Tells(mark + (text + after), mark, text)
  {
    InsideOf(text, "", after);
    assert "" + text + after == text + after && (mark + (text + after))[|mark|..] == text + after;
  }

  lemma EntriesTellMessage(m: Message)
    ensures TellsMessage(MessageEntries(m), m)
  {
    var text := if m.content.Some? then m.content.value else "";
    match m.role
    case Tool => ResultIsTold(text);
    case Assistant =>
      LabelledTells("[Assistant]: ", text);
      if m.calls != [] {
        CallsAreTold(m.calls);
      }
    case System => LabelledTells("[System]: ", text);
    case User => LabelledTells("[User]: ", text);
  }

  /** The entries of a history leave nothing out: every message in order, with its text, calls and results. */
  lemma {:induction false} EntriesTellAll(messages: seq<Message>)
    ensures TellsAll(SerializeEntries(messages), messages)
  {
    if messages != [] {
      var first, rest := MessageEntries(messages[0]), SerializeEntries(messages[1..]);
      EntriesTellMessage(messages[0]);
      EntriesTellAll(messages[1..]);
      assert (first + rest)[..|first|] == first && (first + rest)[|first|..] == rest;
    }
  }

  // ---------------------------------------------------------------- what the requests carry

  /** The prompt of a request shows its fragments and, when there is one, the summary so far. */
  ghost predicate PromptShows(q: Request) {
    && (forall i {:trigger q.chunk[i]} :: 0 <= i < |q.chunk| ==> Inside(q.chunk[i], PromptOf(q)))
    && (q.previous.Some? && q.previous.value != "" ==> Inside(q.previous.value, PromptOf(q)))
  }

  lemma PromptShowsAll(q: Request)
    ensures PromptShows(q)
  {
    var text, tail := Join(q.chunk, ENTRY_SEPARATOR), PromptTail(q.previous);
    forall i | 0 <= i < |q.chunk| ensures Inside(q.chunk[i], PromptOf(q)) {
      PartInJoin(q.chunk, ENTRY_SEPARATOR, i);
      InsideMore(q.chunk[i], text, PROMPT_OPEN, tail);
    }
    if q.previous.Some? && q.previous.value != "" {
      var before, after := PROMPT_OPEN + text + PROMPT_CLOSE + PREVIOUS_OPEN, PREVIOUS_CLOSE + UPDATE_FORMAT;
      InsideOf(q.previous.value, before, after);
      assert PromptOf(q) == before + q.previous.value + after;
    }
  }

  /** The fragments spell the text, after a mark or an old summary that is folded in. */
  ghost predicate SpellOut(round: seq<Request>, text: string, previous: Option<string>) {
    && (forall i {:trigger round[i]} :: 0 <= i < |round| ==> PromptShows(round[i]))
    && exists lead: string ::
         && Concat(Fragments(round)) == lead + text
         && (previous.Some? && previous.value != "" ==>
               || (round != [] && round[0].previous == previous)
               || Inside(previous.value, lead))
  }

  /** The summary is the answer to the last request, without the white space around it. */
  ghost predicate IsAnswerTo(summary: string, n: nat, replies: nat -> Reply) {
    n > 0 && replies(n - 1).Summary? && TrimmedFrom(summary, replies(n - 1).text)
  }

  lemma RoundSpellsOut(round: seq<Request>, entries: seq<string>, previous: Option<string>, estimate: Estimator,
                       budget: int, replies: nat -> Reply, start: nat)
    requires Consume(Fragments(round), StartEntries(entries, previous, estimate, budget)) == Some([])
    requires Chained(round, StartSummary(previous, estimate, budget), replies, start)
    requires round != []
    ensures SpellOut(round, Concat(entries), previous)
  {
    forall i | 0 <= i < |round| ensures PromptShows(round[i]) {
      PromptShowsAll(round[i]);
    }
    ConsumedSpellsTheSame(Fragments(round), StartEntries(entries, previous, estimate, budget));
    if MustFold(previous, estimate, budget) {
      var lead := FOLDED_LABEL + previous.value;
      assert ([lead] + entries)[1..] == entries;
      InsideOf(previous.value, FOLDED_LABEL, "");
      assert FOLDED_LABEL + previous.value + "" == lead;
    } else {
      assert Concat(Fragments(round)) == "" + Concat(entries);
    }
  }

  lemma SummaryIsAnswer(summary: string, n: nat, replies: nat -> Reply)
    requires n > 0 && RunningSummary(replies, n - 1) == Some(summary)
    ensures IsAnswerTo(summary, n, replies)
  {
    StripIsMiddle(replies(n - 1).text);
  }

  /**
   * The requests told the model all of these messages: their text, calls and results, in order, beside the summary
   * before; and the new summary is the model's answer to the last of them.
   */
  ghost predicate ToldModel(round: seq<Request>, start: nat, messages: seq<Message>, previous: Option<string>,
                            summary: string, replies: nat -> Reply)
  {
    && IsAnswerTo(summary, start + |round|, replies)
    && exists entries :: TellsAll(entries, messages) && SpellOut(round, Concat(entries), previous)
  }

  lemma RoundTellsModel(round: seq<Request>, start: nat, messages: seq<Message>, previous: Option<string>,
                        summary: string, estimate: Estimator, budget: int, replies: nat -> Reply)
    requires round != []
    requires Consume(Fragments(round), StartEntries(SerializeEntries(messages), previous, estimate, budget)) == Some([])
    requires Chained(round, StartSummary(previous, estimate, budget), replies, start)
    requires RunningSummary(replies, start + |round| - 1) == Some(summary)
    ensures ToldModel(round, start, messages, previous, summary, replies)
  {
    EntriesTellAll(messages);
    RoundSpellsOut(round, SerializeEntries(messages), previous, estimate, budget, replies, start);
    SummaryIsAnswer(summary, start + |round|, replies);
  }

  // ---------------------------------------------------------------- summaries of summaries

  /** The round told the model this text: the payload to begin with, later the answer before it. */
  ghost predicate RoundFor(round: seq<Request>, text: string, at: nat, payload: string, replies: nat -> Reply,
                           start: nat)
  {
    SpellOut(round, text, None) && if at == 0 then text == payload else IsAnswerTo(text, start + at, replies)
  }

  ghost predicate IsRound(round: seq<Request>, at: nat, payload: string, replies: nat -> Reply, start: nat) {
    exists text :: RoundFor(round, text, at, payload, replies, start)
  }

  ghost predicate RoundOf(sent: seq<Request>, cuts: seq<nat>, k: nat, payload: string, replies: nat -> Reply,
                          start: nat)
    requires k + 1 < |cuts|
  {
    && cuts[k] < cuts[k + 1] <= |sent|
    && IsRound(sent[cuts[k]..cuts[k + 1]], cuts[k], payload, replies, start)
  }

  ghost predicate InRounds(sent: seq<Request>, cuts: seq<nat>, payload: string, replies: nat -> Reply, start: nat) {
    && cuts != [] && cuts[0] == 0 && cuts[|cuts| - 1] == |sent|
    && forall k {:trigger RoundOf(sent, cuts, k, payload, replies, start)} :: 0 <= k < |cuts| - 1 ==>
         RoundOf(sent, cuts, k, payload, replies, start)
  }

  lemma RoundStays(sent: seq<Request>, cuts: seq<nat>, k: nat, payload: string, replies: nat -> Reply, start: nat,
                   round: seq<Request>, cut: nat)
    requires k + 1 < |cuts| && RoundOf(sent, cuts, k, payload, replies, start)
    ensures RoundOf(sent + round, cuts + [cut], k, payload, replies, start)
  {
    assert (sent + round)[cuts[k]..cuts[k + 1]] == sent[cuts[k]..cuts[k + 1]];
  }

  lemma LastRound(sent: seq<Request>, round: seq<Request>)
    ensures (sent + round)[|sent|..|sent + round|] == round
  {
  }

  lemma OneMoreRound(sent: seq<Request>, cuts: seq<nat>, payload: string, replies: nat -> Reply, start: nat,
                     round: seq<Request>, text: string)
    requires InRounds(sent, cuts, payload, replies, start) && round != []
    requires RoundFor(round, text, |sent|, payload, replies, start)
    ensures InRounds(sent + round, cuts + [|sent + round|], payload, replies, start)
  {
    var all, more := sent + round, cuts + [|sent + round|];
    forall k | 0 <= k < |more| - 1 ensures RoundOf(all, more, k, payload, replies, start) {
      if k < |cuts| - 1 {
        RoundStays(sent, cuts, k, payload, replies, start, round, |all|);
      } else {
        LastRound(sent, round);
      }
    }
  }

  /** A round for one text with a heading spells the text out. */
  lemma TextIsSpelt(round: seq<Request>, heading: string, text: string, estimate: Estimator, budget: int,
                    replies: nat -> Reply, start: nat)
    requires round != []
    requires Consume(Fragments(round), StartEntries([heading + text], None, estimate, budget)) == Some([])
    requires Chained(round, StartSummary(None, estimate, budget), replies, start)
    ensures SpellOut(round, text, None)
  {
    RoundSpellsOut(round, [heading + text], None, estimate, budget, replies, start);
    assert [heading + text][1..] == [];
    assert Concat([heading + text]) == heading + text;
    var lead: string :| Concat(Fragments(round)) == lead + Concat([heading + text]);
    assert Concat(Fragments(round)) == (lead + heading) + text;
  }
}
