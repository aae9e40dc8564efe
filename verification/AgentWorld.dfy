/**
 * What the agent loop meets: the model, the summariser, the tools and the moment of an abort are arbitrary. `World`
 * gives a reply for every request number, a result for every call of every iteration, and the iteration whose start
 * sees the abort signal. From it follows what a run says and records.
 */
module AgentWorld {
  import opened Text
  import opened Transcript
  import opened Summarizer

  datatype StopReason = Complete | OverflowStop | LengthStop | ErrorStop | AbortedStop

  /** `replayable` replies carry an assistant message of their own; the others are rebuilt from their text. */
  datatype ChatReply =
    | Turn(content: Option<string>, calls: seq<ToolCall>, stop: StopReason, replayable: bool)
    | ProviderError(overflow: bool)

  datatype World = World(
    chat: nat -> ChatReply,
    summaries: nat -> Reply,
    tools: (nat, nat) -> Option<string>,
    abortAt: nat)

  // ---------------------------------------------------------------- messages the loop adds

  function UserMessage(prompt: string): Message {
    Message(User, Some(prompt), [], "", false)
  }

  function SystemMessage(text: string): Message {
    Message(System, Some(text), [], "", false)
  }

  function SystemText(systemPrompt: string, toolNames: seq<string>): string {
    var text := Strip(systemPrompt);
    if text == "" && toolNames != [] then "Tool protocol: " + Join(toolNames, ", ") + "." else text
  }

  /** What a prompt adds to the history it is given. */
  function InitialMessages(history: seq<Message>, systemText: string, userPrompt: string): seq<Message> {
    (if systemText != "" && history == [] then [SystemMessage(systemText)] else []) + [UserMessage(userPrompt)]
  }

  function AssistantMessage(reply: ChatReply): Message
    requires reply.Turn?
  {
    var content :=
      if reply.replayable || (reply.content.Some? && Strip(reply.content.value) != "") then reply.content else None;
    Message(Assistant, content, reply.calls, "", false)
  }

  function ToolMessage(call: ToolCall, index: nat, text: string): Message {
    Message(Tool, Some(text), [], NormalizedId(call, index), false)
  }

  /** The error a reply is turned into when the turn is not complete. */
  function TurnError(reply: ChatReply): Option<Error> {
    match reply
    case ProviderError(overflow) => Some(if overflow then ContextOverflow else ModelFailed)
    case Turn(_, _, stop, _) =>
      match stop
      case Complete => None
      case OverflowStop => Some(ContextOverflow)
      case _ => Some(ModelFailed)
  }

  // ---------------------------------------------------------------- what is asked and answered

  /** The n-th request is answered by a complete turn. */
  predicate Replied(w: World, n: nat) {
    TurnError(w.chat(n)).None?
  }

  predicate Overflowed(w: World, n: nat) {
    TurnError(w.chat(n)) == Some(ContextOverflow)
  }

  /** How many of the first n requests were answered by a complete turn. */
  function Replies(w: World, n: nat): nat {
    if n == 0 then 0 else Replies(w, n - 1) + if Replied(w, n - 1) then 1 else 0
  }

  function AnswerText(w: World, iteration: nat, i: nat): string {
    if w.tools(iteration, i).Some? then w.tools(iteration, i).value else ""
  }

  /** The results of the first n calls, as the tools gave them. */
  function Answers(w: World, iteration: nat, calls: seq<ToolCall>, n: nat): seq<Message>
    requires n <= |calls|
  {
    seq(n, i requires 0 <= i < n => ToolMessage(calls[i], i, AnswerText(w, iteration, i)))
  }

  /** A complete reply and the results of its calls. */
  function Exchange(w: World, n: nat, iteration: nat): seq<Message>
    requires Replied(w, n)
  {
    [AssistantMessage(w.chat(n))] + Answers(w, iteration, w.chat(n).calls, |w.chat(n).calls|)
  }

  /** Everything the model and the tools say in answer to the first n requests. */
  function Said(w: World, n: nat): seq<Message> {
    if n == 0 then []
    else if !Replied(w, n - 1) then Said(w, n - 1)
    else Said(w, n - 1) + Exchange(w, n - 1, Replies(w, n - 1) + 1)
  }

  predicate HasAnswer(w: World, iteration: nat, i: nat) {
    w.tools(iteration, i).Some?
  }

  predicate AllAnswered(w: World, iteration: nat, calls: seq<ToolCall>) {
    forall i :: 0 <= i < |calls| ==> HasAnswer(w, iteration, i)
  }

  predicate BatchAnswered(w: World, n: nat)
    requires Replied(w, n)
  {
    AllAnswered(w, Replies(w, n) + 1, w.chat(n).calls)
  }

  /** After the k-th of n requests the run goes on: it has tool results to show, or an overflow was made good. */
  predicate GoesOn(w: World, k: nat, n: nat) {
    if Replied(w, k) then w.chat(k).calls != [] && BatchAnswered(w, k)
    else Overflowed(w, k) && k + 1 < n && Replied(w, k + 1)
  }

  predicate AtHead(w: World, n: nat) {
    forall k :: 0 <= k < n ==> GoesOn(w, k, n)
  }

  /** The run goes on up to the last of n requests, which is answered by a complete turn. */
  predicate AtReply(w: World, n: nat) {
    n > 0 && Replied(w, n - 1) && forall k :: 0 <= k < n - 1 ==> GoesOn(w, k, n)
  }

  /** The reply to the n-th request is the first that asks for no tool. */
  predicate Settles(w: World, n: nat) {
    AtReply(w, n) && w.chat(n - 1).calls == []
  }

  function FinalText(reply: ChatReply): string
    requires reply.Turn?
  {
    if reply.content.Some? then Strip(reply.content.value) else ""
  }

  /** The request after the first n was answered, or overflowed and was answered when made again. */
  predicate TurnDone(w: World, n: nat, after: nat) {
    || (after == n + 1 && Replied(w, n))
    || (after == n + 2 && Overflowed(w, n) && Replied(w, n + 1))
  }

  lemma {:induction false} TurnAdvances(w: World, n: nat, after: nat)
    requires TurnDone(w, n, after)
    ensures Replied(w, after - 1) && Replies(w, after) == Replies(w, n) + 1
    ensures AtHead(w, n) ==> AtReply(w, after)
    ensures AtHead(w, n) && w.chat(after - 1).calls != [] && BatchAnswered(w, after - 1) ==> AtHead(w, after)
  {
    if AtHead(w, n) {
      forall k | 0 <= k < after - 1 ensures GoesOn(w, k, after) {
        if k < n {
          assert GoesOn(w, k, n);
        }
      }
    }
  }

  // ---------------------------------------------------------------- in the words of the model and the tools

  /** The model finished its turn. */
  predicate IsComplete(reply: ChatReply) {
    reply.Turn? && reply.stop.Complete?
  }

  /** The provider says that the context is too long, as an error or as the reason it stopped. */
  predicate IsOverflow(reply: ChatReply) {
    || (reply.ProviderError? && reply.overflow)
    || (reply.Turn? && reply.stop.OverflowStop?)
  }

  /** How many of the first n replies finish their turn. */
  function TurnsIn(w: World, n: nat): nat {
    if n == 0 then 0 else TurnsIn(w, n - 1) + if IsComplete(w.chat(n - 1)) then 1 else 0
  }

  /** How many messages the first n replies make: one for each that finishes its turn, and one for each of its calls. */
  function MessagesIn(w: World, n: nat): nat {
    if n == 0 then 0
    else MessagesIn(w, n - 1) + if IsComplete(w.chat(n - 1)) then 1 + |w.chat(n - 1).calls| else 0
  }

  /** The message is the reply: its text, unless it is rebuilt from a blank one, and its calls. */
  predicate IsReply(m: Message, reply: ChatReply)
    requires reply.Turn?
  {
    && m.role == Assistant && m.calls == reply.calls && !m.marked
    && (reply.replayable ==> m.content == reply.content)
    && (!reply.replayable && reply.content.Some? && !AllSpace(reply.content.value) ==> m.content == reply.content)
    && (!reply.replayable && (reply.content.None? || AllSpace(reply.content.value)) ==> m.content == None)
  }

  /** The message is the tool's answer to the call, under the call's id or, when that is blank, its position. */
  ghost predicate IsAnswer(m: Message, call: ToolCall, position: nat, answer: Option<string>) {
    && m.role == Tool && m.calls == [] && !m.marked
    && (answer.Some? ==> m.content == answer)
    && (!AllSpace(call.id) ==> TrimmedFrom(m.callId, call.id))
    && (AllSpace(call.id) ==> exists digits :: m.callId == "tool-call-" + digits && Spells(digits, position))
  }

  predicate GotAnswer(call: ToolCall, answer: Option<string>) {
    answer.Some?
  }

  ghost predicate AnswerAt(said: seq<Message>, start: nat, i: nat, calls: seq<ToolCall>, w: World, iteration: nat)
    requires i < |calls| && start + i < |said|
  {
    IsAnswer(said[start + i], calls[i], i, w.tools(iteration, i))
  }

  ghost predicate AnswersAt(said: seq<Message>, start: nat, calls: seq<ToolCall>, w: World, iteration: nat) {
    start + |calls| <= |said|
    && forall i {:trigger AnswerAt(said, start, i, calls, w, iteration)} :: 0 <= i < |calls| ==>
         AnswerAt(said, start, i, calls, w, iteration)
  }

  /** Where the k-th reply has to be, there it is, and the answers to its calls follow it in order. */
  ghost predicate SaidAt(said: seq<Message>, w: World, k: nat) {
    IsComplete(w.chat(k)) ==>
      && MessagesIn(w, k) < |said| && IsReply(said[MessagesIn(w, k)], w.chat(k))
      && AnswersAt(said, MessagesIn(w, k) + 1, w.chat(k).calls, w, TurnsIn(w, k) + 1)
  }

  /** The messages are the first n replies and the answers to their calls: all of them, in order and nothing else. */
  ghost predicate WordForWord(said: seq<Message>, w: World, n: nat) {
    |said| == MessagesIn(w, n) && forall k {:trigger SaidAt(said, w, k)} :: 0 <= k < n ==> SaidAt(said, w, k)
  }

  lemma CompleteIsReplied(w: World, n: nat)
    ensures Replied(w, n) <==> IsComplete(w.chat(n))
    ensures Overflowed(w, n) <==> IsOverflow(w.chat(n))
  {
  }

  lemma {:induction false} TurnsAreReplies(w: World, n: nat)
    ensures TurnsIn(w, n) == Replies(w, n)
  {
    if n > 0 {
      TurnsAreReplies(w, n - 1);
    }
  }

  lemma MessageIsReply(reply: ChatReply)
    requires reply.Turn?
    ensures IsReply(AssistantMessage(reply), reply)
  {
    if reply.content.Some? {
      StripTrims(reply.content.value);
    }
  }

  lemma {:induction false} MessageIsAnswer(w: World, iteration: nat, call: ToolCall, i: nat)
    ensures IsAnswer(ToolMessage(call, i, AnswerText(w, iteration, i)), call, i, w.tools(iteration, i))
  {
    StripTrims(call.id);
    StripIsMiddle(call.id);
    DecimalSpells(i);
  }

  lemma AnswersStay(earlier: seq<Message>, more: seq<Message>, start: nat, calls: seq<ToolCall>, w: World,
                    iteration: nat)
    requires AnswersAt(earlier, start, calls, w, iteration)
    ensures AnswersAt(earlier + more, start, calls, w, iteration)
  {
    var all := earlier + more;
    forall i | 0 <= i < |calls| ensures AnswerAt(all, start, i, calls, w, iteration) {
      assert AnswerAt(earlier, start, i, calls, w, iteration);
      assert all[start + i] == earlier[start + i];
    }
  }

  lemma {:induction false} SaidStays(earlier: seq<Message>, more: seq<Message>, w: World, k: nat)
    requires SaidAt(earlier, w, k)
    ensures SaidAt(earlier + more, w, k)
  {
    if IsComplete(w.chat(k)) {
      AnswersStay(earlier, more, MessagesIn(w, k) + 1, w.chat(k).calls, w, TurnsIn(w, k) + 1);
    }
  }

  lemma {:induction false} AnswersFollow(before: seq<Message>, w: World, iteration: nat, calls: seq<ToolCall>)
    ensures AnswersAt(before + Answers(w, iteration, calls, |calls|), |before|, calls, w, iteration)
  {
    var answers := Answers(w, iteration, calls, |calls|);
    forall i | 0 <= i < |calls| ensures AnswerAt(before + answers, |before|, i, calls, w, iteration) {
      assert (before + answers)[|before| + i] == answers[i];
      MessageIsAnswer(w, iteration, calls[i], i);
    }
  }

  lemma Regrouped(a: seq<Message>, m: Message, b: seq<Message>)
    ensures a + ([m] + b) == (a + [m]) + b && (a + ([m] + b))[|a|] == m && |a + ([m] + b)| == |a| + 1 + |b|
  {
  }

  lemma {:induction false} PutTogether(said: seq<Message>, w: World, k: nat, start: nat, iteration: nat)
    requires start == MessagesIn(w, k) < |said| && iteration == TurnsIn(w, k) + 1 && w.chat(k).Turn?
    requires IsReply(said[start], w.chat(k)) && AnswersAt(said, start + 1, w.chat(k).calls, w, iteration)
    ensures SaidAt(said, w, k)
  {
  }

  lemma {:induction false} ExchangeIsSaid(earlier: seq<Message>, w: World, k: nat)
    requires Replied(w, k) && |earlier| == MessagesIn(w, k)
    ensures SaidAt(earlier + Exchange(w, k, Replies(w, k) + 1), w, k)
  {
    var reply, iteration := w.chat(k), Replies(w, k) + 1;
    var answers := Answers(w, iteration, reply.calls, |reply.calls|);
    TurnsAreReplies(w, k);
    MessageIsReply(reply);
    Regrouped(earlier, AssistantMessage(reply), answers);
    AnswersFollow(earlier + [AssistantMessage(reply)], w, iteration, reply.calls);
    PutTogether(earlier + ([AssistantMessage(reply)] + answers), w, k, |earlier|, iteration);
  }

  /** What is said in answer to n requests is word for word what the model and the tools gave. */
  lemma {:induction false} SaidWordForWord(w: World, n: nat)
    ensures WordForWord(Said(w, n), w, n)
  {
    if n > 0 {
      SaidWordForWord(w, n - 1);
      CompleteIsReplied(w, n - 1);
      if Replied(w, n - 1) {
        OneMoreSaid(Said(w, n - 1), w, n - 1);
      } else {
        assert !IsComplete(w.chat(n - 1));
        forall k | 0 <= k < n ensures SaidAt(Said(w, n), w, k) {
          assert k < n - 1 ==> SaidAt(Said(w, n - 1), w, k);
        }
      }
    }
  }

  lemma {:induction false} OneMoreSaid(earlier: seq<Message>, w: World, n: nat)
    requires WordForWord(earlier, w, n) && Replied(w, n)
    ensures WordForWord(earlier + Exchange(w, n, Replies(w, n) + 1), w, n + 1)
  {
    var exchange := Exchange(w, n, Replies(w, n) + 1);
    CompleteIsReplied(w, n);
    ExchangeIsSaid(earlier, w, n);
    forall k | 0 <= k < n ensures SaidAt(earlier + exchange, w, k) {
      assert SaidAt(earlier, w, k);
      SaidStays(earlier, exchange, w, k);
    }
  }

  /** The messages begin with what a prompt adds: the system text on an empty history, then the user's words. */
  ghost predicate OpensWith(all: seq<Message>, history: seq<Message>, systemPrompt: string, toolNames: seq<string>,
                            userPrompt: string)
  {
    var n := if history == [] && (!AllSpace(systemPrompt) || toolNames != []) then 1 else 0;
    && |all| > n && all[n].role == User && all[n].content == Some(userPrompt) && all[n].calls == [] && !all[n].marked
    && (n == 1 ==>
          && all[0].role == System && all[0].content.Some? && all[0].calls == []
          && (!AllSpace(systemPrompt) ==> TrimmedFrom(all[0].content.value, systemPrompt))
          && (AllSpace(systemPrompt) ==>
                forall i {:trigger toolNames[i]} :: 0 <= i < |toolNames| ==>
                  Inside(toolNames[i], all[0].content.value)))
  }

  lemma PromptOpens(history: seq<Message>, systemPrompt: string, toolNames: seq<string>, userPrompt: string,
                    more: seq<Message>)
    ensures OpensWith(InitialMessages(history, SystemText(systemPrompt, toolNames), userPrompt) + more, history,
                      systemPrompt, toolNames, userPrompt)
  {
    var text := SystemText(systemPrompt, toolNames);
    StripTrims(systemPrompt);
    StripIsMiddle(systemPrompt);
    if AllSpace(systemPrompt) {
      forall i | 0 <= i < |toolNames| ensures Inside(toolNames[i], text) {
        PartInJoin(toolNames, ", ", i);
        InsideMore(toolNames[i], Join(toolNames, ", "), "Tool protocol: ", ".");
      }
    }
  }

  /** The text of a result is the model's own, without the white space around it. */
  ghost predicate IsTextOf(text: string, reply: ChatReply)
    requires reply.Turn?
  {
    if reply.content.Some? then TrimmedFrom(text, reply.content.value) else text == ""
  }

  lemma FinalTextIs(reply: ChatReply)
    requires reply.Turn?
    ensures IsTextOf(FinalText(reply), reply)
  {
    if reply.content.Some? {
      StripIsMiddle(reply.content.value);
    }
  }
}
