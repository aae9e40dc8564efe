/** Compacting a transcript: what is pinned, what is kept, what is summarised, and when the result fits. */
module Compaction {
  import opened Arithmetic
  import opened Text
  import opened Budget
  import opened Transcript
  import opened Summarizer
  import opened Serialization

  type ContextEstimator = seq<Message> -> nat

  // ---------------------------------------------------------------- splitting

  // What reading the first i messages has settled about each part.

  predicate SystemRead(messages: seq<Message>, i: nat, system: Option<Message>)
    requires i <= |messages|
  {
    FirstSystem(messages) == if system.Some? then system else FirstSystem(messages[i..])
  }

  predicate SummaryRead(messages: seq<Message>, i: nat, previous: Option<string>)
    requires i <= |messages|
  {
    LastSummary(messages) == if LastSummary(messages[i..]).Some? then LastSummary(messages[i..]) else previous
  }

  predicate HistoryRead(messages: seq<Message>, i: nat, systemSeen: bool, history: seq<Message>)
    requires i <= |messages|
  {
    var u := LastUser(messages);
    Unpinned(messages, u, false) == history + Unpinned(messages[i..], u - i, systemSeen)
  }

  lemma SystemReadOn(messages: seq<Message>, i: nat, system: Option<Message>)
    requires i < |messages| && SystemRead(messages, i, system)
    ensures SystemRead(messages, i + 1, if messages[i].role == System && system.None? then Some(messages[i]) else system)
  {
    assert messages[i..][1..] == messages[i + 1..];
  }

  lemma SummaryReadOn(messages: seq<Message>, i: nat, previous: Option<string>)
    requires i < |messages| && SummaryRead(messages, i, previous)
    ensures SummaryRead(messages, i + 1, if IsSummary(messages[i]) then Some(SummaryText(messages[i])) else previous)
  {
    assert messages[i..][1..] == messages[i + 1..];
  }

  lemma HistoryReadOn(messages: seq<Message>, i: nat, systemSeen: bool, history: seq<Message>)
    requires i < |messages| && HistoryRead(messages, i, systemSeen, history)
    ensures var m := messages[i];
            var pinned := (m.role == System && !systemSeen) || IsSummary(m) || i == LastUser(messages);
            HistoryRead(messages, i + 1, systemSeen || m.role == System, if pinned then history else history + [m])
  {
    var rest := messages[i..];
    assert rest[0] == messages[i] && rest[1..] == messages[i + 1..];
    Reassociate(history, [rest[0]], Unpinned(rest[1..], LastUser(messages) - i - 1, systemSeen || rest[0].role == System));
  }

  lemma Reassociate(a: seq<Message>, b: seq<Message>, c: seq<Message>)
    ensures a + (b + c) == (a + b) + c
  {
  }

  method SplitTranscript(messages: seq<Message>) returns (parts: Parts)
    ensures parts.system == PartsOf(messages).system && parts.user == PartsOf(messages).user
    ensures parts.summary == PartsOf(messages).summary && parts.history == PartsOf(messages).history
    ensures SplitsInto(messages, parts)
  {
    PartsAreSplit(messages);
    var u := LastUser(messages);
    var system: Option<Message> := None;
    var previous: Option<string> := None;
    var history: seq<Message> := [];
    for i := 0 to |messages|
      invariant SystemRead(messages, i, system)
      invariant SummaryRead(messages, i, previous)
      invariant HistoryRead(messages, i, system.Some?, history)
    {
      var m := messages[i];
      SystemReadOn(messages, i, system);
      SummaryReadOn(messages, i, previous);
      HistoryReadOn(messages, i, system.Some?, history);
      if m.role == System && system.None? {
        system := Some(m);
      } else if IsSummary(m) {
        previous := Some(SummaryText(m));
      } else if i != u {
        history := history + [m];
      }
    }
    return Parts(system, if u < 0 then None else Some(messages[u]), previous, history);
  }

  // ---------------------------------------------------------------- turns

  function Flatten(turns: seq<seq<Message>>): seq<Message> {
    if turns == [] then [] else Flatten(turns[..|turns| - 1]) + turns[|turns| - 1]
  }

  lemma {:induction false} FlattenConcat(a: seq<seq<Message>>, b: seq<seq<Message>>)
    ensures Flatten(a + b) == Flatten(a) + Flatten(b)
  {
    if b == [] {
      assert a + b == a;
    } else {
      var ab := a + b;
      assert ab[..|ab| - 1] == a + b[..|b| - 1];
      FlattenConcat(a, b[..|b| - 1]);
      assert Flatten(ab) == Flatten(a) + (Flatten(b[..|b| - 1]) + b[|b| - 1]);
    }
  }

  predicate NoneAssistant(ms: seq<Message>) {
    forall i :: 0 <= i < |ms| ==> ms[i].role != Assistant
  }

  /** A turn is an assistant message with all that follows it, or one message that comes before any assistant. */
  predicate IsTurn(turn: seq<Message>) {
    turn != [] && NoneAssistant(turn[1..]) && (turn[0].role != Assistant ==> |turn| == 1)
  }

  /** No assistant has spoken yet. */
  predicate OnlyLeading(turns: seq<seq<Message>>) {
    turns == [] ||
    var last := turns[|turns| - 1];
    |last| == 1 && last[0].role != Assistant && OnlyLeading(turns[..|turns| - 1])
  }

  predicate AreTurns(turns: seq<seq<Message>>) {
    turns == [] ||
    var last, front := turns[|turns| - 1], turns[..|turns| - 1];
    IsTurn(last) && AreTurns(front) && (last[0].role == Assistant || OnlyLeading(front))
  }

  lemma {:induction false} TurnAt(turns: seq<seq<Message>>, k: nat)
    requires AreTurns(turns) && k < |turns|
    ensures IsTurn(turns[k])
    ensures turns[k][0].role != Assistant ==> OnlyLeading(turns[..k])
  {
    var front := turns[..|turns| - 1];
    if k < |front| {
      TurnAt(front, k);
      assert front[..k] == turns[..k];
    }
  }

  /** The turns read so far and the one being read. */
  predicate Reading(turns: seq<seq<Message>>, current: seq<Message>, read: seq<Message>) {
    && AreTurns(turns)
    && Flatten(turns) + current == read
    && if current == [] then OnlyLeading(turns) else IsTurn(current) && current[0].role == Assistant
  }

  lemma CloseTurn(turns: seq<seq<Message>>, current: seq<Message>, read: seq<Message>)
    requires Reading(turns, current, read) && current != []
    ensures AreTurns(turns + [current]) && Flatten(turns + [current]) == read
  {
    var more := turns + [current];
    assert more[..|more| - 1] == turns;
  }

  lemma OpenTurn(turns: seq<seq<Message>>, read: seq<Message>, m: Message)
    requires AreTurns(turns) && Flatten(turns) == read && m.role == Assistant
    ensures Reading(turns, [m], read + [m])
  {
  }

  lemma ExtendTurn(turns: seq<seq<Message>>, current: seq<Message>, read: seq<Message>, m: Message)
    requires Reading(turns, current, read) && m.role != Assistant && current != []
    ensures Reading(turns, current + [m], read + [m])
  {
    assert (current + [m])[1..] == current[1..] + [m];
    assert Flatten(turns) + (current + [m]) == read + [m];
  }

  lemma LeadTurn(turns: seq<seq<Message>>, read: seq<Message>, m: Message)
    requires Reading(turns, [], read) && m.role != Assistant
    ensures Reading(turns + [[m]], [], read + [m])
  {
    var more := turns + [[m]];
    assert more[..|more| - 1] == turns;
    assert Flatten(more) == read + [m];
  }

  method HistoryTurns(history: seq<Message>) returns (turns: seq<seq<Message>>)
    ensures AreTurns(turns) && Flatten(turns) == history
  {
    turns := [];
    var current: seq<Message> := [];
    for i := 0 to |history|
      invariant Reading(turns, current, history[..i])
    {
      var m := history[i];
      assert history[..i + 1] == history[..i] + [m];
      if m.role == Assistant {
        if current != [] {
          CloseTurn(turns, current, history[..i]);
          turns := turns + [current];
        }
        OpenTurn(turns, history[..i], m);
        current := [m];
      } else if current != [] {
        ExtendTurn(turns, current, history[..i], m);
        current := current + [m];
      } else {
        LeadTurn(turns, history[..i], m);
        turns := turns + [[m]];
      }
    }
    assert history[..|history|] == history;
    if current != [] {
      CloseTurn(turns, current, history);
      turns := turns + [current];
    }
  }

  lemma FlattenStartsWith(turns: seq<seq<Message>>)
    requires turns != [] && turns[0] != []
    ensures Flatten(turns) != [] && Flatten(turns)[0] == turns[0][0]
  {
    assert turns == [turns[0]] + turns[1..];
    FlattenConcat([turns[0]], turns[1..]);
    assert [turns[0]][..0] == [];
    assert Flatten([turns[0]]) == turns[0];
  }

  /** Before the first assistant message nothing can be answered. */
  lemma NoLeadingResult(a: seq<Message>, b: seq<Message>)
    requires NoneAssistant(a) && b != [] && Paired(a + b)
    ensures b[0].role != Tool
  {
    PairAllConcat(SETTLED, a, b);
    NoCallsOwed(a);
    BrokenStays(b);
    BrokenStays(b[1..]);
  }

  lemma FlattenAt(turns: seq<seq<Message>>, k: nat)
    requires k <= |turns|
    ensures Flatten(turns) == Flatten(turns[..k]) + Flatten(turns[k..])
  {
    assert turns == turns[..k] + turns[k..];
    FlattenConcat(turns[..k], turns[k..]);
  }

  /** What follows a turn boundary of a paired history is no tool result. */
  lemma NoResultAtBoundary(turns: seq<seq<Message>>, k: nat)
    requires AreTurns(turns) && k < |turns| && Paired(Flatten(turns))
    ensures Flatten(turns[k..]) != [] && Flatten(turns[k..])[0].role != Tool
  {
    TurnAt(turns, k);
    FlattenStartsWith(turns[k..]);
    if turns[k][0].role != Assistant {
      FlattenAt(turns, k);
      LeadingTurns(turns[..k]);
      NoLeadingResult(Flatten(turns[..k]), Flatten(turns[k..]));
    }
  }

  /** Cutting a paired history between two turns never separates a call from its results. */
  lemma TurnCutKeepsPairing(turns: seq<seq<Message>>, k: nat)
    requires AreTurns(turns) && k <= |turns| && Paired(Flatten(turns))
    ensures Paired(Flatten(turns[..k])) && Paired(Flatten(turns[k..]))
  {
    FlattenAt(turns, k);
    if k < |turns| {
      NoResultAtBoundary(turns, k);
    }
    CutKeepsPairing(Flatten(turns[..k]), Flatten(turns[k..]));
  }

  lemma {:induction false} LeadingTurns(turns: seq<seq<Message>>)
    requires OnlyLeading(turns)
    ensures NoneAssistant(Flatten(turns))
  {
    if turns != [] {
      LeadingTurns(turns[..|turns| - 1]);
    }
  }

  lemma {:induction false} NoCallsOwed(ms: seq<Message>)
    requires NoneAssistant(ms)
    ensures PairAll(SETTLED, ms) in {SETTLED, Broken}
  {
    if ms != [] {
      BrokenStays(ms[1..]);
      NoCallsOwed(ms[1..]);
    }
  }

  // ---------------------------------------------------------------- the suffix that is kept

  function TurnTokens(turns: seq<seq<Message>>, estimate: ContextEstimator): nat {
    if turns == [] then 0 else estimate(turns[0]) + TurnTokens(turns[1..], estimate)
  }

  lemma {:induction false} LongerSuffixCostsMore(turns: seq<seq<Message>>, n: nat, estimate: ContextEstimator)
    requires n <= |turns|
    ensures TurnTokens(turns[n..], estimate) <= TurnTokens(turns, estimate)
  {
    if n > 0 {
      LongerSuffixCostsMore(turns[1..], n - 1, estimate);
      assert turns[1..][n - 1..] == turns[n..];
    }
  }

  /** The tokens of some turns are those of each, added up. */
  lemma {:induction false} TurnTokensAdd(turns: seq<seq<Message>>, more: seq<seq<Message>>, turn: seq<Message>,
                                         estimate: ContextEstimator)
    ensures TurnTokens(turns + more, estimate) == TurnTokens(turns, estimate) + TurnTokens(more, estimate)
    ensures TurnTokens([turn], estimate) == estimate(turn) && TurnTokens([], estimate) == 0
  {
    if turns == [] {
      assert turns + more == more;
    } else {
      TurnTokensAdd(turns[1..], more, turn, estimate);
      assert (turns + more)[1..] == turns[1..] + more;
    }
  }

  /** The kept turns fit, and no longer suffix of turns does. */
  ghost predicate LongestSuffix(turns: seq<seq<Message>>, k: nat, budget: nat, estimate: ContextEstimator) {
    && k <= |turns|
    && TurnTokens(turns[k..], estimate) <= budget
    && (forall j :: 0 <= j < k ==> TurnTokens(turns[j..], estimate) > budget)
  }

  /** The messages are the turns of the history from the k-th on. */
  ghost predicate KeepsFrom(history: seq<Message>, retained: seq<Message>, turns: seq<seq<Message>>, k: nat) {
    AreTurns(turns) && Flatten(turns) == history && k <= |turns| && retained == Flatten(turns[k..])
  }

  method RetainedHistorySuffix(history: seq<Message>, budget: nat, estimate: ContextEstimator)
    returns (retained: seq<Message>)
    ensures exists turns, k :: KeepsFrom(history, retained, turns, k) && LongestSuffix(turns, k, budget, estimate)
  {
    var all := HistoryTurns(history);
    var kept: seq<seq<Message>> := [];
    var used := 0;
    var i := |all|;
    while i > 0
      invariant 0 <= i <= |all| && kept == all[i..]
      invariant used == TurnTokens(all[i..], estimate) <= budget
      decreases i
    {
      var turnTokens := estimate(all[i - 1]);
      assert all[i - 1..][1..] == all[i..];
      if turnTokens > budget - used {
        break;
      }
      i := i - 1;
      kept := [all[i]] + kept;
      used := used + turnTokens;
    }
    if i > 0 {
      forall j | 0 <= j < i ensures TurnTokens(all[j..], estimate) > budget {
        LongerSuffixCostsMore(all[j..], i - 1 - j, estimate);
        assert all[j..][i - 1 - j..] == all[i - 1..];
      }
    }
    retained := Flatten(kept);
    assert KeepsFrom(history, retained, all, i) && LongestSuffix(all, i, budget, estimate);
  }

  // ---------------------------------------------------------------- one candidate

  datatype Candidate = Candidate(summary: string, messages: seq<Message>, tokens: nat)

  /** A summary request is within its input budget, and is granted the whole cap it asks for. */
  ghost predicate GrantedInFull(q: Request, config: ContextBudgetConfig, estimate: Estimator) {
    && SummaryCap(config, q.outputCap)
    && estimate(PromptOf(q)) <= config.InputBudgetFor(q.outputCap)
    && config.OutputTokensFor(estimate(PromptOf(q)), Some(q.outputCap)) == Some(q.outputCap)
  }

  ghost predicate Granted(sent: seq<Request>, config: ContextBudgetConfig, estimate: Estimator) {
    forall i :: 0 <= i < |sent| ==> GrantedInFull(sent[i], config, estimate)
  }

  lemma GrantedMore(a: seq<Request>, b: seq<Request>, config: ContextBudgetConfig, estimate: Estimator, cap: int)
    requires Granted(a, config, estimate) && config.Valid() && SummaryCap(config, cap)
    requires EachFits(b, estimate, config.InputBudgetFor(cap), cap)
    ensures Granted(a + b, config, estimate)
  {
    forall i | 0 <= i < |b| ensures GrantedInFull(b[i], config, estimate) {
      SummaryCapIsUnclamped(config, estimate(PromptOf(b[i])), cap);
    }
  }

  /**
   * The requests, of which the first is the start-th, carried the whole of the source, each with the answer to the one
   * before it, and the summary is the trimmed answer to the last.
   */
  ghost predicate SummarizedBy(round: seq<Request>, start: nat, source: seq<string>, previous: Option<string>,
                               summary: string, config: ContextBudgetConfig, estimate: Estimator,
                               replies: nat -> Reply)
  {
    && round != [] && Usable(Some(summary))
    && var budget := config.InputBudgetFor(round[0].outputCap);
    && Consume(Fragments(round), StartEntries(source, previous, estimate, budget)) == Some([])
    && Chained(round, StartSummary(previous, estimate, budget), replies, start)
    && RunningSummary(replies, start + |round| - 1) == Some(summary)
  }

  lemma SummarizedTellsModel(round: seq<Request>, start: nat, messages: seq<Message>, previous: Option<string>,
                             summary: string, config: ContextBudgetConfig, estimate: Estimator, replies: nat -> Reply)
    requires SummarizedBy(round, start, SerializeEntries(messages), previous, summary, config, estimate, replies)
    ensures ToldModel(round, start, messages, previous, summary, replies)
  {
    RoundTellsModel(round, start, messages, previous, summary, estimate, config.InputBudgetFor(round[0].outputCap),
                    replies);
  }

  method SummarizeMessages(messages: seq<Message>, previous: Option<string>, config: ContextBudgetConfig,
                           estimate: Estimator, maxOutput: int, replies: nat -> Reply, start: nat)
    returns (r: Outcome<string>, sent: seq<Request>)
    requires config.Valid() && SummaryCap(config, maxOutput)
    ensures EachFits(sent, estimate, config.InputBudgetFor(maxOutput), maxOutput)
    ensures r.Ok? ==>
              SummarizedBy(sent, start, SerializeEntries(messages), previous, r.value, config, estimate, replies)
    ensures r.Raised? ==> NotSummarized(r.error, start + |sent|, replies)
  {
    var entries := SerializeEntries(messages);
    if entries == [] {
      return Raised(NothingToSummarize), [];
    }
    assert ClampCap(config, maxOutput) == maxOutput;
    r, sent := SummarizeEntries(entries, previous, config, estimate, maxOutput, replies, start);
  }

  /** One attempt: its output cap, the number of its first request, what it sent and how it ended. */
  datatype Attempt = Attempt(cap: int, start: nat, sent: seq<Request>, outcome: Outcome<string>)

  function CapAt(config: ContextBudgetConfig, attempt: nat): int {
    if attempt == 0 then config.SummaryOutput() else Max(1, CapAt(config, attempt - 1) / 2)
  }

  /** The last of four attempts asks for an eighth of what the first asks for, and none for nothing. */
  lemma CapsHalve(config: ContextBudgetConfig)
    requires config.Valid()
    ensures CapAt(config, 0) == config.SummaryOutput()
    ensures CapAt(config, 1) == Max(1, config.SummaryOutput() / 2)
    ensures CapAt(config, 2) == Max(1, config.SummaryOutput() / 4)
    ensures CapAt(config, 3) == Max(1, config.SummaryOutput() / 8)
  {
    assert CapAt(config, 3) == Max(1, CapAt(config, 2) / 2);
  }

  function SentBy(attempts: seq<Attempt>): seq<Request> {
    if attempts == [] then [] else SentBy(attempts[..|attempts| - 1]) + attempts[|attempts| - 1].sent
  }

  /** What an attempt to summarise the first n messages establishes. */
  ghost predicate Tried(a: Attempt, parts: Parts, n: nat, config: ContextBudgetConfig, estimate: Estimator,
                        replies: nat -> Reply)
    requires n <= |parts.history|
  {
    && EachFits(a.sent, estimate, config.InputBudgetFor(a.cap), a.cap)
    && (a.outcome.Ok? ==>
          SummarizedBy(a.sent, a.start, SerializeEntries(parts.history[..n]), parts.summary, a.outcome.value, config,
                       estimate, replies))
  }

  /** The attempts follow each other, each with half the cap of the one before. */
  ghost predicate InTurn(attempts: seq<Attempt>, start: nat, parts: Parts, n: nat, config: ContextBudgetConfig,
                         estimate: Estimator, replies: nat -> Reply)
    requires n <= |parts.history|
  {
    forall i :: 0 <= i < |attempts| ==>
      && attempts[i].cap == CapAt(config, i) && attempts[i].start == start + |SentBy(attempts[..i])|
      && Tried(attempts[i], parts, n, config, estimate, replies)
  }

  lemma InTurnMore(attempts: seq<Attempt>, a: Attempt, start: nat, parts: Parts, n: nat, config: ContextBudgetConfig,
                   estimate: Estimator, replies: nat -> Reply)
    requires n <= |parts.history| && InTurn(attempts, start, parts, n, config, estimate, replies)
    requires a.cap == CapAt(config, |attempts|) && a.start == start + |SentBy(attempts)|
    requires Tried(a, parts, n, config, estimate, replies)
    ensures InTurn(attempts + [a], start, parts, n, config, estimate, replies)
    ensures SentBy(attempts + [a]) == SentBy(attempts) + a.sent
  {
    var more := attempts + [a];
    assert more[..|attempts|] == attempts;
    forall i | 0 <= i < |attempts| ensures more[..i] == attempts[..i] && more[i] == attempts[i] {
    }
  }

  /** What would be shown with this summary in place of the first n messages. */
  function Shown(parts: Parts, n: nat, summary: string): seq<Message>
    requires n <= |parts.history|
  {
    Assemble(parts.system, parts.user, summary, parts.history[n..])
  }

  /** The attempt gave no candidate: its summary was too long, or it ran into the budget itself. */
  predicate Useless(a: Attempt, parts: Parts, n: nat, config: ContextBudgetConfig, estimateContext: ContextEstimator)
    requires n <= |parts.history|
  {
    if a.outcome.Ok? then estimateContext(Shown(parts, n, a.outcome.value)) > config.TokenBudget()
    else a.outcome.error != ModelFailed
  }

  predicate AllUseless(attempts: seq<Attempt>, parts: Parts, n: nat, config: ContextBudgetConfig,
                       estimateContext: ContextEstimator)
    requires n <= |parts.history|
  {
    forall i :: 0 <= i < |attempts| ==> Useless(attempts[i], parts, n, config, estimateContext)
  }

  /** A candidate comes from the last attempt, the first whose summary fits. */
  ghost predicate Found(c: Candidate, attempts: seq<Attempt>, parts: Parts, n: nat, config: ContextBudgetConfig,
                        estimateContext: ContextEstimator)
    requires n <= |parts.history|
  {
    && attempts != [] && attempts[|attempts| - 1].outcome == Ok(c.summary)
    && AllUseless(attempts[..|attempts| - 1], parts, n, config, estimateContext)
    && c.messages == Shown(parts, n, c.summary)
    && c.tokens == estimateContext(c.messages) <= config.TokenBudget()
  }

  /** There is none when not even an empty summary leaves room, or when every attempt there is was in vain. */
  ghost predicate NoneFound(attempts: seq<Attempt>, parts: Parts, n: nat, config: ContextBudgetConfig,
                            estimateContext: ContextEstimator)
    requires n <= |parts.history|
  {
    && AllUseless(attempts, parts, n, config, estimateContext)
    && if attempts == [] then estimateContext(Shown(parts, n, "")) >= config.TokenBudget()
       else |attempts| == 4 || attempts[|attempts| - 1].cap <= 1
  }

  /** A series of attempts and what it sent. */
  ghost predicate Series(attempts: seq<Attempt>, sent: seq<Request>, start: nat, parts: Parts, n: nat,
                         config: ContextBudgetConfig, estimate: Estimator, replies: nat -> Reply)
    requires n <= |parts.history|
  {
    && Granted(sent, config, estimate) && sent == SentBy(attempts)
    && InTurn(attempts, start, parts, n, config, estimate, replies)
  }

  lemma SeriesMore(attempts: seq<Attempt>, sent: seq<Request>, a: Attempt, start: nat, parts: Parts, n: nat,
                   config: ContextBudgetConfig, estimate: Estimator, replies: nat -> Reply)
    requires n <= |parts.history| && Series(attempts, sent, start, parts, n, config, estimate, replies)
    requires config.Valid() && SummaryCap(config, a.cap)
    requires a.cap == CapAt(config, |attempts|) && a.start == start + |sent|
    requires Tried(a, parts, n, config, estimate, replies)
    ensures Series(attempts + [a], sent + a.sent, start, parts, n, config, estimate, replies)
  {
    GrantedMore(sent, a.sent, config, estimate, a.cap);
    InTurnMore(attempts, a, start, parts, n, config, estimate, replies);
  }

  lemma UselessMore(attempts: seq<Attempt>, a: Attempt, parts: Parts, n: nat, config: ContextBudgetConfig,
                    estimateContext: ContextEstimator)
    requires n <= |parts.history| && AllUseless(attempts, parts, n, config, estimateContext)
    ensures (attempts + [a])[..|attempts|] == attempts
    ensures Useless(a, parts, n, config, estimateContext) ==>
              AllUseless(attempts + [a], parts, n, config, estimateContext)
  {
  }

  /** Every attempt so far was in vain, and the next one has this cap. */
  ghost predicate Ongoing(attempts: seq<Attempt>, sent: seq<Request>, outputCap: int, start: nat, parts: Parts, n: nat,
                          config: ContextBudgetConfig, estimate: Estimator, estimateContext: ContextEstimator,
                          replies: nat -> Reply)
    requires n <= |parts.history|
  {
    && Series(attempts, sent, start, parts, n, config, estimate, replies)
    && SummaryCap(config, outputCap) && outputCap == CapAt(config, |attempts|)
    && AllUseless(attempts, parts, n, config, estimateContext)
  }

  function CandidateOf(summary: string, parts: Parts, n: nat, estimateContext: ContextEstimator): Candidate
    requires n <= |parts.history|
  {
    Candidate(summary, Shown(parts, n, summary), estimateContext(Shown(parts, n, summary)))
  }

  /** What one more attempt makes of those before it. */
  lemma AttemptMade(earlier: seq<Attempt>, before: seq<Request>, now: Attempt, start: nat, parts: Parts, n: nat,
                    config: ContextBudgetConfig, estimate: Estimator, estimateContext: ContextEstimator,
                    replies: nat -> Reply)
    requires config.Valid() && n <= |parts.history|
    requires Ongoing(earlier, before, now.cap, start, parts, n, config, estimate, estimateContext, replies)
    requires now.start == start + |before| && Tried(now, parts, n, config, estimate, replies)
    ensures var attempts, sent := earlier + [now], before + now.sent;
            && Series(attempts, sent, start, parts, n, config, estimate, replies)
            && now.start + |now.sent| == start + |sent|
            && (now.outcome.Ok? && !Useless(now, parts, n, config, estimateContext) ==>
                  Found(CandidateOf(now.outcome.value, parts, n, estimateContext), attempts, parts, n, config,
                        estimateContext))
            && (Useless(now, parts, n, config, estimateContext) ==>
                  && Ongoing(attempts, sent, Max(1, now.cap / 2), start, parts, n, config, estimate, estimateContext,
                             replies)
                  && (|attempts| == 4 || now.cap <= 1 ==> NoneFound(attempts, parts, n, config, estimateContext)))
  {
    SeriesMore(earlier, before, now, start, parts, n, config, estimate, replies);
    UselessMore(earlier, now, parts, n, config, estimateContext);
  }

  /** One attempt: it gives a candidate, or none where another attempt may do better, or it ends the matter. */
  method AttemptOnce(parts: Parts, n: nat, config: ContextBudgetConfig, estimate: Estimator,
                     estimateContext: ContextEstimator, replies: nat -> Reply, start: nat, before: seq<Request>,
                     ghost earlier: seq<Attempt>, outputCap: int)
    returns (r: Outcome<Option<Candidate>>, sent: seq<Request>, ghost attempts: seq<Attempt>)
    requires config.Valid() && n <= |parts.history|
    requires Ongoing(earlier, before, outputCap, start, parts, n, config, estimate, estimateContext, replies)
    ensures Series(attempts, sent, start, parts, n, config, estimate, replies)
    ensures |attempts| == |earlier| + 1
    ensures r.Ok? && r.value.Some? ==> Found(r.value.value, attempts, parts, n, config, estimateContext)
    ensures r.Ok? && r.value.None? ==>
      && Ongoing(attempts, sent, Max(1, outputCap / 2), start, parts, n, config, estimate, estimateContext, replies)
      && (|attempts| == 4 || outputCap <= 1 ==> NoneFound(attempts, parts, n, config, estimateContext))
    ensures r.Raised? ==> NotSummarized(r.error, start + |sent|, replies)
    ensures r.Raised? ==> attempts[|earlier|].outcome == Raised(r.error)
  {
    var requests, summary;
    summary, requests := SummarizeMessages(parts.history[..n], parts.summary, config, estimate, outputCap, replies,
                                           start + |before|);
    ghost var now := Attempt(outputCap, start + |before|, requests, summary);
    AttemptMade(earlier, before, now, start, parts, n, config, estimate, estimateContext, replies);
    attempts, sent := earlier + [now], before + requests;
    if summary.Raised? {
      r := if summary.error == ModelFailed || outputCap <= 1 then Raised(summary.error) else Ok(None);
      return;
    }
    var candidate := CandidateOf(summary.value, parts, n, estimateContext);
    r := Ok(if candidate.tokens <= config.TokenBudget() then Some(candidate) else None);
  }

  /** Up to four attempts, each with half the output cap of the one before. */
  method CompactCandidate(parts: Parts, n: nat, config: ContextBudgetConfig,
                          estimate: Estimator, estimateContext: ContextEstimator, replies: nat -> Reply, start: nat)
    returns (r: Outcome<Option<Candidate>>, sent: seq<Request>, ghost attempts: seq<Attempt>)
    requires config.Valid() && n <= |parts.history|
    ensures Series(attempts, sent, start, parts, n, config, estimate, replies)
    ensures r.Ok? && r.value.Some? ==> Found(r.value.value, attempts, parts, n, config, estimateContext)
    ensures r.Ok? && r.value.None? ==> NoneFound(attempts, parts, n, config, estimateContext)
    ensures r.Raised? ==> NotSummarized(r.error, start + |sent|, replies)
    ensures r.Raised? ==> attempts != [] && attempts[|attempts| - 1].outcome == Raised(r.error)
  {
    sent, attempts := [], [];
    if estimateContext(Shown(parts, n, "")) >= config.TokenBudget() {
      return Ok(None), sent, attempts;
    }
    var outputCap := config.SummaryOutput();
    for attempt := 0 to 4
      invariant Ongoing(attempts, sent, outputCap, start, parts, n, config, estimate, estimateContext, replies)
      invariant |attempts| == attempt && (attempt == 4 ==> NoneFound(attempts, parts, n, config, estimateContext))
    {
      r, sent, attempts := AttemptOnce(parts, n, config, estimate, estimateContext, replies, start, sent, attempts,
                                       outputCap);
      if r.Raised? || r.value.Some? {
        return;
      }
      if outputCap <= 1 {
        break;
      }
      outputCap := Max(1, outputCap / 2);
    }
    r := Ok(None);
  }

  // ---------------------------------------------------------------- the whole compaction

  datatype CompactionResult = CompactionResult(
    messages: seq<Message>, originalTokens: nat, compactedTokens: nat, summarizedCount: nat,
    summary: Option<string>, retainedMessages: seq<Message>)

  /** What a result says about the transcript it came from. */
  ghost predicate Compacted(messages: seq<Message>, result: CompactionResult) {
    var parts := PartsOf(messages);
    var n := result.summarizedCount;
    && 0 < n && SafeCut(parts.history, n)
    && Usable(result.summary)
    && result.messages == Assemble(parts.system, parts.user, result.summary.value, parts.history[n..])
    && result.retainedMessages == parts.history[n..] + OptionToSeq(parts.user)
  }

  /** Keeping what follows the first n messages keeps the longest run of whole turns within the budget. */
  ghost predicate LongestKept(history: seq<Message>, n: nat, budget: nat, estimate: ContextEstimator) {
    exists turns, k :: AreTurns(turns) && Flatten(turns) == history && LongestSuffix(turns, k, budget, estimate)
                       && n == |Flatten(turns[..k])|
  }

  /** The cut tried first: everything when forced or when all of it would be kept, else the longest suffix is kept. */
  ghost predicate FirstCut(history: seq<Message>, force: bool, n: nat, budget: nat, estimate: ContextEstimator) {
    if force then n == |history|
    else LongestKept(history, n, budget, estimate) || (n == |history| && LongestKept(history, 0, budget, estimate))
  }

  /** Summarising the first n messages was tried, and gave nothing that fits. */
  ghost predicate TriedInVain(parts: Parts, n: nat, start: nat, config: ContextBudgetConfig, estimate: Estimator,
                              estimateContext: ContextEstimator, replies: nat -> Reply)
    requires n <= |parts.history|
  {
    exists attempts :: InTurn(attempts, start, parts, n, config, estimate, replies)
                       && NoneFound(attempts, parts, n, config, estimateContext)
  }

  /** The whole history is summarised in place of the first cut only when that kept something and was in vain. */
  ghost predicate CutChosen(parts: Parts, first: nat, count: nat, start: nat, config: ContextBudgetConfig,
                            estimate: Estimator, estimateContext: ContextEstimator, replies: nat -> Reply)
  {
    || count == first
    || (first < |parts.history| && count == |parts.history|
        && TriedInVain(parts, first, start, config, estimate, estimateContext, replies))
  }

  function RecentBudget(config: ContextBudgetConfig): nat {
    Min(config.KeepRecent(), config.TokenBudget() / 2)
  }

  /** Half the token budget is never the smaller of the two: what is kept is limited by the recent tokens alone. */
  lemma HalfNeverLimits(config: ContextBudgetConfig)
    requires config.Valid()
    ensures RecentBudget(config) == config.KeepRecent() < config.TokenBudget()
  {
    ReserveAndMargin(config);
  }

  lemma TurnSplit(turns: seq<seq<Message>>, k: nat)
    requires AreTurns(turns) && k <= |turns|
    ensures Flatten(turns) == Flatten(turns[..k]) + Flatten(turns[k..])
    ensures Paired(Flatten(turns)) ==> Paired(Flatten(turns[..k])) && Paired(Flatten(turns[k..]))
  {
    assert turns == turns[..k] + turns[k..];
    FlattenConcat(turns[..k], turns[k..]);
    if Paired(Flatten(turns)) {
      TurnCutKeepsPairing(turns, k);
    }
  }

  /** Cutting a history there separates no call from its results. */
  ghost predicate SafeCut(history: seq<Message>, n: nat) {
    n <= |history| && (Paired(history) ==> Paired(history[..n]) && Paired(history[n..]))
  }

  lemma CutAtEndIsSafe(history: seq<Message>)
    ensures SafeCut(history, |history|)
  {
    assert history[..|history|] == history && history[|history|..] == [];
  }

  /** How many messages to summarise at the first attempt. */
  method ChooseCut(history: seq<Message>, force: bool, config: ContextBudgetConfig, estimate: ContextEstimator)
    returns (count: nat)
    requires config.Valid() && history != []
    ensures 0 < count && SafeCut(history, count)
    ensures FirstCut(history, force, count, RecentBudget(config), estimate)
  {
    CutAtEndIsSafe(history);
    if force {
      return |history|;
    }
    var retained := RetainedHistorySuffix(history, RecentBudget(config), estimate);
    ghost var turns, k :|
      KeepsFrom(history, retained, turns, k) && LongestSuffix(turns, k, RecentBudget(config), estimate);
    TurnSplit(turns, k);
    count := |history| - |retained|;
    assert history[..count] == Flatten(turns[..k]) && history[count..] == retained;
    if count < 1 {
      count := |history|;
    }
  }

  /** The last requests sent gave this candidate for the first n messages. */
  ghost predicate Summarizes(c: Candidate, parts: Parts, n: nat, round: seq<Request>, at: nat,
                             config: ContextBudgetConfig, estimate: Estimator, estimateContext: ContextEstimator,
                             replies: nat -> Reply)
    requires n <= |parts.history|
  {
    && c.messages == Shown(parts, n, c.summary)
    && c.tokens == estimateContext(c.messages) <= config.TokenBudget()
    && SummarizedBy(round, at, SerializeEntries(parts.history[..n]), parts.summary, c.summary, config, estimate, replies)
    && ToldModel(round, at, parts.history[..n], parts.summary, c.summary, replies)
  }

  predicate LastSent(sent: seq<Request>, round: seq<Request>) {
    |round| <= |sent| && sent[|sent| - |round|..] == round
  }

  lemma LastOfSeries(attempts: seq<Attempt>, sent: seq<Request>, start: nat, parts: Parts, n: nat,
                     config: ContextBudgetConfig, estimate: Estimator, replies: nat -> Reply)
    requires n <= |parts.history| && attempts != []
    requires Series(attempts, sent, start, parts, n, config, estimate, replies)
    ensures var last := attempts[|attempts| - 1];
            Tried(last, parts, n, config, estimate, replies) && LastSent(sent, last.sent)
            && last.start + |last.sent| == start + |sent|
  {
  }

  lemma TriedSummarizes(c: Candidate, a: Attempt, parts: Parts, n: nat, config: ContextBudgetConfig,
                        estimate: Estimator, estimateContext: ContextEstimator, replies: nat -> Reply)
    requires n <= |parts.history| && Tried(a, parts, n, config, estimate, replies) && a.outcome == Ok(c.summary)
    requires c.messages == Shown(parts, n, c.summary)
    requires c.tokens == estimateContext(c.messages) <= config.TokenBudget()
    ensures Summarizes(c, parts, n, a.sent, a.start, config, estimate, estimateContext, replies)
  {
    SummarizedTellsModel(a.sent, a.start, parts.history[..n], parts.summary, c.summary, config, estimate, replies);
  }

  /** The last attempt of a successful series is what was sent last. */
  lemma LastAttempt(c: Candidate, attempts: seq<Attempt>, sent: seq<Request>, start: nat, parts: Parts, n: nat,
                    config: ContextBudgetConfig, estimate: Estimator, estimateContext: ContextEstimator,
                    replies: nat -> Reply)
    requires n <= |parts.history| && Series(attempts, sent, start, parts, n, config, estimate, replies)
    requires Found(c, attempts, parts, n, config, estimateContext)
    ensures var last := attempts[|attempts| - 1];
            && LastSent(sent, last.sent) && last.start + |last.sent| == start + |sent|
            && Summarizes(c, parts, n, last.sent, last.start, config, estimate, estimateContext, replies)
  {
    LastOfSeries(attempts, sent, start, parts, n, config, estimate, replies);
    TriedSummarizes(c, attempts[|attempts| - 1], parts, n, config, estimate, estimateContext, replies);
  }

  /** One cut: its candidate, and the requests that gave it. */
  method CompactAt(parts: Parts, n: nat, config: ContextBudgetConfig, estimate: Estimator,
                   estimateContext: ContextEstimator, replies: nat -> Reply, start: nat)
    returns (r: Outcome<Option<Candidate>>, sent: seq<Request>, ghost round: seq<Request>, ghost at: nat)
    requires config.Valid() && n <= |parts.history|
    ensures Granted(sent, config, estimate) && LastSent(sent, round) && at + |round| == start + |sent|
    ensures r.Ok? && r.value.Some? ==>
              Summarizes(r.value.value, parts, n, round, at, config, estimate, estimateContext, replies)
    ensures r.Ok? && r.value.None? ==> TriedInVain(parts, n, start, config, estimate, estimateContext, replies)
    ensures r.Raised? ==> NotSummarized(r.error, start + |sent|, replies)
  {
    ghost var attempts;
    r, sent, attempts := CompactCandidate(parts, n, config, estimate, estimateContext, replies, start);
    round, at := [], start + |sent|;
    if r.Ok? && r.value.Some? {
      LastAttempt(r.value.value, attempts, sent, start, parts, n, config, estimate, estimateContext, replies);
      round, at := attempts[|attempts| - 1].sent, attempts[|attempts| - 1].start;
    }
  }

  lemma LastSentLater(before: seq<Request>, sent: seq<Request>, round: seq<Request>)
    requires LastSent(sent, round)
    ensures LastSent(before + sent, round)
  {
  }

  /** One more cut after requests for another one. */
  method CompactAfter(before: seq<Request>, parts: Parts, n: nat, config: ContextBudgetConfig, estimate: Estimator,
                      estimateContext: ContextEstimator, replies: nat -> Reply, start: nat)
    returns (r: Outcome<Option<Candidate>>, sent: seq<Request>, ghost round: seq<Request>, ghost at: nat)
    requires config.Valid() && n <= |parts.history| && Granted(before, config, estimate)
    ensures Granted(sent, config, estimate) && LastSent(sent, round) && at + |round| == start + |sent|
    ensures r.Ok? && r.value.Some? ==>
              Summarizes(r.value.value, parts, n, round, at, config, estimate, estimateContext, replies)
    ensures r.Raised? ==> NotSummarized(r.error, start + |sent|, replies)
  {
    var more;
    r, more, round, at := CompactAt(parts, n, config, estimate, estimateContext, replies, start + |before|);
    GrantedAppend(before, more, config, estimate);
    LastSentLater(before, more, round);
    sent := before + more;
    assert start + |before| + |more| == start + |sent|;
  }

  /** The cut chosen first, then the whole history when keeping a suffix leaves no room for the summary. */
  method CompactAtBestCut(parts: Parts, first: nat, config: ContextBudgetConfig, estimate: Estimator,
                          estimateContext: ContextEstimator, replies: nat -> Reply, start: nat)
    returns (r: Outcome<Option<Candidate>>, count: nat, sent: seq<Request>, ghost round: seq<Request>, ghost at: nat)
    requires config.Valid() && first <= |parts.history|
    ensures Granted(sent, config, estimate) && LastSent(sent, round) && at + |round| == start + |sent|
    ensures count <= |parts.history|
    ensures CutChosen(parts, first, count, start, config, estimate, estimateContext, replies)
    ensures r.Ok? && r.value.Some? ==>
              Summarizes(r.value.value, parts, count, round, at, config, estimate, estimateContext, replies)
    ensures r.Raised? ==> NotSummarized(r.error, start + |sent|, replies)
  {
    count := first;
    r, sent, round, at := CompactAt(parts, count, config, estimate, estimateContext, replies, start);
    if r.Ok? && r.value.None? && parts.history[count..] != [] {
      count := |parts.history|;
      r, sent, round, at := CompactAfter(sent, parts, count, config, estimate, estimateContext, replies, start);
    }
  }

  lemma GrantedAppend(a: seq<Request>, b: seq<Request>, config: ContextBudgetConfig, estimate: Estimator)
    requires Granted(a, config, estimate) && Granted(b, config, estimate)
    ensures Granted(a + b, config, estimate)
  {
  }

  /** The number of messages summarised is the first cut's or, where that was in vain, all of them. */
  ghost predicate CutFound(parts: Parts, force: bool, count: nat, start: nat, config: ContextBudgetConfig,
                           estimate: Estimator, estimateContext: ContextEstimator, estimateHistory: ContextEstimator,
                           replies: nat -> Reply)
  {
    exists first ::
      && FirstCut(parts.history, force, first, RecentBudget(config), estimateHistory)
      && CutChosen(parts, first, count, start, config, estimate, estimateContext, replies)
  }

  /** The compaction of a transcript that has a history and room beside its pinned messages. */
  method CompactParts(parts: Parts, force: bool, config: ContextBudgetConfig, estimateContext: ContextEstimator,
                      estimateHistory: ContextEstimator, estimate: Estimator, replies: nat -> Reply, start: nat)
    returns (r: Outcome<Candidate>, count: nat, sent: seq<Request>, ghost round: seq<Request>, ghost at: nat)
    requires config.Valid() && parts.history != []
    ensures Granted(sent, config, estimate) && LastSent(sent, round) && at + |round| == start + |sent|
    ensures 0 < count <= |parts.history| && SafeCut(parts.history, count)
    ensures r.Ok? ==>
      && Summarizes(r.value, parts, count, round, at, config, estimate, estimateContext, replies)
      && CutFound(parts, force, count, start, config, estimate, estimateContext, estimateHistory, replies)
    ensures r.Raised? ==> IsBudgetError(r.error) || NotSummarized(r.error, start + |sent|, replies)
  {
    var first := ChooseCut(parts.history, force, config, estimateHistory);
    var candidate;
    candidate, count, sent, round, at :=
      CompactAtBestCut(parts, first, config, estimate, estimateContext, replies, start);
    CutAtEndIsSafe(parts.history);
    if candidate.Raised? {
      return Raised(candidate.error), count, sent, round, at;
    }
    if candidate.value.None? {
      return Raised(StillOverBudget), count, sent, round, at;
    }
    r := Ok(candidate.value.value);
  }

  /** The result stands for a prefix of the history which the model was told in full, up to the cut that is due. */
  ghost predicate Made(messages: seq<Message>, result: CompactionResult, round: seq<Request>, at: nat, force: bool,
                       start: nat, config: ContextBudgetConfig, estimateContext: ContextEstimator,
                       estimateHistory: ContextEstimator, estimate: Estimator, replies: nat -> Reply)
  {
    var parts := PartsOf(messages);
    && Compacted(messages, result)
    && SummarizedBy(round, at, SerializeEntries(parts.history[..result.summarizedCount]), parts.summary,
                    result.summary.value, config, estimate, replies)
    && ToldModel(round, at, parts.history[..result.summarizedCount], parts.summary, result.summary.value, replies)
    && CutFound(parts, force, result.summarizedCount, start, config, estimate, estimateContext, estimateHistory,
                replies)
  }

  lemma CompactionIsMade(messages: seq<Message>, c: Candidate, result: CompactionResult, round: seq<Request>, at: nat,
                         force: bool, start: nat, config: ContextBudgetConfig, estimateContext: ContextEstimator,
                         estimateHistory: ContextEstimator, estimate: Estimator, replies: nat -> Reply)
    requires var parts, n := PartsOf(messages), result.summarizedCount;
             && 0 < n && SafeCut(parts.history, n)
             && Summarizes(c, parts, n, round, at, config, estimate, estimateContext, replies)
             && CutFound(parts, force, n, start, config, estimate, estimateContext, estimateHistory, replies)
             && result.summary == Some(c.summary) && result.messages == c.messages
             && result.retainedMessages == parts.history[n..] + OptionToSeq(parts.user)
    ensures Made(messages, result, round, at, force, start, config, estimateContext, estimateHistory, estimate, replies)
  {
  }

  /** The compaction proper, of a split transcript with a history. */
  method CompactHistory(messages: seq<Message>, parts: Parts, originalTokens: nat, force: bool,
                        config: ContextBudgetConfig, estimateContext: ContextEstimator,
                        estimateHistory: ContextEstimator, estimate: Estimator, replies: nat -> Reply, start: nat)
    returns (r: Outcome<CompactionResult>, sent: seq<Request>, ghost round: seq<Request>, ghost at: nat)
    requires config.Valid() && parts == PartsOf(messages) && parts.history != []
    ensures Granted(sent, config, estimate) && LastSent(sent, round) && at + |round| == start + |sent|
    ensures r.Ok? ==>
      && r.value.originalTokens == originalTokens && r.value.summarizedCount > 0
      && r.value.compactedTokens == estimateContext(r.value.messages) <= config.TokenBudget()
      && Made(messages, r.value, round, at, force, start, config, estimateContext, estimateHistory, estimate, replies)
    ensures r.Raised? ==> IsBudgetError(r.error) || NotSummarized(r.error, start + |sent|, replies)
  {
    var candidate, count;
    candidate, count, sent, round, at :=
      CompactParts(parts, force, config, estimateContext, estimateHistory, estimate, replies, start);
    if candidate.Raised? {
      return Raised(candidate.error), sent, round, at;
    }
    var c := candidate.value;
    var result := CompactionResult(c.messages, originalTokens, c.tokens, count, Some(c.summary),
                                   parts.history[count..] + OptionToSeq(parts.user));
    CompactionIsMade(messages, c, result, round, at, force, start, config, estimateContext, estimateHistory, estimate,
                     replies);
    return Ok(result), sent, round, at;
  }

  /**
   * Compaction for every model and every estimator. On success the request fits the token budget: either the
   * transcript was already small enough and is returned as it is, or a non-empty prefix of the history was summarised
   * through requests that carried all of it, the rest is kept as it was, and the cut falls between turns.
   */
  method CompactContext(messages: seq<Message>, config: ContextBudgetConfig, force: bool,
                        estimateContext: ContextEstimator, estimateHistory: ContextEstimator, estimate: Estimator,
                        replies: nat -> Reply, start: nat)
    returns (r: Outcome<CompactionResult>, sent: seq<Request>, ghost round: seq<Request>, ghost at: nat)
    requires config.Valid()
    ensures Granted(sent, config, estimate) && LastSent(sent, round) && at + |round| == start + |sent|
    ensures r.Ok? ==>
      && r.value.originalTokens == estimateContext(messages)
      && r.value.compactedTokens == estimateContext(r.value.messages) <= config.TokenBudget()
    ensures r.Ok? && r.value.summarizedCount == 0 ==> !force && r.value.messages == messages && sent == []
    ensures r.Ok? && r.value.summarizedCount > 0 ==>
      && (force || estimateContext(messages) > config.TokenBudget())
      && Made(messages, r.value, round, at, force, start, config, estimateContext, estimateHistory, estimate, replies)
    ensures r.Raised? ==>
      && (IsBudgetError(r.error) || NotSummarized(r.error, start + |sent|, replies))
      && (force || estimateContext(messages) > config.TokenBudget())
  {
    sent, round, at := [], [], start;
    var originalTokens := estimateContext(messages);
    if !force && originalTokens <= config.TokenBudget() {
      return Ok(CompactionResult(messages, originalTokens, originalTokens, 0, None, [])), sent, round, at;
    }
    var parts := SplitTranscript(messages);
    if estimateContext(OptionToSeq(parts.system) + OptionToSeq(parts.user)) >= config.TokenBudget() {
      return Raised(PinnedOverBudget), sent, round, at;
    }
    if parts.history == [] {
      return Raised(NoHistory), sent, round, at;
    }
    r, sent, round, at := CompactHistory(messages, parts, originalTokens, force, config, estimateContext,
                                         estimateHistory, estimate, replies, start);
  }

  // ---------------------------------------------------------------- what a compaction keeps

  lemma HistoryIsKeepable(messages: seq<Message>, n: nat)
    requires n <= |PartsOf(messages).history|
    ensures Keepable(PartsOf(messages).system, PartsOf(messages).user, PartsOf(messages).history[n..])
  {
    var parts := PartsOf(messages);
    HistoryHoldsNoPinnedKind(messages);
    FirstSystemIs(messages);
    assert forall m :: m in parts.history[n..] ==> m in parts.history;
  }

  /**
   * A compacted transcript splits into exactly what it was assembled from: the same system message, the same request
   * word for word, the new summary as the only one, and the kept suffix. Compacting again starts from there.
   */
  lemma CompactedSplitsAgain(messages: seq<Message>, result: CompactionResult)
    requires Compacted(messages, result)
    ensures var before, after := PartsOf(messages), PartsOf(result.messages);
            && after.system == before.system && after.user == before.user
            && after.summary == result.summary
            && after.history == before.history[result.summarizedCount..]
  {
    var parts := PartsOf(messages);
    HistoryIsKeepable(messages, result.summarizedCount);
    SplitOfAssemble(parts.system, parts.user, result.summary.value, parts.history[result.summarizedCount..]);
  }

  /** No compaction separates a call from its results. */
  lemma CompactionKeepsPairing(messages: seq<Message>, result: CompactionResult)
    requires Compacted(messages, result) && Paired(messages)
    ensures Paired(result.messages)
  {
    var parts := PartsOf(messages);
    var retained := parts.history[result.summarizedCount..];
    HistoryIsPaired(messages);
    FirstSystemIs(messages);
    var marker := [SummaryMessage(result.summary.value)];
    PairAllConcat(SETTLED, OptionToSeq(parts.system), marker);
    PairAllConcat(SETTLED, OptionToSeq(parts.system) + marker, retained);
    PairAllConcat(SETTLED, OptionToSeq(parts.system) + marker + retained, OptionToSeq(parts.user));
  }

  /** Recording the checkpoint of a compaction makes the journal project to the compacted transcript. */
  lemma CheckpointProjects(journal: seq<Mutation>, result: CompactionResult, cause: Cause)
    requires Coherent(journal) && Compacted(Project(journal), result)
    ensures var j := journal + [CheckpointOf(result, cause)];
            Project(j) == result.messages && Coherent(j)
  {
    var messages := Project(journal);
    var c := CheckpointOf(result, cause);
    ProjectCheckpoint(journal, c);
    CompactedSplitsAgain(messages, result);
    var parts := PartsOf(messages);
    assert parts.system == FirstSystem(Appendeds(journal));
    AssembleByParts(parts.system, parts.user, result.summary.value, parts.history[result.summarizedCount..]);
  }

  lemma AssembleByParts(system: Option<Message>, user: Option<Message>, summary: string, retained: seq<Message>)
    ensures Assemble(system, user, summary, retained)
         == OptionToSeq(system) + [SummaryMessage(summary)] + (retained + OptionToSeq(user))
  {
  }

  function CheckpointOf(result: CompactionResult, cause: Cause): Mutation
    requires result.summary.Some?
  {
    Checkpoint(result.summary.value, result.retainedMessages, result.originalTokens, result.compactedTokens,
               result.summarizedCount, cause)
  }

  // ---------------------------------------------------------------- an oversized stage input

  const STAGE_OPEN: string
  const STAGE_CLOSE: string
  const STAGE_LABEL: string

  datatype PromptResult = PromptResult(prompt: string, originalTokens: nat, compactedTokens: nat, summary: Option<string>)

  function CompactedPrompt(prefix: string, summary: string): string {
    prefix + STAGE_OPEN + summary + STAGE_CLOSE
  }

  lemma SummaryIsShown(prefix: string, summary: string)
    ensures prefix <= CompactedPrompt(prefix, summary)
    ensures Inside(summary, CompactedPrompt(prefix, summary)[|prefix|..])
  {
    InsideOf(summary, STAGE_OPEN, STAGE_CLOSE);
    assert CompactedPrompt(prefix, summary)[|prefix|..] == STAGE_OPEN + summary + STAGE_CLOSE;
  }

  method SummarizeText(text: string, config: ContextBudgetConfig, estimate: Estimator, maxOutput: int,
                       replies: nat -> Reply, start: nat)
    returns (r: Outcome<string>, sent: seq<Request>)
    requires config.Valid() && SummaryCap(config, maxOutput)
    ensures EachFits(sent, estimate, config.InputBudgetFor(maxOutput), maxOutput)
    ensures r.Ok? ==> SummarizedBy(sent, start, [STAGE_LABEL + text], None, r.value, config, estimate, replies)
    ensures r.Raised? ==> r.error in {NoRoomForSource, EmptySummary, ModelFailed}
  {
    assert ClampCap(config, maxOutput) == maxOutput;
    r, sent := SummarizeEntries([STAGE_LABEL + text], None, config, estimate, maxOutput, replies, start);
  }

  lemma SummarizedSpells(round: seq<Request>, start: nat, text: string, summary: string, config: ContextBudgetConfig,
                         estimate: Estimator, replies: nat -> Reply)
    requires SummarizedBy(round, start, [STAGE_LABEL + text], None, summary, config, estimate, replies)
    ensures SpellOut(round, text, None) && IsAnswerTo(summary, start + |round|, replies)
  {
    TextIsSpelt(round, STAGE_LABEL, text, estimate, config.InputBudgetFor(round[0].outputCap), replies, start);
    SummaryIsAnswer(summary, start + |round|, replies);
  }

  /** The summary is the answer to the last of some rounds, of which the first told the model the payload. */
  ghost predicate SummedUp(summary: string, sent: seq<Request>, cuts: seq<nat>, payload: string, replies: nat -> Reply,
                           start: nat)
  {
    && Usable(Some(summary)) && sent != [] && IsAnswerTo(summary, start + |sent|, replies)
    && InRounds(sent, cuts, payload, replies, start)
  }

  lemma NextRound(before: seq<Request>, cuts: seq<nat>, payload: string, round: seq<Request>, text: string,
                  summary: string, config: ContextBudgetConfig, estimate: Estimator, replies: nat -> Reply, start: nat,
                  sent: seq<Request>)
    requires sent == before + round
    requires SummarizedBy(round, start + |before|, [STAGE_LABEL + text], None, summary, config, estimate, replies)
    requires InRounds(before, cuts, payload, replies, start)
    requires if before == [] then text == payload else IsAnswerTo(text, start + |before|, replies)
    ensures SummedUp(summary, sent, cuts + [|sent|], payload, replies, start)
  {
    SummarizedSpells(round, start + |before|, text, summary, config, estimate, replies);
    OneMoreRound(before, cuts, payload, replies, start, round, text);
    assert start + |before| + |round| == start + |sent|;
  }

  /** The same after other requests were sent. */
  method SummarizeNext(text: string, before: seq<Request>, config: ContextBudgetConfig, estimate: Estimator,
                       maxOutput: int, replies: nat -> Reply, start: nat, ghost payload: string, ghost cuts: seq<nat>)
    returns (r: Outcome<string>, sent: seq<Request>)
    requires config.Valid() && SummaryCap(config, maxOutput) && Granted(before, config, estimate)
    requires InRounds(before, cuts, payload, replies, start)
    requires if before == [] then text == payload else IsAnswerTo(text, start + |before|, replies)
    ensures Granted(sent, config, estimate)
    ensures r.Ok? ==> SummedUp(r.value, sent, cuts + [|sent|], payload, replies, start)
    ensures r.Raised? ==> r.error in {NoRoomForSource, EmptySummary, ModelFailed}
  {
    var round;
    r, round := SummarizeText(text, config, estimate, maxOutput, replies, start + |before|);
    GrantedMore(before, round, config, estimate, maxOutput);
    sent := before + round;
    if r.Ok? {
      NextRound(before, cuts, payload, round, text, r.value, config, estimate, replies, start, sent);
    }
  }

  /**
   * Only the payload of a stage input is ever summarised, the whole of it in the first round and the summary before
   * in each later one: the instruction in front stays word for word, what is returned fits the token budget, and a
   * prompt that already fits comes back as it was, without a model request.
   */
  method CompactUserPrompt(prompt: string, prefix: string, config: ContextBudgetConfig, estimatePrompt: string -> nat,
                           estimate: Estimator, replies: nat -> Reply, start: nat)
    returns (r: Outcome<PromptResult>, sent: seq<Request>, ghost cuts: seq<nat>)
    requires config.Valid()
    ensures Granted(sent, config, estimate)
    ensures r.Ok? ==>
      && r.value.originalTokens == estimatePrompt(prompt)
      && prefix <= r.value.prompt && prefix <= prompt
      && r.value.compactedTokens == estimatePrompt(r.value.prompt) <= config.TokenBudget()
      && (r.value.summary.None? <==> estimatePrompt(prompt) <= config.TokenBudget())
      && (r.value.summary.None? ==> r.value.prompt == prompt && sent == [])
      && (r.value.summary.Some? ==>
            && Inside(r.value.summary.value, r.value.prompt[|prefix|..])
            && SummedUp(r.value.summary.value, sent, cuts, prompt[|prefix|..], replies, start))
    ensures r.Raised? ==> IsBudgetError(r.error) || r.error in {BadPrefix, ModelFailed}
    ensures r.Raised? && r.error == BadPrefix <==> !(prefix <= prompt)
  {
    sent, cuts := [], [0];
    if !(prefix <= prompt) {
      return Raised(BadPrefix), sent, cuts;
    }
    var originalTokens := estimatePrompt(prompt);
    if originalTokens <= config.TokenBudget() {
      return Ok(PromptResult(prompt, originalTokens, originalTokens, None)), sent, cuts;
    }
    var payload := prompt[|prefix|..];
    if Strip(payload) == "" {
      return Raised(PinnedOverBudget), sent, cuts;
    }
    var available := config.TokenBudget() - estimatePrompt(CompactedPrompt(prefix, ""));
    if available < 1 {
      return Raised(PinnedOverBudget), sent, cuts;
    }
    var outputCap := Min(config.SummaryOutput(), available);
    var summary;
    summary, sent := SummarizeNext(payload, sent, config, estimate, outputCap, replies, start, payload, cuts);
    if summary.Raised? {
      return Raised(summary.error), sent, cuts;
    }
    cuts := cuts + [|sent|];
    for attempt := 0 to 3
      invariant Granted(sent, config, estimate) && SummaryCap(config, outputCap)
      invariant summary.Ok? && SummedUp(summary.value, sent, cuts, payload, replies, start)
    {
      var compacted := CompactedPrompt(prefix, summary.value);
      var tokens := estimatePrompt(compacted);
      SummaryIsShown(prefix, summary.value);
      if tokens <= config.TokenBudget() {
        return Ok(PromptResult(compacted, originalTokens, tokens, Some(summary.value))), sent, cuts;
      }
      if outputCap <= 1 {
        break;
      }
      outputCap := Max(1, Min(outputCap / 2, available));
      summary, sent :=
        SummarizeNext(summary.value, sent, config, estimate, outputCap, replies, start, payload, cuts);
      if summary.Raised? {
        return Raised(summary.error), sent, cuts;
      }
      cuts := cuts + [|sent|];
    }
    return Raised(StillOverBudget), sent, cuts;
  }
}
