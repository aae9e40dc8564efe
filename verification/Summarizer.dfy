/**
 * Folding a list of text entries into one summary through a model that takes a bounded prompt:
 * greedy packing of whole entries, a binary search for the cut when one entry alone is too long,
 * and the running summary carried from request to request.
 *
 * The model is any function from the number of a request to its reply, so every statement here
 * holds for every behaviour of the model. The token estimate is any function of the prompt.
 */
module Summarizer {
  import opened Arithmetic
  import opened Text
  import opened Budget
  import opened Tokens

  datatype Error =
    | PromptOverBudget
    | NoRoomForSource
    | EmptySummary
    | NothingToSummarize
    | PinnedOverBudget
    | NoHistory
    | StillOverBudget
    | BadPrefix
    | ModelFailed
    | ContextOverflow
    | Aborted

  /** The errors `except ContextBudgetError` catches. */
  predicate IsBudgetError(e: Error) {
    !e.BadPrefix? && !e.ModelFailed? && !e.ContextOverflow? && !e.Aborted?
  }

  datatype Outcome<+T> = Ok(value: T) | Raised(error: Error)

  datatype Reply = Summary(text: string) | Failure

  type Estimator = string -> nat

  datatype Request = Request(chunk: seq<string>, previous: Option<string>, outputCap: int)

  // The fixed wording of the prompt; nothing here depends on it.
  const PROMPT_OPEN: string
  const PROMPT_CLOSE: string
  const PREVIOUS_OPEN: string
  const PREVIOUS_CLOSE: string
  const FIRST_FORMAT: string
  const UPDATE_FORMAT: string
  const FOLDED_LABEL: string
  const ENTRY_SEPARATOR: string

  function PromptTail(previous: Option<string>): string {
    PROMPT_CLOSE +
    if previous.Some? && previous.value != "" then PREVIOUS_OPEN + previous.value + PREVIOUS_CLOSE + UPDATE_FORMAT
    else FIRST_FORMAT
  }

  function BuildPrompt(conversation: string, previous: Option<string>): string {
    PROMPT_OPEN + conversation + PromptTail(previous)
  }

  predicate Fits(entries: seq<string>, previous: Option<string>, estimate: Estimator, budget: int) {
    estimate(BuildPrompt(Join(entries, ENTRY_SEPARATOR), previous)) <= budget
  }

  function PromptOf(q: Request): string {
    BuildPrompt(Join(q.chunk, ENTRY_SEPARATOR), q.previous)
  }

  // ---------------------------------------------------------------- the cut of one long entry

  predicate PrefixFits(entry: string, n: nat, previous: Option<string>, estimate: Estimator, budget: int)
    requires n <= |entry|
  {
    Fits([entry[..n]], previous, estimate, budget)
  }

  /** Shorter prefixes of an entry are never dearer than longer ones. */
  ghost predicate Monotone(entry: string, previous: Option<string>, estimate: Estimator, budget: int) {
    forall n: nat, m: nat :: n <= m <= |entry| && PrefixFits(entry, m, previous, estimate, budget) ==>
      PrefixFits(entry, n, previous, estimate, budget)
  }

  /**
   * Whatever the estimator does, the head fits and one character more does not. When it is monotone the head is
   * the longest prefix that fits, and the search only fails when not one character fits.
   */
  method SplitSummaryEntry(entry: string, previous: Option<string>, estimate: Estimator, budget: int)
    returns (r: Outcome<(string, string)>)
    ensures r.Ok? ==>
      var (head, tail) := r.value;
      && head != "" && head + tail == entry
      && PrefixFits(entry, |head|, previous, estimate, budget) && head == entry[..|head|]
      && (tail != "" ==> !PrefixFits(entry, |head| + 1, previous, estimate, budget))
      && (Monotone(entry, previous, estimate, budget) ==>
            forall n :: |head| < n <= |entry| ==> !PrefixFits(entry, n, previous, estimate, budget))
    ensures r.Raised? ==>
      && r.error == NoRoomForSource
      && (entry != "" ==> !PrefixFits(entry, 1, previous, estimate, budget))
      && (Monotone(entry, previous, estimate, budget) ==>
            forall n :: 1 <= n <= |entry| ==> !PrefixFits(entry, n, previous, estimate, budget))
  {
    var low, high, best := 1, |entry|, 0;
    while low <= high
      invariant 0 <= best == low - 1 <= high <= |entry|
      invariant best > 0 ==> PrefixFits(entry, best, previous, estimate, budget)
      invariant high < |entry| ==> !PrefixFits(entry, high + 1, previous, estimate, budget)
    {
      var midpoint := (low + high) / 2;
      if Fits([entry[..midpoint]], previous, estimate, budget) {
        best := midpoint;
        low := midpoint + 1;
      } else {
        high := midpoint - 1;
      }
    }
    if best < 1 {
      return Raised(NoRoomForSource);
    }
    return Ok((entry[..best], entry[best..]));
  }

  /**
   * Every estimate of this form is monotone, so with it the binary search finds the longest prefix that fits: the
   * prompt is one string inside a JSON text that is otherwise fixed, beside a fixed number of tokens.
   */
  lemma PayloadEstimateIsMonotone(fixed: nat, open: string, close: string, entry: string, previous: Option<string>,
                                  budget: int)
    ensures Monotone(entry, previous, prompt => fixed + PayloadTokens(open, prompt, close), budget)
  {
    var estimate := prompt => fixed + PayloadTokens(open, prompt, close);
    forall n: nat, m: nat | n <= m <= |entry| && PrefixFits(entry, m, previous, estimate, budget)
      ensures PrefixFits(entry, n, previous, estimate, budget)
    {
      LongerPrefixCostsMore(open, close, entry, n, m, previous);
      assert Join([entry[..n]], ENTRY_SEPARATOR) == entry[..n];
      assert Join([entry[..m]], ENTRY_SEPARATOR) == entry[..m];
    }
  }

  lemma LongerPrefixCostsMore(open: string, close: string, entry: string, n: nat, m: nat, previous: Option<string>)
    requires n <= m <= |entry|
    ensures PayloadTokens(open, BuildPrompt(entry[..n], previous), close)
         <= PayloadTokens(open, BuildPrompt(entry[..m], previous), close)
  {
    var before, added, after := PROMPT_OPEN + entry[..n], entry[n..m], PromptTail(previous);
    assert entry[..m] == entry[..n] + added;
    assert before + added + after == PROMPT_OPEN + entry[..m] + after;
    InsertionNeverCheaperWhenEscaped(open, before, added, after, close);
  }

  /** The default estimate, of one system and one user message, is such an estimate. */
  lemma OwnEstimateIsMonotone(systemPrompt: string, entry: string, previous: Option<string>, budget: int)
    ensures Monotone(entry, previous, prompt => SummaryInputTokens(systemPrompt, prompt), budget)
  {
    var fixed := MessageTokens("system", systemPrompt);
    var own := prompt => SummaryInputTokens(systemPrompt, prompt);
    var payload := prompt => fixed + PayloadTokens(MessageOpen("user"), prompt, MESSAGE_CLOSE);
    PayloadEstimateIsMonotone(fixed, MessageOpen("user"), MESSAGE_CLOSE, entry, previous, budget);
    assert forall prompt :: own(prompt) == payload(prompt);
    forall n: nat, m: nat | n <= m <= |entry| && PrefixFits(entry, m, previous, own, budget)
      ensures PrefixFits(entry, n, previous, own, budget)
    {
      assert PrefixFits(entry, m, previous, payload, budget);
      assert PrefixFits(entry, n, previous, payload, budget);
    }
  }

  // ---------------------------------------------------------------- one chunk

  /** Nothing is lost: either whole entries go, or a proper non-empty prefix of the first one. */
  predicate TakenFrom(entries: seq<string>, chunk: seq<string>, rest: seq<string>) {
    || (0 < |chunk| <= |entries| && chunk == entries[..|chunk|] && rest == entries[|chunk|..])
    || (&& |chunk| == 1 && entries != [] && chunk[0] != "" && |chunk[0]| < |entries[0]|
        && chunk[0] <= entries[0] && rest == [entries[0][|chunk[0]|..]] + entries[1..])
  }

  /** A chunk is as full as it can be. */
  predicate Greedy(entries: seq<string>, chunk: seq<string>, rest: seq<string>, previous: Option<string>,
                   estimate: Estimator, budget: int)
    requires TakenFrom(entries, chunk, rest)
  {
    if chunk == entries[..|chunk|] then rest == [] || !Fits(chunk + [rest[0]], previous, estimate, budget)
    else !Fits([entries[0]], previous, estimate, budget)
         && !PrefixFits(entries[0], |chunk[0]| + 1, previous, estimate, budget)
  }

  method TakeSummaryChunk(entries: seq<string>, previous: Option<string>, estimate: Estimator, budget: int)
    returns (r: Outcome<(seq<string>, seq<string>)>)
    ensures r.Ok? ==>
      && TakenFrom(entries, r.value.0, r.value.1)
      && Fits(r.value.0, previous, estimate, budget)
      && Greedy(entries, r.value.0, r.value.1, previous, estimate, budget)
    ensures r.Raised? ==> r.error == NoRoomForSource && (entries != [] ==> !Fits([entries[0]], previous, estimate, budget))
  {
    var remaining, chunk := entries, [];
    while remaining != []
      invariant |chunk| <= |entries| && chunk == entries[..|chunk|] && remaining == entries[|chunk|..]
      invariant chunk != [] ==> Fits(chunk, previous, estimate, budget)
      decreases |remaining|
    {
      var candidate := chunk + [remaining[0]];
      if Fits(candidate, previous, estimate, budget) {
        chunk, remaining := candidate, remaining[1..];
        continue;
      }
      if chunk != [] {
        break;
      }
      assert candidate == [entries[0]];
      var split := SplitSummaryEntry(remaining[0], previous, estimate, budget);
      if split.Raised? {
        return Raised(split.error);
      }
      var (head, tail) := split.value;
      assert entries[0][..|entries[0]|] == entries[0];
      // The whole entry did not fit, so the head is shorter and something is left of the entry.
      return Ok(([head], [tail] + remaining[1..]));
    }
    if chunk == [] {
      return Raised(NoRoomForSource);
    }
    return Ok((chunk, remaining));
  }

  // ---------------------------------------------------------------- conservation

  /** What is left of the entries once the fragments have been read off their front, in order. */
  function Consume(fragments: seq<string>, entries: seq<string>): Option<seq<string>>
    decreases |fragments|
  {
    if fragments == [] then Some(entries)
    else if entries == [] then None
    else if fragments[0] == entries[0] then Consume(fragments[1..], entries[1..])
    else if fragments[0] != "" && fragments[0] <= entries[0] then
      Consume(fragments[1..], [entries[0][|fragments[0]|..]] + entries[1..])
    else None
  }

  lemma {:induction false} ConsumeConcat(a: seq<string>, b: seq<string>, entries: seq<string>)
    requires Consume(a, entries).Some?
    ensures Consume(a + b, entries) == Consume(b, Consume(a, entries).value)
    decreases |a|
  {
    if a == [] {
      assert a + b == b;
    } else {
      assert (a + b)[1..] == a[1..] + b;
      ConsumeConcat(a[1..], b,
        if a[0] == entries[0] then entries[1..] else [entries[0][|a[0]|..]] + entries[1..]);
    }
  }

  lemma {:induction false} ConsumeWhole(entries: seq<string>, n: nat)
    requires n <= |entries|
    ensures Consume(entries[..n], entries) == Some(entries[n..])
  {
    if n > 0 {
      assert entries[..n][1..] == entries[1..][..n - 1];
      ConsumeWhole(entries[1..], n - 1);
    }
  }

  lemma TakenIsConsumed(entries: seq<string>, chunk: seq<string>, rest: seq<string>)
    requires TakenFrom(entries, chunk, rest)
    ensures Consume(chunk, entries) == Some(rest)
  {
    if chunk == entries[..|chunk|] {
      ConsumeWhole(entries, |chunk|);
    } else {
      assert chunk[1..] == [];
    }
  }

  /** Fragments that use up the entries spell the same text. */
  lemma {:induction false} ConsumedSpellsTheSame(fragments: seq<string>, entries: seq<string>)
    requires Consume(fragments, entries) == Some([])
    ensures Concat(fragments) == Concat(entries)
    decreases |fragments|
  {
    if fragments != [] {
      if fragments[0] == entries[0] {
        ConsumedSpellsTheSame(fragments[1..], entries[1..]);
      } else {
        var tail := entries[0][|fragments[0]|..];
        assert fragments[0] + tail == entries[0];
        ConsumedSpellsTheSame(fragments[1..], [tail] + entries[1..]);
        assert ([tail] + entries[1..])[1..] == entries[1..];
        assert fragments[0] + (tail + Concat(entries[1..])) == entries[0] + Concat(entries[1..]);
      }
    }
  }

  /** More than that: each entry is spelt by a run of its own fragments; no fragment straddles two entries. */
  lemma {:induction false} EntriesRejoin(fragments: seq<string>, entries: seq<string>) returns (k: nat)
    requires Consume(fragments, entries) == Some([]) && entries != []
    ensures 0 < k <= |fragments|
    ensures Concat(fragments[..k]) == entries[0]
    ensures Consume(fragments[k..], entries[1..]) == Some([])
    decreases |fragments|
  {
    if fragments[0] == entries[0] {
      k := 1;
      assert fragments[..1] == [fragments[0]];
      assert Concat([fragments[0]][1..]) == "";
    } else {
      var tail := entries[0][|fragments[0]|..];
      var rest := [tail] + entries[1..];
      assert rest[1..] == entries[1..];
      var n := EntriesRejoin(fragments[1..], rest);
      k := n + 1;
      assert fragments[..k][1..] == fragments[1..][..n];
      assert fragments[1..][n..] == fragments[k..];
      assert fragments[0] + tail == entries[0];
    }
  }

  function Fragments(sent: seq<Request>): seq<string> {
    if sent == [] then [] else Fragments(sent[..|sent| - 1]) + sent[|sent| - 1].chunk
  }

  // ---------------------------------------------------------------- the whole fold

  function Characters(entries: seq<string>): nat {
    if entries == [] then 0 else |entries[0]| + Characters(entries[1..])
  }

  lemma {:induction false} CharactersSplit(entries: seq<string>, n: nat)
    requires n <= |entries|
    ensures Characters(entries[n..]) <= Characters(entries)
  {
    if n > 0 {
      CharactersSplit(entries[1..], n - 1);
      assert entries[1..][n - 1..] == entries[n..];
    }
  }

  /** Every round takes characters or an entry away, whatever the model answers. */
  lemma TakenIsLess(entries: seq<string>, chunk: seq<string>, rest: seq<string>)
    requires TakenFrom(entries, chunk, rest)
    ensures Characters(rest) + |rest| < Characters(entries) + |entries|
  {
    if chunk == entries[..|chunk|] && rest == entries[|chunk|..] {
      CharactersSplit(entries, |chunk|);
    } else {
      assert rest[1..] == entries[1..];
    }
  }

  function ClampCap(config: ContextBudgetConfig, maxOutput: int): int {
    Max(1, Min(maxOutput, config.maxOutput))
  }

  /** An old summary that no longer fits beside new text is folded into the stream of entries. */
  predicate MustFold(previous: Option<string>, estimate: Estimator, budget: int) {
    previous.Some? && !Fits([], previous, estimate, budget)
  }

  function StartEntries(entries: seq<string>, previous: Option<string>, estimate: Estimator, budget: int): seq<string> {
    if MustFold(previous, estimate, budget) then [FOLDED_LABEL + previous.value] + entries else entries
  }

  function StartSummary(previous: Option<string>, estimate: Estimator, budget: int): Option<string> {
    if MustFold(previous, estimate, budget) then None else previous
  }

  /** Each request carries the running summary: the stripped reply to the one before it. */
  ghost predicate Chained(sent: seq<Request>, first: Option<string>, replies: nat -> Reply, start: nat) {
    forall i :: 0 <= i < |sent| ==>
      sent[i].previous == if i == 0 then first else RunningSummary(replies, start + i - 1)
  }

  ghost function RunningSummary(replies: nat -> Reply, n: nat): Option<string> {
    match replies(n) case Summary(text) => Some(Strip(text)) case Failure => None
  }

  ghost predicate EachFits(sent: seq<Request>, estimate: Estimator, budget: int, cap: int) {
    forall i :: 0 <= i < |sent| ==> estimate(PromptOf(sent[i])) <= budget && sent[i].outputCap == cap
  }

  /** One more request extends the account of what was sent. */
  lemma SentOneMore(sent: seq<Request>, request: Request, source: seq<string>, pending: seq<string>, rest: seq<string>)
    requires Consume(Fragments(sent), source) == Some(pending)
    requires TakenFrom(pending, request.chunk, rest)
    ensures Consume(Fragments(sent + [request]), source) == Some(rest)
  {
    var more := sent + [request];
    assert more[..|more| - 1] == sent;
    TakenIsConsumed(pending, request.chunk, rest);
    ConsumeConcat(Fragments(sent), request.chunk, source);
  }

  /** Where the running summary stands after some requests. */
  ghost predicate Standing(sent: seq<Request>, first: Option<string>, summary: Option<string>,
                           replies: nat -> Reply, start: nat)
  {
    if sent == [] then summary == first
    else summary == RunningSummary(replies, start + |sent| - 1) && Usable(summary)
  }

  predicate Usable(summary: Option<string>) {
    summary.Some? && summary.value != "" && Trimmed(summary.value)
  }

  lemma StandOneMore(sent: seq<Request>, request: Request, first: Option<string>, text: string,
                     replies: nat -> Reply, start: nat)
    requires replies(start + |sent|) == Summary(text) && Strip(text) != ""
    ensures Standing(sent + [request], first, Some(Strip(text)), replies, start)
  {
    StripTrims(text);
    assert start + |sent + [request]| - 1 == start + |sent|;
  }

  lemma ChainOneMore(sent: seq<Request>, request: Request, first: Option<string>, replies: nat -> Reply, start: nat)
    requires Chained(sent, first, replies, start)
    requires Standing(sent, first, request.previous, replies, start)
    ensures Chained(sent + [request], first, replies, start)
  {
  }

  lemma FitOneMore(sent: seq<Request>, request: Request, estimate: Estimator, budget: int, cap: int)
    requires EachFits(sent, estimate, budget, cap)
    requires estimate(PromptOf(request)) <= budget && request.outputCap == cap
    ensures EachFits(sent + [request], estimate, budget, cap)
  {
  }

  /** The account of the requests sent so far: what they carried, what is pending, and under which limits. */
  ghost predicate Account(sent: seq<Request>, source: seq<string>, pending: seq<string>, first: Option<string>,
                          estimate: Estimator, budget: int, cap: int, replies: nat -> Reply, start: nat)
  {
    && Consume(Fragments(sent), source) == Some(pending)
    && EachFits(sent, estimate, budget, cap)
    && Chained(sent, first, replies, start)
    && (sent == [] ==> pending == source)
    && (sent != [] ==> source != [])
  }

  lemma AccountOneMore(sent: seq<Request>, request: Request, source: seq<string>, pending: seq<string>, rest: seq<string>,
                       first: Option<string>, estimate: Estimator, budget: int, cap: int,
                       replies: nat -> Reply, start: nat)
    requires Account(sent, source, pending, first, estimate, budget, cap, replies, start)
    requires Standing(sent, first, request.previous, replies, start)
    requires TakenFrom(pending, request.chunk, rest)
    requires estimate(PromptOf(request)) <= budget && request.outputCap == cap
    ensures Account(sent + [request], source, rest, first, estimate, budget, cap, replies, start)
  {
    SentOneMore(sent, request, source, pending, rest);
    ChainOneMore(sent, request, first, replies, start);
    FitOneMore(sent, request, estimate, budget, cap);
    assert pending != [];
    assert source == [] ==> sent == [];
  }

  /** What one round does to the account, and what its answer does to the running summary. */
  lemma RoundDone(sent: seq<Request>, request: Request, source: seq<string>, pending: seq<string>, rest: seq<string>,
                  first: Option<string>, estimate: Estimator, budget: int, cap: int, replies: nat -> Reply, start: nat)
    requires Account(sent, source, pending, first, estimate, budget, cap, replies, start)
    requires Standing(sent, first, request.previous, replies, start)
    requires TakenFrom(pending, request.chunk, rest)
    requires estimate(PromptOf(request)) <= budget && request.outputCap == cap
    ensures Account(sent + [request], source, rest, first, estimate, budget, cap, replies, start)
    ensures Characters(rest) + |rest| < Characters(pending) + |pending| && |sent + [request]| == |sent| + 1
    ensures replies(start + |sent|).Summary? && Strip(replies(start + |sent|).text) != "" ==>
              Standing(sent + [request], first, Some(Strip(replies(start + |sent|).text)), replies, start)
  {
    TakenIsLess(pending, request.chunk, rest);
    AccountOneMore(sent, request, source, pending, rest, first, estimate, budget, cap, replies, start);
    if replies(start + |sent|).Summary? && Strip(replies(start + |sent|).text) != "" {
      StandOneMore(sent, request, first, replies(start + |sent|).text, replies, start);
    }
  }

  /** The loop of the fold, from the entries and the running summary it starts with. */
  method FoldEntries(source: seq<string>, first: Option<string>, estimate: Estimator, inputBudget: int, outputCap: int,
                     replies: nat -> Reply, start: nat)
    returns (r: Outcome<Option<string>>, sent: seq<Request>, ghost left: seq<string>)
    ensures Account(sent, source, left, first, estimate, inputBudget, outputCap, replies, start)
    ensures r.Ok? ==> left == []
    ensures r.Ok? ==> (sent == [] <==> source == []) && Standing(sent, first, r.value, replies, start)
    ensures r.Raised? ==> NotSummarized(r.error, start + |sent|, replies) && !r.error.NothingToSummarize?
  {
    var pending, summary := source, first;
    sent := [];
    while pending != []
      invariant Account(sent, source, pending, first, estimate, inputBudget, outputCap, replies, start)
      invariant Standing(sent, first, summary, replies, start)
      decreases Characters(pending) + |pending|
    {
      var round;
      round, sent, pending :=
        FoldRound(sent, source, pending, first, summary, estimate, inputBudget, outputCap, replies, start);
      if round.Raised? {
        return Raised(round.error), sent, pending;
      }
      summary := round.value;
    }
    return Ok(summary), sent, pending;
  }

  /** One round: take a chunk, send it with the running summary, and take the answer as the new one. */
  method FoldRound(before: seq<Request>, ghost source: seq<string>, pending: seq<string>, ghost first: Option<string>,
                   summary: Option<string>, estimate: Estimator, inputBudget: int, outputCap: int,
                   replies: nat -> Reply, start: nat)
    returns (r: Outcome<Option<string>>, sent: seq<Request>, rest: seq<string>)
    requires pending != []
    requires Account(before, source, pending, first, estimate, inputBudget, outputCap, replies, start)
    requires Standing(before, first, summary, replies, start)
    ensures Account(sent, source, rest, first, estimate, inputBudget, outputCap, replies, start)
    ensures r.Ok? ==> Standing(sent, first, r.value, replies, start)
    ensures r.Ok? ==> Characters(rest) + |rest| < Characters(pending) + |pending|
    ensures r.Raised? ==> NotSummarized(r.error, start + |sent|, replies) && !r.error.NothingToSummarize?
  {
    var taken := TakeSummaryChunk(pending, summary, estimate, inputBudget);
    if taken.Raised? {
      return Raised(taken.error), before, pending;
    }
    var request := Request(taken.value.0, summary, outputCap);
    rest := taken.value.1;
    // The source measures the prompt once more before sending it; it always fits.
    assert estimate(PromptOf(request)) <= inputBudget;
    RoundDone(before, request, source, pending, rest, first, estimate, inputBudget, outputCap, replies, start);
    sent := before + [request];
    var reply := AskForSummary(replies, start + |before|);
    if reply.Raised? {
      return Raised(reply.error), sent, rest;
    }
    return Ok(Some(reply.value)), sent, rest;
  }

  /** How summarising ends in vain; the model is blamed only when it did not answer the last of n requests. */
  ghost predicate NotSummarized(e: Error, n: nat, replies: nat -> Reply) {
    && (e.NoRoomForSource? || e.EmptySummary? || e.ModelFailed? || e.NothingToSummarize?)
    && (e.ModelFailed? ==> n > 0 && RunningSummary(replies, n - 1).None?)
  }

  /** One answer of the model, trimmed; a blank one is an error. */
  method AskForSummary(replies: nat -> Reply, n: nat) returns (r: Outcome<string>)
    ensures r.Ok? ==> replies(n).Summary? && r.value == Strip(replies(n).text) && r.value != ""
    ensures r.Raised? ==> r.error == (if replies(n).Failure? then ModelFailed else EmptySummary)
    ensures r.Raised? ==> NotSummarized(r.error, n + 1, replies)
  {
    var reply := replies(n);
    if reply.Failure? {
      return Raised(ModelFailed);
    }
    var text := Strip(reply.text);
    if text == "" {
      return Raised(EmptySummary);
    }
    return Ok(text);
  }

  /**
   * For every model: the fold ends; every prompt it sends is within the input budget and asks for the full cap; on
   * success the chunks sent use up the entries exactly, in order, and the result is the trimmed last reply. The
   * second budget check before a request never fires, and the final "no content" error only for no entries at all.
   */
  method SummarizeEntries(entries: seq<string>, previous: Option<string>, config: ContextBudgetConfig,
                          estimate: Estimator, maxOutput: int, replies: nat -> Reply, start: nat)
    returns (r: Outcome<string>, sent: seq<Request>)
    ensures var cap := ClampCap(config, maxOutput);
            var budget := config.InputBudgetFor(cap);
            && EachFits(sent, estimate, budget, cap)
            && Chained(sent, StartSummary(previous, estimate, budget), replies, start)
            && (r.Ok? ==> Consume(Fragments(sent), StartEntries(entries, previous, estimate, budget)) == Some([]))
    ensures r.Ok? && entries != [] ==>
              && sent != []
              && Some(r.value) == RunningSummary(replies, start + |sent| - 1) && Usable(Some(r.value))
    ensures r.Raised? ==> NotSummarized(r.error, start + |sent|, replies)
    ensures r.Raised? && r.error == NothingToSummarize ==> entries == [] && previous.None?
  {
    var outputCap := ClampCap(config, maxOutput);
    var inputBudget := config.InputBudgetFor(outputCap);
    var pending, summary := entries, previous;
    if summary.Some? && !Fits([], summary, estimate, inputBudget) {
      pending := [FOLDED_LABEL + summary.value] + pending;
      summary := None;
    }
    var folded;
    ghost var left;
    folded, sent, left := FoldEntries(pending, summary, estimate, inputBudget, outputCap, replies, start);
    if folded.Raised? {
      return Raised(folded.error), sent;
    }
    if folded.value.None? {
      return Raised(NothingToSummarize), sent;
    }
    return Ok(folded.value.value), sent;
  }
}
