/**
 * The agent loop: it keeps a live message list, records what it did as journal mutations, compacts when a request
 * would be too large, recovers once from a provider overflow, and hands tool results back to the model.
 */
module AgentLoop {
  import opened Text
  import opened Budget
  import opened Transcript
  import opened Summarizer
  import opened Serialization
  import opened Compaction
  import opened AgentWorld

  datatype Estimators = Estimators(context: ContextEstimator, history: ContextEstimator, summary: Estimator)

  /** A chat request as sent, with the number of mutations recorded when it was sent. */
  datatype ChatRequest = ChatRequest(messages: seq<Message>, outputCap: int, recorded: nat)

  /** What a run is given: the journal so far, the messages its prompt adds, and what it will meet. */
  datatype Setting = Setting(ghost journal: seq<Mutation>, opening: seq<Message>, userPrompt: string,
                             config: ContextBudgetConfig, estimators: Estimators, world: World)

  datatype AgentResult = AgentResult(content: string, messages: seq<Message>, mutations: seq<Mutation>, iterations: nat)

  // ---------------------------------------------------------------- the live list and the journal

  /** The live list is what the journal will project to, and owes exactly these tool results. */
  ghost predicate Live(journal: seq<Mutation>, mutations: seq<Mutation>, messages: seq<Message>, owed: Owed) {
    && Project(journal + mutations) == messages
    && Coherent(journal + mutations)
    && PairAll(SETTLED, messages) == owed
  }

  lemma LiveAppend(journal: seq<Mutation>, mutations: seq<Mutation>, messages: seq<Message>, owed: Owed, m: Message)
    requires Live(journal, mutations, messages, owed)
    requires m.role != System || messages == []
    ensures Live(journal, mutations + [Appended(m)], messages + [m], PairStep(owed, m))
  {
    var j := journal + mutations;
    assert j + [Appended(m)] == journal + (mutations + [Appended(m)]);
    ProjectAppend(j, m);
    PairAllConcat(SETTLED, messages, [m]);
    assert PairAll(owed, [m]) == PairStep(owed, m);
  }

  lemma LiveCheckpoint(journal: seq<Mutation>, mutations: seq<Mutation>, messages: seq<Message>,
                       result: CompactionResult, cause: Cause)
    requires Live(journal, mutations, messages, SETTLED) && Compacted(messages, result)
    ensures Live(journal, mutations + [CheckpointOf(result, cause)], result.messages, SETTLED)
    ensures PartsOf(result.messages).user == PartsOf(messages).user
  {
    var j := journal + mutations;
    var c := CheckpointOf(result, cause);
    assert j + [c] == journal + (mutations + [c]);
    CheckpointProjects(j, result, cause);
    CompactionKeepsPairing(messages, result);
    CompactedSplitsAgain(messages, result);
  }

  lemma UserStays(messages: seq<Message>, m: Message)
    requires m.role != User
    ensures PartsOf(messages + [m]).user == PartsOf(messages).user
  {
    assert (messages + [m])[..|messages|] == messages;
  }

  /** `commit_turn` accepts a mutation unless it is a checkpoint whose summary is blank. */
  predicate Acceptable(mutation: Mutation) {
    mutation.Checkpoint? ==> Strip(mutation.summary) != ""
  }

  ghost predicate AllAcceptable(mutations: seq<Mutation>) {
    forall i :: 0 <= i < |mutations| ==> Acceptable(mutations[i])
  }

  // ---------------------------------------------------------------- requests

  /** What every chat request satisfies: it fits, it shows the journal so far, it is paired, it ends in the user's words. */
  ghost predicate SoundRequest(s: Setting, request: ChatRequest, mutations: seq<Mutation>) {
    && request.recorded <= |mutations|
    && Project(s.journal + mutations[..request.recorded]) == request.messages
    && Paired(request.messages)
    && PartsOf(request.messages).user == Some(UserMessage(s.userPrompt))
    && s.config.OutputReserve() <= request.outputCap
    && s.estimators.context(request.messages) + request.outputCap + s.config.SafetyMargin() <= s.config.window
  }

  ghost predicate SoundRequests(s: Setting, chats: seq<ChatRequest>, mutations: seq<Mutation>) {
    forall i {:trigger SoundRequest(s, chats[i], mutations)} ::
      0 <= i < |chats| ==> SoundRequest(s, chats[i], mutations)
  }

  lemma SoundLater(s: Setting, chats: seq<ChatRequest>, mutations: seq<Mutation>, more: seq<Mutation>)
    requires SoundRequests(s, chats, mutations)
    ensures SoundRequests(s, chats, mutations + more)
  {
    forall i | 0 <= i < |chats| ensures SoundRequest(s, chats[i], mutations + more) {
      assert SoundRequest(s, chats[i], mutations);
      assert (mutations + more)[..chats[i].recorded] == mutations[..chats[i].recorded];
    }
  }

  /** Everything the loop keeps between two steps. */
  ghost predicate Steady(s: Setting, mutations: seq<Mutation>, messages: seq<Message>, owed: Owed,
                         chats: seq<ChatRequest>)
  {
    && Live(s.journal, mutations, messages, owed)
    && AllAcceptable(mutations)
    && PartsOf(messages).user == Some(UserMessage(s.userPrompt))
    && SoundRequests(s, chats, mutations)
  }

  lemma SteadyAppend(s: Setting, mutations: seq<Mutation>, messages: seq<Message>, owed: Owed,
                     chats: seq<ChatRequest>, m: Message)
    requires Steady(s, mutations, messages, owed, chats)
    requires m.role == Assistant || m.role == Tool
    ensures Steady(s, mutations + [Appended(m)], messages + [m], PairStep(owed, m), chats)
  {
    LiveAppend(s.journal, mutations, messages, owed, m);
    UserStays(messages, m);
    SoundLater(s, chats, mutations, [Appended(m)]);
  }

  lemma SteadyCheckpoint(s: Setting, mutations: seq<Mutation>, messages: seq<Message>, chats: seq<ChatRequest>,
                         result: CompactionResult, cause: Cause)
    requires Steady(s, mutations, messages, SETTLED, chats)
    requires Compacted(messages, result)
    ensures Steady(s, mutations + [CheckpointOf(result, cause)], result.messages, SETTLED, chats)
  {
    LiveCheckpoint(s.journal, mutations, messages, result, cause);
    SoundLater(s, chats, mutations, [CheckpointOf(result, cause)]);
    StripTrims(result.summary.value);
  }

  /** Sending the live list as it stands is sound when it is within the token budget. */
  lemma SteadySend(s: Setting, mutations: seq<Mutation>, messages: seq<Message>, chats: seq<ChatRequest>)
    requires s.config.Valid() && Steady(s, mutations, messages, SETTLED, chats)
    requires s.estimators.context(messages) <= s.config.TokenBudget()
    ensures s.config.OutputTokensFor(s.estimators.context(messages), None).Some?
    ensures var cap := s.config.OutputTokensFor(s.estimators.context(messages), None).value;
            Steady(s, mutations, messages, SETTLED, chats + [ChatRequest(messages, cap, |mutations|)])
  {
    TokenBudgetIsExact(s.config, s.estimators.context(messages));
    assert mutations[..|mutations|] == mutations;
  }

  // ---------------------------------------------------------------- the record

  /** When the n-th request was made, the record held the opening and all that had been said, word for word. */
  ghost predicate ToldAt(s: Setting, mutations: seq<Mutation>, request: ChatRequest, n: nat) {
    request.recorded <= |mutations| && Appendeds(mutations[..request.recorded]) == s.opening + Said(s.world, n)
  }

  ghost predicate ToldAtEach(s: Setting, mutations: seq<Mutation>, chats: seq<ChatRequest>) {
    forall i {:trigger ToldAt(s, mutations, chats[i], i)} ::
      0 <= i < |chats| ==> ToldAt(s, mutations, chats[i], i)
  }

  /** What was shown is compacted to the result, by a summary that the model gave for all that it stands for. */
  ghost predicate Compacts(s: Setting, shown: seq<Message>, result: CompactionResult, round: seq<Request>, at: nat) {
    && Compacted(shown, result)
    && result.originalTokens == s.estimators.context(shown)
    && result.compactedTokens == s.estimators.context(result.messages) <= s.config.TokenBudget()
    && SummarizedBy(round, at, SerializeEntries(PartsOf(shown).history[..result.summarizedCount]),
                    PartsOf(shown).summary, result.summary.value, s.config, s.estimators.summary, s.world.summaries)
    && ToldModel(round, at, PartsOf(shown).history[..result.summarizedCount], PartsOf(shown).summary,
                 result.summary.value, s.world.summaries)
  }

  predicate IsPart(sent: seq<Request>, round: seq<Request>, at: nat) {
    at + |round| <= |sent| && sent[at..at + |round|] == round
  }

  /** The checkpoint carries the compaction's summary, what it kept, its figures, and why it was made. */
  ghost predicate CarriesResult(s: Setting, c: Mutation, shown: seq<Message>, result: CompactionResult)
    requires c.Checkpoint?
  {
    && result.summary == Some(c.summary) && c.retained == result.retainedMessages
    && c.originalTokens == s.estimators.context(shown) && c.compactedTokens == s.estimators.context(result.messages)
    && c.summarizedCount == result.summarizedCount
    && (c.cause == Proactive ==> c.originalTokens > s.config.TokenBudget())
  }

  ghost predicate HonestBy(s: Setting, c: Mutation, shown: seq<Message>, sent: seq<Request>, result: CompactionResult,
                           round: seq<Request>, at: nat)
    requires c.Checkpoint?
  {
    Compacts(s, shown, result, round, at) && CarriesResult(s, c, shown, result) && IsPart(sent, round, at)
  }

  /** The checkpoint stands for a compaction of what was shown just before it, made with requests that were sent. */
  ghost predicate Honest(s: Setting, c: Mutation, shown: seq<Message>, sent: seq<Request>) {
    c.Checkpoint? ==> exists result, round, at: nat :: HonestBy(s, c, shown, sent, result, round, at)
  }

  ghost predicate HonestAt(s: Setting, mutations: seq<Mutation>, i: nat, sent: seq<Request>)
    requires i < |mutations|
  {
    Honest(s, mutations[i], Project(s.journal + mutations[..i]), sent)
  }

  ghost predicate AllHonest(s: Setting, mutations: seq<Mutation>, sent: seq<Request>) {
    forall i {:trigger HonestAt(s, mutations, i, sent)} :: 0 <= i < |mutations| ==> HonestAt(s, mutations, i, sent)
  }

  /** What the record of a run says: everything spoken, in order, and every compaction as it was made. */
  ghost predicate Recorded(s: Setting, mutations: seq<Mutation>, chats: seq<ChatRequest>, sent: seq<Request>,
                           spoken: seq<Message>)
  {
    && Appendeds(mutations) == s.opening + spoken
    && ToldAtEach(s, mutations, chats)
    && AllHonest(s, mutations, sent)
    && Granted(sent, s.config, s.estimators.summary)
  }

  lemma ToldLater(s: Setting, mutations: seq<Mutation>, m: Mutation, chats: seq<ChatRequest>)
    requires ToldAtEach(s, mutations, chats)
    ensures ToldAtEach(s, mutations + [m], chats)
  {
    forall i | 0 <= i < |chats| ensures ToldAt(s, mutations + [m], chats[i], i) {
      assert ToldAt(s, mutations, chats[i], i);
      assert (mutations + [m])[..chats[i].recorded] == mutations[..chats[i].recorded];
    }
  }

  lemma PartLater(sent: seq<Request>, round: seq<Request>, at: nat, more: seq<Request>)
    requires IsPart(sent, round, at)
    ensures IsPart(sent + more, round, at)
  {
    assert (sent + more)[at..at + |round|] == sent[at..at + |round|];
  }

  lemma LastIsPart(before: seq<Request>, more: seq<Request>, round: seq<Request>, at: nat)
    requires LastSent(more, round) && at + |round| == |before| + |more|
    ensures IsPart(before + more, round, at)
  {
    assert (before + more)[at..at + |round|] == round;
  }

  /** What was honest stays so when more summary requests are sent. */
  lemma HonestLater(s: Setting, c: Mutation, shown: seq<Message>, sent: seq<Request>, more: seq<Request>)
    requires Honest(s, c, shown, sent)
    ensures Honest(s, c, shown, sent + more)
  {
    if c.Checkpoint? {
      var result, round, at: nat :| HonestBy(s, c, shown, sent, result, round, at);
      PartLater(sent, round, at, more);
      assert HonestBy(s, c, shown, sent + more, result, round, at);
    }
  }

  lemma AllHonestLater(s: Setting, mutations: seq<Mutation>, sent: seq<Request>, more: seq<Request>)
    requires AllHonest(s, mutations, sent)
    ensures AllHonest(s, mutations, sent + more)
  {
    forall i | 0 <= i < |mutations| ensures HonestAt(s, mutations, i, sent + more) {
      assert HonestAt(s, mutations, i, sent);
      HonestLater(s, mutations[i], Project(s.journal + mutations[..i]), sent, more);
    }
  }

  lemma HonestStays(s: Setting, mutations: seq<Mutation>, m: Mutation, i: nat, sent: seq<Request>)
    requires i < |mutations| && HonestAt(s, mutations, i, sent)
    ensures HonestAt(s, mutations + [m], i, sent)
  {
    assert (mutations + [m])[..i] == mutations[..i];
  }

  lemma HonestLast(s: Setting, mutations: seq<Mutation>, m: Mutation, sent: seq<Request>)
    requires Honest(s, m, Project(s.journal + mutations), sent)
    ensures HonestAt(s, mutations + [m], |mutations|, sent)
  {
    assert (mutations + [m])[..|mutations|] == mutations;
  }

  lemma AllHonestMore(s: Setting, mutations: seq<Mutation>, m: Mutation, sent: seq<Request>)
    requires AllHonest(s, mutations, sent) && Honest(s, m, Project(s.journal + mutations), sent)
    ensures AllHonest(s, mutations + [m], sent)
  {
    forall i | 0 <= i < |mutations + [m]| ensures HonestAt(s, mutations + [m], i, sent) {
      if i < |mutations| {
        HonestStays(s, mutations, m, i, sent);
      } else {
        HonestLast(s, mutations, m, sent);
      }
    }
  }

  lemma RecordedAppend(s: Setting, mutations: seq<Mutation>, chats: seq<ChatRequest>, sent: seq<Request>,
                       spoken: seq<Message>, m: Message)
    requires Recorded(s, mutations, chats, sent, spoken)
    ensures Recorded(s, mutations + [Appended(m)], chats, sent, spoken + [m])
  {
    ToldLater(s, mutations, Appended(m), chats);
    AllHonestMore(s, mutations, Appended(m), sent);
    AppendedsPush(mutations, m);
    assert s.opening + spoken + [m] == s.opening + (spoken + [m]);
  }

  lemma RecordedSummaries(s: Setting, mutations: seq<Mutation>, chats: seq<ChatRequest>, sent: seq<Request>,
                          more: seq<Request>, spoken: seq<Message>)
    requires Recorded(s, mutations, chats, sent, spoken) && Granted(more, s.config, s.estimators.summary)
    ensures Recorded(s, mutations, chats, sent + more, spoken)
  {
    AllHonestLater(s, mutations, sent, more);
    GrantedAppend(sent, more, s.config, s.estimators.summary);
  }

  lemma RecordedCheckpoint(s: Setting, mutations: seq<Mutation>, chats: seq<ChatRequest>, sent: seq<Request>,
                           spoken: seq<Message>, c: Mutation)
    requires Recorded(s, mutations, chats, sent, spoken) && c.Checkpoint?
    requires Honest(s, c, Project(s.journal + mutations), sent)
    ensures Recorded(s, mutations + [c], chats, sent, spoken)
  {
    ToldLater(s, mutations, c, chats);
    AllHonestMore(s, mutations, c, sent);
    CheckpointSaysNothing(mutations, c);
  }

  lemma CheckpointSaysNothing(mutations: seq<Mutation>, c: Mutation)
    requires c.Checkpoint?
    ensures Appendeds(mutations + [c]) == Appendeds(mutations)
  {
    assert (mutations + [c])[..|mutations|] == mutations;
  }

  lemma RecordedChat(s: Setting, mutations: seq<Mutation>, chats: seq<ChatRequest>, sent: seq<Request>,
                     request: ChatRequest)
    requires Recorded(s, mutations, chats, sent, Said(s.world, |chats|)) && request.recorded == |mutations|
    ensures Recorded(s, mutations, chats + [request], sent, Said(s.world, |chats|))
  {
    ToldNow(s, mutations, request, |chats|);
    OneMoreTold(s, mutations, chats, request);
  }

  lemma ToldNow(s: Setting, mutations: seq<Mutation>, request: ChatRequest, n: nat)
    requires Appendeds(mutations) == s.opening + Said(s.world, n) && request.recorded == |mutations|
    ensures ToldAt(s, mutations, request, n)
  {
    assert mutations[..|mutations|] == mutations;
  }

  lemma OneMoreTold(s: Setting, mutations: seq<Mutation>, chats: seq<ChatRequest>, request: ChatRequest)
    requires ToldAtEach(s, mutations, chats) && ToldAt(s, mutations, request, |chats|)
    ensures ToldAtEach(s, mutations, chats + [request])
  {
    var all := chats + [request];
    forall i | 0 <= i < |all| ensures ToldAt(s, mutations, all[i], i) {
      if i < |chats| {
        assert ToldAt(s, mutations, chats[i], i);
      }
    }
  }

  // ---------------------------------------------------------------- one turn

  /** Compaction in front of a turn, and the checkpoint to record when there was one. */
  method CompactForTurn(s: Setting, messages: seq<Message>, force: bool, start: nat)
    returns (r: Outcome<(seq<Message>, seq<Mutation>)>, sent: seq<Request>, ghost result: CompactionResult,
             ghost round: seq<Request>, ghost at: nat)
    requires s.config.Valid()
    ensures Granted(sent, s.config, s.estimators.summary)
    ensures LastSent(sent, round) && at + |round| == start + |sent|
    ensures r.Ok? ==>
      && s.estimators.context(r.value.0) <= s.config.TokenBudget()
      && if r.value.1 == [] then r.value.0 == messages
         else && Compacts(s, messages, result, round, at) && r.value.0 == result.messages
              && r.value.1 == [CheckpointOf(result, if force then ProviderOverflow else Proactive)]
              && (force || s.estimators.context(messages) > s.config.TokenBudget())
    ensures r.Raised? ==>
      && (IsBudgetError(r.error) || NotSummarized(r.error, start + |sent|, s.world.summaries))
      && (force || s.estimators.context(messages) > s.config.TokenBudget())
  {
    var compaction;
    compaction, sent, round, at :=
      CompactContext(messages, s.config, force, s.estimators.context, s.estimators.history, s.estimators.summary,
                     s.world.summaries, start);
    if compaction.Raised? {
      result := CompactionResult([], 0, 0, 0, None, []);
      return Raised(compaction.error), sent, result, round, at;
    }
    result := compaction.value;
    if compaction.value.summarizedCount == 0 {
      return Ok((compaction.value.messages, [])), sent, result, round, at;
    }
    var checkpoint := CheckpointOf(compaction.value, if force then ProviderOverflow else Proactive);
    return Ok((compaction.value.messages, [checkpoint])), sent, result, round, at;
  }

  /** One chat request; the output cap is worked out from what is actually sent and never turns out to be missing. */
  method Generate(messages: seq<Message>, config: ContextBudgetConfig, estimators: Estimators, world: World, n: nat)
    returns (r: Outcome<ChatReply>, outputCap: int)
    requires config.Valid() && estimators.context(messages) <= config.TokenBudget()
    ensures config.OutputTokensFor(estimators.context(messages), None) == Some(outputCap)
    ensures r.Ok? ==> r.value == world.chat(n) && Replied(world, n)
    ensures r.Raised? ==> Some(r.error) == TurnError(world.chat(n))
  {
    TokenBudgetIsExact(config, estimators.context(messages));
    outputCap := config.OutputTokensFor(estimators.context(messages), None).value;
    var reply := world.chat(n);
    var error := TurnError(reply);
    r := if error.Some? then Raised(error.value) else Ok(reply);
  }

  /** Between two requests: nothing that was said is missing, and nothing is owed. */
  ghost predicate Ready(s: Setting, mutations: seq<Mutation>, messages: seq<Message>, chats: seq<ChatRequest>,
                        sent: seq<Request>, n: nat)
  {
    s.config.Valid() && Steady(s, mutations, messages, SETTLED, chats)
    && Recorded(s, mutations, chats, sent, Said(s.world, n))
  }

  lemma MadeHonestly(s: Setting, shown: seq<Message>, before: seq<Request>, more: seq<Request>,
                     result: CompactionResult, cause: Cause, round: seq<Request>, at: nat)
    requires Compacts(s, shown, result, round, at)
    requires cause == Proactive ==> s.estimators.context(shown) > s.config.TokenBudget()
    requires LastSent(more, round) && at + |round| == |before| + |more|
    ensures Honest(s, CheckpointOf(result, cause), shown, before + more)
  {
    LastIsPart(before, more, round, at);
    assert HonestBy(s, CheckpointOf(result, cause), shown, before + more, result, round, at);
  }

  /** A compaction before the n-th request, and the checkpoint it leaves behind. */
  method CompactFirst(s: Setting, before: seq<Mutation>, live: seq<Message>, ghost chats: seq<ChatRequest>,
                      sentBefore: seq<Request>, force: bool)
    returns (r: Outcome<()>, messages: seq<Message>, mutations: seq<Mutation>, sent: seq<Request>)
    requires Ready(s, before, live, chats, sentBefore, |chats|)
    ensures Ready(s, mutations, messages, chats, sent, |chats|) && before <= mutations
    ensures r.Ok? ==> s.estimators.context(messages) <= s.config.TokenBudget()
    ensures r.Raised? ==>
      && CompactionFailed(s, r.error, |sent|) && messages == live
      && (force || s.estimators.context(messages) > s.config.TokenBudget())
  {
    var compaction, more;
    ghost var result, round, at;
    compaction, more, result, round, at := CompactForTurn(s, live, force, |sentBefore|);
    RecordedSummaries(s, before, chats, sentBefore, more, Said(s.world, |chats|));
    sent := sentBefore + more;
    if compaction.Raised? {
      return Raised(compaction.error), live, before, sent;
    }
    messages, mutations := compaction.value.0, before + compaction.value.1;
    if compaction.value.1 == [] {
      assert mutations == before;
    } else {
      var cause := if force then ProviderOverflow else Proactive;
      MadeHonestly(s, live, sentBefore, more, result, cause, round, at);
      RecordedCheckpoint(s, before, chats, sent, Said(s.world, |chats|), CheckpointOf(result, cause));
      SteadyCheckpoint(s, before, live, chats, result, cause);
    }
    r := Ok(());
  }

  ghost predicate CompactionFailed(s: Setting, e: Error, m: nat) {
    IsBudgetError(e) || NotSummarized(e, m, s.world.summaries)
  }

  /** A compaction, the checkpoint it leaves behind, and one chat request with the result. */
  method CompactThenGenerate(s: Setting, before: seq<Mutation>, live: seq<Message>, sentChats: seq<ChatRequest>,
                             sentBefore: seq<Request>, force: bool)
    returns (r: Outcome<ChatReply>, messages: seq<Message>, mutations: seq<Mutation>, chats: seq<ChatRequest>,
             sent: seq<Request>)
    requires Ready(s, before, live, sentChats, sentBefore, |sentChats|)
    ensures Ready(s, mutations, messages, chats, sent, |sentChats|) && before <= mutations
    ensures r.Ok? ==>
      && |chats| == |sentChats| + 1 && Replied(s.world, |sentChats|) && r.value == s.world.chat(|sentChats|)
      && chats[|sentChats|].messages == messages
    ensures r.Raised? ==>
      || (|chats| == |sentChats| + 1 && TurnError(s.world.chat(|sentChats|)) == Some(r.error))
      || (|chats| == |sentChats| && CompactionFailed(s, r.error, |sent|)
          && (force || s.estimators.context(messages) > s.config.TokenBudget()))
  {
    var compaction;
    chats := sentChats;
    compaction, messages, mutations, sent := CompactFirst(s, before, live, chats, sentBefore, force);
    if compaction.Raised? {
      return Raised(compaction.error), messages, mutations, chats, sent;
    }
    SteadySend(s, mutations, messages, chats);
    var outputCap;
    r, outputCap := Generate(messages, s.config, s.estimators, s.world, |chats|);
    RecordedChat(s, mutations, chats, sent, ChatRequest(messages, outputCap, |mutations|));
    chats := chats + [ChatRequest(messages, outputCap, |mutations|)];
  }

  /** How the turn after n requests ends without a reply, with this list shown and m summary requests sent. */
  ghost predicate TurnFailed(s: Setting, n: nat, after: nat, e: Error, m: nat, shown: seq<Message>) {
    || (after == n && CompactionFailed(s, e, m) && s.estimators.context(shown) > s.config.TokenBudget())
    || (after == n + 1 && TurnError(s.world.chat(n)) == Some(e) && e != ContextOverflow)
    || (after == n + 1 && Overflowed(s.world, n) && CompactionFailed(s, e, m))
    || (after == n + 2 && Overflowed(s.world, n) && TurnError(s.world.chat(n + 1)) == Some(e))
  }

  /**
   * Proactive compaction, the request, and after a provider overflow one forced compaction and one more request.
   * Whatever happens, what has been recorded and what has been sent stay in step.
   */
  method GenerateTurn(s: Setting, before: seq<Mutation>, live: seq<Message>, sentChats: seq<ChatRequest>,
                      sentBefore: seq<Request>)
    returns (r: Outcome<ChatReply>, messages: seq<Message>, mutations: seq<Mutation>, chats: seq<ChatRequest>,
             sent: seq<Request>)
    requires Ready(s, before, live, sentChats, sentBefore, |sentChats|)
    ensures Ready(s, mutations, messages, chats, sent, |sentChats|) && before <= mutations
    ensures r.Ok? ==>
      && TurnDone(s.world, |sentChats|, |chats|) && r.value == s.world.chat(|chats| - 1)
      && chats[|chats| - 1].messages == messages
    ensures r.Raised? ==> TurnFailed(s, |sentChats|, |chats|, r.error, |sent|, messages)
  {
    r, messages, mutations, chats, sent := CompactThenGenerate(s, before, live, sentChats, sentBefore, false);
    // A compaction never raises the overflow error, so this is an overflow the provider reported.
    if r.Raised? && r.error == ContextOverflow {
      assert Said(s.world, |chats|) == Said(s.world, |sentChats|);
      r, messages, mutations, chats, sent := CompactThenGenerate(s, mutations, messages, chats, sent, true);
    }
  }

  /** The tools' answers to the calls of one batch, or nothing when the batch raised. */
  method RunBatch(world: World, iteration: nat, calls: seq<ToolCall>) returns (texts: Option<seq<string>>)
    ensures texts.Some? <==> AllAnswered(world, iteration, calls)
    ensures texts.Some? ==>
      |texts.value| == |calls| && forall i :: 0 <= i < |calls| ==> texts.value[i] == AnswerText(world, iteration, i)
  {
    var answers: seq<string> := [];
    for i := 0 to |calls|
      invariant |answers| == i && forall k :: 0 <= k < i ==> answers[k] == AnswerText(world, iteration, k)
      invariant forall k :: 0 <= k < i ==> HasAnswer(world, iteration, k)
    {
      var text := world.tools(iteration, i);
      if text.None? {
        assert !HasAnswer(world, iteration, i);
        return None;
      }
      answers := answers + [text.value];
    }
    return Some(answers);
  }

  /** The results of one batch, recorded in the order of the calls; false when the batch itself raised. */
  method AnswerCalls(s: Setting, before: seq<Mutation>, live: seq<Message>, ghost chats: seq<ChatRequest>,
                     ghost sent: seq<Request>, ghost spoken: seq<Message>, calls: seq<ToolCall>, iteration: nat)
    returns (answered: bool, messages: seq<Message>, mutations: seq<Mutation>)
    requires Steady(s, before, live, Owed.Owed(CallIds(calls)), chats) && Recorded(s, before, chats, sent, spoken)
    ensures answered <==> AllAnswered(s.world, iteration, calls)
    ensures !answered ==> messages == live && mutations == before
    ensures answered ==>
      && messages == live + Answers(s.world, iteration, calls, |calls|)
      && Steady(s, mutations, messages, SETTLED, chats)
      && Recorded(s, mutations, chats, sent, spoken + Answers(s.world, iteration, calls, |calls|))
    ensures before <= mutations
  {
    messages, mutations := live, before;
    var texts := RunBatch(s.world, iteration, calls);
    if texts.None? {
      return false, messages, mutations;
    }
    FirstAnswer(s, before, live, chats, sent, spoken, calls, iteration);
    for i := 0 to |calls|
      invariant before <= mutations
      invariant Answering(s, mutations, messages, live, chats, sent, spoken, calls, iteration, i)
    {
      var message := ToolMessage(calls[i], i, texts.value[i]);
      NextAnswer(s, mutations, messages, live, chats, sent, spoken, calls, iteration, i);
      messages, mutations := messages + [message], mutations + [Appended(message)];
    }
    LastAnswer(s, mutations, messages, live, chats, sent, spoken, calls, iteration);
    return true, messages, mutations;
  }

  /** The first n results of a batch are recorded. */
  ghost predicate Answering(s: Setting, mutations: seq<Mutation>, messages: seq<Message>, live: seq<Message>,
                            chats: seq<ChatRequest>, sent: seq<Request>, spoken: seq<Message>, calls: seq<ToolCall>,
                            iteration: nat, n: nat)
    requires n <= |calls|
  {
    && Steady(s, mutations, messages, Owed.Owed(CallIds(calls)[n..]), chats)
    && Recorded(s, mutations, chats, sent, spoken + Answers(s.world, iteration, calls, n))
    && messages == live + Answers(s.world, iteration, calls, n)
  }

  lemma FirstAnswer(s: Setting, mutations: seq<Mutation>, live: seq<Message>, chats: seq<ChatRequest>,
                    sent: seq<Request>, spoken: seq<Message>, calls: seq<ToolCall>, iteration: nat)
    requires Steady(s, mutations, live, Owed.Owed(CallIds(calls)), chats)
    requires Recorded(s, mutations, chats, sent, spoken)
    ensures Answering(s, mutations, live, live, chats, sent, spoken, calls, iteration, 0)
  {
    assert CallIds(calls)[0..] == CallIds(calls);
    assert spoken + Answers(s.world, iteration, calls, 0) == spoken;
    assert live + Answers(s.world, iteration, calls, 0) == live;
  }

  lemma NextAnswer(s: Setting, mutations: seq<Mutation>, messages: seq<Message>, live: seq<Message>,
                   chats: seq<ChatRequest>, sent: seq<Request>, spoken: seq<Message>, calls: seq<ToolCall>,
                   iteration: nat, n: nat)
    requires n < |calls| && Answering(s, mutations, messages, live, chats, sent, spoken, calls, iteration, n)
    ensures var message := ToolMessage(calls[n], n, AnswerText(s.world, iteration, n));
            Answering(s, mutations + [Appended(message)], messages + [message], live, chats, sent, spoken, calls,
                      iteration, n + 1)
  {
    var ids, message := CallIds(calls), ToolMessage(calls[n], n, AnswerText(s.world, iteration, n));
    SteadyAppend(s, mutations, messages, Owed.Owed(ids[n..]), chats, message);
    RecordedAppend(s, mutations, chats, sent, spoken + Answers(s.world, iteration, calls, n), message);
    OneMoreAnswer(s.world, iteration, calls, n, spoken);
    OneMoreAnswer(s.world, iteration, calls, n, live);
    SettlesFirst(ids, n, message);
  }

  lemma SettlesFirst(ids: seq<string>, n: nat, message: Message)
    requires n < |ids| && message.role == Tool && message.callId == ids[n]
    ensures PairStep(Owed.Owed(ids[n..]), message) == Owed.Owed(ids[n + 1..])
  {
    assert ids[n..][1..] == ids[n + 1..];
  }

  lemma LastAnswer(s: Setting, mutations: seq<Mutation>, messages: seq<Message>, live: seq<Message>,
                   chats: seq<ChatRequest>, sent: seq<Request>, spoken: seq<Message>, calls: seq<ToolCall>,
                   iteration: nat)
    requires Answering(s, mutations, messages, live, chats, sent, spoken, calls, iteration, |calls|)
    ensures Steady(s, mutations, messages, SETTLED, chats)
  {
    assert CallIds(calls)[|calls|..] == [];
  }

  lemma OneMoreAnswer(w: World, iteration: nat, calls: seq<ToolCall>, n: nat, earlier: seq<Message>)
    requires n < |calls|
    ensures earlier + Answers(w, iteration, calls, n + 1)
         == earlier + Answers(w, iteration, calls, n) + [ToolMessage(calls[n], n, AnswerText(w, iteration, n))]
  {
  }

  // ---------------------------------------------------------------- the whole run

  function Records(messages: seq<Message>): seq<Mutation> {
    seq(|messages|, i requires 0 <= i < |messages| => Appended(messages[i]))
  }

  lemma {:induction false} AppendedsOfRecords(messages: seq<Message>)
    ensures Appendeds(Records(messages)) == messages
  {
    if messages != [] {
      var n := |messages| - 1;
      AppendedsOfRecords(messages[..n]);
      assert Records(messages) == Records(messages[..n]) + [Appended(messages[n])];
      AppendedsPush(Records(messages[..n]), messages[n]);
    }
  }

  lemma UserIsLast(messages: seq<Message>, prompt: string)
    ensures PartsOf(messages + [UserMessage(prompt)]).user == Some(UserMessage(prompt))
  {
  }

  lemma OpeningIsLive(journal: seq<Mutation>, history: seq<Message>, systemText: string, prompt: string)
    requires Live(journal, [], history, SETTLED)
    ensures var opening := InitialMessages(history, systemText, prompt);
            Live(journal, Records(opening), history + opening, SETTLED)
  {
    var user := UserMessage(prompt);
    var opening := InitialMessages(history, systemText, prompt);
    if |opening| == 2 {
      var system := SystemMessage(systemText);
      LiveAppend(journal, [], history, SETTLED, system);
      LiveAppend(journal, [Appended(system)], [system], SETTLED, user);
      assert history + [system] == [system] && [] + [Appended(system)] == [Appended(system)];
      assert Records(opening) == [Appended(system)] + [Appended(user)];
      assert history + opening == [system] + [user];
    } else {
      LiveAppend(journal, [], history, SETTLED, user);
      assert Records(opening) == [] + [Appended(user)];
      assert opening == [user];
    }
  }

  lemma StartIsSteady(s: Setting, history: seq<Message>, systemText: string)
    requires Live(s.journal, [], history, SETTLED)
    requires s.opening == InitialMessages(history, systemText, s.userPrompt)
    ensures Steady(s, Records(s.opening), history + s.opening, SETTLED, [])
  {
    OpeningIsLive(s.journal, history, systemText, s.userPrompt);
    var n := |s.opening| - 1;
    UserIsLast(history + s.opening[..n], s.userPrompt);
    assert history + s.opening == history + s.opening[..n] + [UserMessage(s.userPrompt)];
  }

  lemma StartIsOnward(s: Setting, history: seq<Message>, systemText: string)
    requires s.config.Valid() && Live(s.journal, [], history, SETTLED)
    requires s.opening == InitialMessages(history, systemText, s.userPrompt)
    ensures Onward(s, 0, history + s.opening, Records(s.opening), [], [], [])
  {
    StartIsSteady(s, history, systemText);
    AppendedsOfRecords(s.opening);
    assert s.opening + [] == s.opening;
  }

  /** Why a run ends without a result after n chat and m summary requests, with this list shown. */
  ghost predicate Stopped(s: Setting, n: nat, m: nat, e: Error, shown: seq<Message>) {
    if e == Aborted then
      || (AtHead(s.world, n) && Replies(s.world, n) == s.world.abortAt)
      || (AtReply(s.world, n) && !BatchAnswered(s.world, n - 1))
    else exists head :: AtHead(s.world, head) && TurnFailed(s, head, n, e, m, shown)
  }

  /** The result is the last reply's, told with everything before it. */
  ghost predicate Concludes(s: Setting, result: AgentResult, mutations: seq<Mutation>, chats: seq<ChatRequest>) {
    && Settles(s.world, |chats|) && result.iterations <= s.world.abortAt
    && var reply := s.world.chat(|chats| - 1);
       && result.messages == chats[|chats| - 1].messages + [AssistantMessage(reply)]
       && result.messages == Project(s.journal + mutations)
       && result.content == FinalText(reply) && result.mutations == mutations
       && result.iterations == Replies(s.world, |chats|)
  }

  /** A whole run: what it asked, what it recorded, and how what it was told made it end. */
  ghost predicate Ran(s: Setting, r: Outcome<AgentResult>, mutations: seq<Mutation>, chats: seq<ChatRequest>,
                      sent: seq<Request>, spoken: seq<Message>)
  {
    && SoundRequests(s, chats, mutations)
    && Recorded(s, mutations, chats, sent, spoken) && spoken <= Said(s.world, |chats|)
    && (r.Ok? ==> spoken == Said(s.world, |chats|) && Concludes(s, r.value, mutations, chats))
    && (r.Raised? ==> Stopped(s, |chats|, |sent|, r.error, Project(s.journal + mutations)))
  }

  /** The record after a reply. */
  lemma ReplyRecorded(s: Setting, mutations: seq<Mutation>, messages: seq<Message>, chats: seq<ChatRequest>,
                      sent: seq<Request>, spoken: seq<Message>, reply: ChatReply)
    requires Steady(s, mutations, messages, SETTLED, chats) && Recorded(s, mutations, chats, sent, spoken)
    requires reply.Turn?
    ensures var assistant := AssistantMessage(reply);
            && Steady(s, mutations + [Appended(assistant)], messages + [assistant], Owed.Owed(CallIds(reply.calls)), chats)
            && Recorded(s, mutations + [Appended(assistant)], chats, sent, spoken + [assistant])
  {
    SteadyAppend(s, mutations, messages, SETTLED, chats, AssistantMessage(reply));
    RecordedAppend(s, mutations, chats, sent, spoken, AssistantMessage(reply));
    AssistantOwes(reply);
  }

  lemma AssistantOwes(reply: ChatReply)
    requires reply.Turn?
    ensures PairStep(SETTLED, AssistantMessage(reply)) == Owed.Owed(CallIds(reply.calls))
  {
  }

  /** A complete reply adds itself and the results of its calls to what is said. */
  ghost predicate Says(w: World, n: nat, after: nat, reply: ChatReply) {
    && reply.Turn?
    && Said(w, after) == Said(w, n) + [AssistantMessage(reply)]
                         + Answers(w, Replies(w, n) + 1, reply.calls, |reply.calls|)
    && (reply.calls == [] ==> Said(w, after) == Said(w, n) + [AssistantMessage(reply)])
  }

  lemma {:induction false} TurnSays(w: World, n: nat, after: nat)
    requires TurnDone(w, n, after)
    ensures Says(w, n, after, w.chat(after - 1))
  {
    if after == n + 1 {
      ReplySays(w, n);
    } else {
      NothingSaid(w, n);
      ReplySays(w, n + 1);
      SaysEarlier(w, n, n + 1, after, w.chat(n + 1));
    }
  }

  lemma {:induction false} SaysEarlier(w: World, m: nat, n: nat, after: nat, reply: ChatReply)
    requires Said(w, m) == Said(w, n) && Replies(w, m) == Replies(w, n) && Says(w, n, after, reply)
    ensures Says(w, m, after, reply)
  {
  }

  lemma {:induction false} NothingSaid(w: World, n: nat)
    requires !Replied(w, n)
    ensures Said(w, n + 1) == Said(w, n) && Replies(w, n + 1) == Replies(w, n)
  {
  }

  lemma {:induction false} ReplySays(w: World, n: nat)
    requires Replied(w, n)
    ensures Says(w, n, n + 1, w.chat(n))
  {
    ReplyIsSaid(w, n);
    var reply, iteration := w.chat(n), Replies(w, n) + 1;
    Chain(Said(w, n + 1), Said(w, n), AssistantMessage(reply), Answers(w, iteration, reply.calls, |reply.calls|));
  }

  lemma Chain(now: seq<Message>, before: seq<Message>, m: Message, more: seq<Message>)
    requires now == before + ([m] + more)
    ensures now == before + [m] + more && (more == [] ==> now == before + [m])
  {
  }

  lemma {:induction false} ReplyIsSaid(w: World, n: nat)
    requires Replied(w, n)
    ensures Said(w, n + 1) == Said(w, n) + Exchange(w, n, Replies(w, n) + 1)
  {
  }

  /** The state in which a reply was taken: what the pass has to go on with. */
  ghost predicate Taken(s: Setting, messages: seq<Message>, mutations: seq<Mutation>, chats: seq<ChatRequest>,
                        sent: seq<Request>, n: nat, reply: ChatReply)
  {
    && s.config.Valid() && TurnDone(s.world, n, |chats|) && AtHead(s.world, n) && reply == s.world.chat(|chats| - 1)
    && reply.Turn? && messages == chats[|chats| - 1].messages + [AssistantMessage(reply)]
    && Steady(s, mutations, messages, Owed.Owed(CallIds(reply.calls)), chats)
    && Recorded(s, mutations, chats, sent, Said(s.world, n) + [AssistantMessage(reply)])
  }

  lemma {:induction false} ReplyTaken(s: Setting, messages: seq<Message>, mutations: seq<Mutation>,
                                      chats: seq<ChatRequest>, sent: seq<Request>, n: nat, reply: ChatReply)
    requires Ready(s, mutations, messages, chats, sent, n) && TurnDone(s.world, n, |chats|) && AtHead(s.world, n)
    requires reply == s.world.chat(|chats| - 1) && chats[|chats| - 1].messages == messages
    ensures reply.Turn?
    ensures Taken(s, messages + [AssistantMessage(reply)], mutations + [Appended(AssistantMessage(reply))], chats, sent,
                  n, reply)
  {
    TurnSays(s.world, n, |chats|);
    ReplyRecorded(s, mutations, messages, chats, sent, Said(s.world, n), reply);
  }

  lemma {:induction false} TurnEnds(w: World, n: nat, after: nat)
    requires TurnDone(w, n, after) && AtHead(w, n) && w.chat(after - 1).Turn? && w.chat(after - 1).calls == []
    ensures Settles(w, after) && Replies(w, after) == Replies(w, n) + 1
    ensures Said(w, after) == Said(w, n) + [AssistantMessage(w.chat(after - 1))]
  {
    TurnSays(w, n, after);
    TurnAdvances(w, n, after);
  }

  lemma {:induction false} FinalReplyRan(s: Setting, messages: seq<Message>, mutations: seq<Mutation>,
                                         chats: seq<ChatRequest>, sent: seq<Request>, n: nat, reply: ChatReply,
                                         iteration: nat)
    requires Taken(s, messages, mutations, chats, sent, n, reply) && reply.calls == []
    requires iteration == Replies(s.world, n) + 1 && iteration <= s.world.abortAt
    ensures Ready(s, mutations, messages, chats, sent, |chats|)
    ensures Ran(s, Ok(AgentResult(FinalText(reply), messages, mutations, iteration)), mutations, chats, sent,
                Said(s.world, n) + [AssistantMessage(reply)])
  {
    TurnEnds(s.world, n, |chats|);
  }

  lemma {:induction false} TurnGoesOn(w: World, n: nat, after: nat, spoken: seq<Message>)
    requires TurnDone(w, n, after) && AtHead(w, n) && w.chat(after - 1).Turn?
    requires w.chat(after - 1).calls != [] && AllAnswered(w, Replies(w, n) + 1, w.chat(after - 1).calls)
    requires spoken
          == Said(w, n) + [AssistantMessage(w.chat(after - 1))]
             + Answers(w, Replies(w, n) + 1, w.chat(after - 1).calls, |w.chat(after - 1).calls|)
    ensures AtHead(w, after) && Replies(w, after) == Replies(w, n) + 1 && spoken == Said(w, after)
  {
    TurnSays(w, n, after);
    TurnAdvances(w, n, after);
  }

  lemma {:induction false} AnsweredBatchPassed(s: Setting, messages: seq<Message>, mutations: seq<Mutation>,
                                               chats: seq<ChatRequest>, sent: seq<Request>, n: nat, reply: ChatReply,
                                               iteration: nat, spoken: seq<Message>)
    requires s.config.Valid() && TurnDone(s.world, n, |chats|) && AtHead(s.world, n)
    requires reply == s.world.chat(|chats| - 1) && reply.Turn? && reply.calls != []
    requires iteration == Replies(s.world, n) + 1 && AllAnswered(s.world, iteration, reply.calls)
    requires spoken
          == Said(s.world, n) + [AssistantMessage(reply)] + Answers(s.world, iteration, reply.calls, |reply.calls|)
    requires Steady(s, mutations, messages, SETTLED, chats) && Recorded(s, mutations, chats, sent, spoken)
    ensures Onward(s, iteration, messages, mutations, chats, sent, spoken)
  {
    TurnGoesOn(s.world, n, |chats|, spoken);
  }

  lemma FailedTurnRan(s: Setting, e: Error, mutations: seq<Mutation>, messages: seq<Message>, chats: seq<ChatRequest>,
                      sent: seq<Request>, n: nat)
    requires Ready(s, mutations, messages, chats, sent, n) && AtHead(s.world, n)
    requires n <= |chats| && TurnFailed(s, n, |chats|, e, |sent|, messages)
    ensures Ran(s, Raised(e), mutations, chats, sent, Said(s.world, n))
  {
    SaidMore(s.world, n, |chats|);
    FailedTurnStops(s, n, |chats|, e, |sent|, messages);
  }

  lemma FailedTurnStops(s: Setting, n: nat, after: nat, e: Error, m: nat, shown: seq<Message>)
    requires AtHead(s.world, n) && TurnFailed(s, n, after, e, m, shown)
    ensures Stopped(s, after, m, e, shown)
  {
  }

  lemma AbortedAtHeadRan(s: Setting, messages: seq<Message>, mutations: seq<Mutation>, chats: seq<ChatRequest>,
                         sent: seq<Request>, spoken: seq<Message>)
    requires Onward(s, s.world.abortAt, messages, mutations, chats, sent, spoken)
    ensures Ran(s, Raised(Aborted), mutations, chats, sent, spoken)
  {
  }

  lemma AbortedBatchRan(s: Setting, messages: seq<Message>, mutations: seq<Mutation>, chats: seq<ChatRequest>,
                        sent: seq<Request>, n: nat, reply: ChatReply, iteration: nat)
    requires Taken(s, messages, mutations, chats, sent, n, reply)
    requires iteration == Replies(s.world, n) + 1 && !AllAnswered(s.world, iteration, reply.calls)
    ensures Ran(s, Raised(Aborted), mutations, chats, sent, Said(s.world, n) + [AssistantMessage(reply)])
  {
    TurnSays(s.world, n, |chats|);
    TurnAdvances(s.world, n, |chats|);
  }

  /**
   * One pass of the loop: a turn, the assistant message it produced, and the results of its calls. It answers `None`
   * when the model asked for more work.
   */
  method Iterate(s: Setting, before: seq<Mutation>, live: seq<Message>, sentChats: seq<ChatRequest>,
                 sentBefore: seq<Request>, iteration: nat)
    returns (r: Outcome<Option<AgentResult>>, messages: seq<Message>, mutations: seq<Mutation>,
             chats: seq<ChatRequest>, sent: seq<Request>, ghost spoken: seq<Message>)
    requires 0 < iteration <= s.world.abortAt
    requires Onward(s, iteration - 1, live, before, sentChats, sentBefore, Said(s.world, |sentChats|))
    ensures before <= mutations
    ensures Passed(s, r, iteration, messages, mutations, chats, sent, spoken)
  {
    var turn;
    turn, messages, mutations, chats, sent := GenerateTurn(s, before, live, sentChats, sentBefore);
    if turn.Raised? {
      spoken := Said(s.world, |sentChats|);
      FailedTurnRan(s, turn.error, mutations, messages, chats, sent, |sentChats|);
      return Raised(turn.error), messages, mutations, chats, sent, spoken;
    }
    r, messages, mutations, spoken := TakeReply(s, mutations, messages, chats, sent, |sentChats|, turn.value, iteration);
  }

  /** The state at the head of the loop. */
  ghost predicate Onward(s: Setting, iteration: nat, messages: seq<Message>, mutations: seq<Mutation>,
                         chats: seq<ChatRequest>, sent: seq<Request>, spoken: seq<Message>)
  {
    && Ready(s, mutations, messages, chats, sent, |chats|) && spoken == Said(s.world, |chats|)
    && AtHead(s.world, |chats|) && iteration == Replies(s.world, |chats|)
  }

  /** The state after one pass of the loop. */
  ghost predicate Passed(s: Setting, r: Outcome<Option<AgentResult>>, iteration: nat, messages: seq<Message>,
                         mutations: seq<Mutation>, chats: seq<ChatRequest>, sent: seq<Request>, spoken: seq<Message>)
  {
    && (r.Ok? && r.value.None? ==> Onward(s, iteration, messages, mutations, chats, sent, spoken))
    && (r.Ok? && r.value.Some? ==>
          Ready(s, mutations, messages, chats, sent, |chats|) && messages == r.value.value.messages
          && Ran(s, Ok(r.value.value), mutations, chats, sent, spoken))
    && (r.Raised? ==> Ran(s, Raised(r.error), mutations, chats, sent, spoken))
  }

  /** A complete reply: the assistant message it makes, and the end of the run or the results of its calls. */
  method TakeReply(s: Setting, before: seq<Mutation>, live: seq<Message>, ghost chats: seq<ChatRequest>,
                   ghost sent: seq<Request>, ghost n: nat, reply: ChatReply, iteration: nat)
    returns (r: Outcome<Option<AgentResult>>, messages: seq<Message>, mutations: seq<Mutation>,
             ghost spoken: seq<Message>)
    requires Ready(s, before, live, chats, sent, n) && TurnDone(s.world, n, |chats|) && AtHead(s.world, n)
    requires reply == s.world.chat(|chats| - 1) && chats[|chats| - 1].messages == live
    requires iteration == Replies(s.world, n) + 1 && iteration <= s.world.abortAt
    ensures before <= mutations
    ensures Passed(s, r, iteration, messages, mutations, chats, sent, spoken)
  {
    ReplyTaken(s, live, before, chats, sent, n, reply);
    var assistant := AssistantMessage(reply);
    messages, mutations := live + [assistant], before + [Appended(assistant)];
    spoken := Said(s.world, n) + [assistant];
    if reply.calls == [] {
      FinalReplyRan(s, messages, mutations, chats, sent, n, reply, iteration);
      return Ok(Some(AgentResult(FinalText(reply), messages, mutations, iteration))), messages, mutations, spoken;
    }
    var answered;
    ghost var wasShown, wasRecorded := messages, mutations;
    answered, messages, mutations := AnswerCalls(s, mutations, messages, chats, sent, spoken, reply.calls, iteration);
    if !answered {
      AbortedBatchRan(s, wasShown, wasRecorded, chats, sent, n, reply, iteration);
      return Raised(Aborted), messages, mutations, spoken;
    }
    spoken := spoken + Answers(s.world, iteration, reply.calls, |reply.calls|);
    AnsweredBatchPassed(s, messages, mutations, chats, sent, n, reply, iteration, spoken);
    return Ok(None), messages, mutations, spoken;
  }

  lemma {:induction false} SaidMore(w: World, n: nat, after: nat)
    requires n <= after
    ensures Said(w, n) <= Said(w, after)
  {
    if n < after {
      SaidMore(w, n, after - 1);
    }
  }

  // ---------------------------------------------------------------- a run, in the words of what it met

  /** What was recorded: what the prompt adds, then the first n replies and the answers to their calls. */
  ghost predicate RecordsAll(s: Setting, mutations: seq<Mutation>, n: nat) {
    s.opening <= Appendeds(mutations) && WordForWord(Appendeds(mutations)[|s.opening|..], s.world, n)
  }

  /** The n-th request was made with everything said so far on record, and showed the user's words. */
  ghost predicate AskedInFull(s: Setting, mutations: seq<Mutation>, request: ChatRequest, n: nat) {
    && request.recorded <= |mutations| && RecordsAll(s, mutations[..request.recorded], n)
    && exists i :: 0 <= i < |request.messages| && request.messages[i].role == User && !request.messages[i].marked
                   && request.messages[i].content == Some(s.userPrompt)
  }

  /** After the k-th reply there was more to do, and it was done. */
  ghost predicate HadMore(w: World, k: nat) {
    if IsComplete(w.chat(k)) then
      var calls := w.chat(k).calls;
      calls != [] && forall i :: 0 <= i < |calls| ==> GotAnswer(calls[i], w.tools(TurnsIn(w, k) + 1, i))
    else IsOverflow(w.chat(k)) && IsComplete(w.chat(k + 1))
  }

  /** The result is the n-th reply, the first that asks for nothing more. */
  ghost predicate AnsweredWith(s: Setting, result: AgentResult, chats: seq<ChatRequest>, n: nat) {
    && 0 < n == |chats| && IsComplete(s.world.chat(n - 1)) && s.world.chat(n - 1).calls == []
    && (forall k {:trigger HadMore(s.world, k)} :: 0 <= k < n - 1 ==> HadMore(s.world, k))
    && IsTextOf(result.content, s.world.chat(n - 1))
    && |result.messages| == |chats[n - 1].messages| + 1 && chats[n - 1].messages <= result.messages
    && IsReply(result.messages[|result.messages| - 1], s.world.chat(n - 1))
    && result.iterations == TurnsIn(s.world, n) <= s.world.abortAt
  }

  /** Each error has its cause in what the run met. */
  ghost predicate FailedBecause(s: Setting, e: Error, n: nat, m: nat, shown: seq<Message>) {
    var w := s.world;
    && (e == ContextOverflow ==> n > 1 && IsOverflow(w.chat(n - 2)) && IsOverflow(w.chat(n - 1)))
    && (e == ModelFailed ==>
          || (n > 0 && !IsComplete(w.chat(n - 1)) && !IsOverflow(w.chat(n - 1)))
          || (m > 0 && w.summaries(m - 1).Failure?))
    && (e == Aborted ==>
          || TurnsIn(w, n) == w.abortAt
          || (n > 0 && IsComplete(w.chat(n - 1))
              && var calls := w.chat(n - 1).calls;
                 exists i :: 0 <= i < |calls| && !GotAnswer(calls[i], w.tools(TurnsIn(w, n), i))))
    && (IsBudgetError(e) ==>
          || s.estimators.context(shown) > s.config.TokenBudget()
          || (n > 0 && IsOverflow(w.chat(n - 1))))
  }

  /** What a run asked, recorded and came to, said without the loop's own functions. */
  ghost predicate RanAsMet(s: Setting, r: Outcome<AgentResult>, mutations: seq<Mutation>, chats: seq<ChatRequest>,
                           sent: seq<Request>)
  {
    && (forall k {:trigger AskedInFull(s, mutations, chats[k], k)} :: 0 <= k < |chats| ==>
          AskedInFull(s, mutations, chats[k], k))
    && (r.Ok? ==> AnsweredWith(s, r.value, chats, |chats|) && RecordsAll(s, mutations, |chats|))
    && (r.Raised? ==> FailedBecause(s, r.error, |chats|, |sent|, Project(s.journal + mutations)))
  }

  lemma RecordIsWhole(s: Setting, mutations: seq<Mutation>, n: nat)
    requires Appendeds(mutations) == s.opening + Said(s.world, n)
    ensures RecordsAll(s, mutations, n)
  {
    SaidWordForWord(s.world, n);
    assert Appendeds(mutations)[|s.opening|..] == Said(s.world, n);
  }

  lemma RequestIsWhole(s: Setting, mutations: seq<Mutation>, request: ChatRequest, n: nat)
    requires SoundRequest(s, request, mutations) && ToldAt(s, mutations, request, n)
    ensures AskedInFull(s, mutations, request, n)
  {
    RecordIsWhole(s, mutations[..request.recorded], n);
    var i := LastUser(request.messages);
    assert request.messages[i] == UserMessage(s.userPrompt);
  }

  lemma WentOnPlainly(w: World, k: nat, n: nat)
    requires GoesOn(w, k, n)
    ensures HadMore(w, k)
  {
    CompleteIsReplied(w, k);
    CompleteIsReplied(w, k + 1);
    TurnsAreReplies(w, k);
    if Replied(w, k) {
      var calls := w.chat(k).calls;
      forall i | 0 <= i < |calls| ensures GotAnswer(calls[i], w.tools(TurnsIn(w, k) + 1, i)) {
        assert HasAnswer(w, Replies(w, k) + 1, i);
      }
    }
  }

  lemma ResultIsReply(s: Setting, result: AgentResult, mutations: seq<Mutation>, chats: seq<ChatRequest>)
    requires Concludes(s, result, mutations, chats)
    ensures AnsweredWith(s, result, chats, |chats|)
  {
    var n := |chats|;
    CompleteIsReplied(s.world, n - 1);
    FinalTextIs(s.world.chat(n - 1));
    MessageIsReply(s.world.chat(n - 1));
    TurnsAreReplies(s.world, n);
    forall k | 0 <= k < n - 1 ensures HadMore(s.world, k) {
      WentOn(s.world, k, n);
      WentOnPlainly(s.world, k, n);
    }
  }

  lemma StopHasCause(s: Setting, n: nat, m: nat, e: Error, shown: seq<Message>)
    requires Stopped(s, n, m, e, shown)
    ensures FailedBecause(s, e, n, m, shown)
  {
    TurnsAreReplies(s.world, n);
    if n > 0 {
      CompleteIsReplied(s.world, n - 1);
    }
    if n > 1 {
      CompleteIsReplied(s.world, n - 2);
    }
    if e == Aborted && AtReply(s.world, n) && !BatchAnswered(s.world, n - 1) {
      var calls := s.world.chat(n - 1).calls;
      var i :| 0 <= i < |calls| && !HasAnswer(s.world, Replies(s.world, n - 1) + 1, i);
      assert Replies(s.world, n) == Replies(s.world, n - 1) + 1;
      assert !GotAnswer(calls[i], s.world.tools(TurnsIn(s.world, n), i));
    }
  }

  lemma RanInFull(s: Setting, r: Outcome<AgentResult>, mutations: seq<Mutation>, chats: seq<ChatRequest>,
                  sent: seq<Request>, spoken: seq<Message>)
    requires Ran(s, r, mutations, chats, sent, spoken)
    ensures RanAsMet(s, r, mutations, chats, sent)
  {
    forall k | 0 <= k < |chats| ensures AskedInFull(s, mutations, chats[k], k) {
      assert SoundRequest(s, chats[k], mutations) && ToldAt(s, mutations, chats[k], k);
      RequestIsWhole(s, mutations, chats[k], k);
    }
    if r.Ok? {
      ResultIsReply(s, r.value, mutations, chats);
      RecordIsWhole(s, mutations, |chats|);
    } else {
      StopHasCause(s, |chats|, |sent|, r.error, Project(s.journal + mutations));
    }
  }

  lemma {:induction false} RecordOpens(s: Setting, mutations: seq<Mutation>, spoken: seq<Message>,
                                       history: seq<Message>, systemPrompt: string, toolNames: seq<string>)
    requires Appendeds(mutations) == s.opening + spoken
    requires s.opening == InitialMessages(history, SystemText(systemPrompt, toolNames), s.userPrompt)
    ensures OpensWith(Appendeds(mutations), history, systemPrompt, toolNames, s.userPrompt)
  {
    PromptOpens(history, systemPrompt, toolNames, s.userPrompt, spoken);
  }

  lemma RunAccounted(s: Setting, r: Outcome<AgentResult>, mutations: seq<Mutation>, chats: seq<ChatRequest>,
                     sent: seq<Request>, spoken: seq<Message>, history: seq<Message>, systemPrompt: string,
                     toolNames: seq<string>)
    requires Ran(s, r, mutations, chats, sent, spoken)
    requires s.opening == InitialMessages(history, SystemText(systemPrompt, toolNames), s.userPrompt)
    ensures RanAsMet(s, r, mutations, chats, sent)
    ensures OpensWith(Appendeds(mutations), history, systemPrompt, toolNames, s.userPrompt)
  {
    RanInFull(s, r, mutations, chats, sent, spoken);
    RecordOpens(s, mutations, spoken, history, systemPrompt, toolNames);
  }

  /**
   * One prompt, for every world. At every request the live list is the projection of the old journal followed by the
   * mutations recorded so far; it is paired, carries the user's request word for word, and fits with at least the
   * reserved output. The record holds what the prompt added and then every reply and every tool answer in order,
   * whatever was compacted in between. A completed run returns the model's last reply, and exactly the projection of
   * the journal it asks to be committed; a run that fails does so for a reason the world gave it.
   */
  method Run(ghost journal: seq<Mutation>, history: seq<Message>, systemPrompt: string, toolNames: seq<string>,
             userPrompt: string, config: ContextBudgetConfig, estimators: Estimators, world: World)
    returns (r: Outcome<AgentResult>, mutations: seq<Mutation>, chats: seq<ChatRequest>, sent: seq<Request>,
             ghost spoken: seq<Message>)
    requires config.Valid()
    requires Live(journal, [], history, SETTLED)
    ensures var opening := InitialMessages(history, SystemText(systemPrompt, toolNames), userPrompt);
            && Ran(Setting(journal, opening, userPrompt, config, estimators, world), r, mutations, chats, sent, spoken)
            && RanAsMet(Setting(journal, opening, userPrompt, config, estimators, world), r, mutations, chats, sent)
            && Records(opening) <= mutations
    ensures OpensWith(Appendeds(mutations), history, systemPrompt, toolNames, userPrompt)
    ensures r.Ok? ==> AllAcceptable(mutations) && Live(journal, mutations, r.value.messages, SETTLED)
  {
    var systemText := SystemText(systemPrompt, toolNames);
    var opening := InitialMessages(history, systemText, userPrompt);
    var s := Setting(journal, opening, userPrompt, config, estimators, world);
    var messages := history + opening;
    mutations := Records(opening);
    chats, sent, spoken := [], [], [];
    StartIsOnward(s, history, systemText);
    var iteration := 0;
    while true
      invariant Onward(s, iteration, messages, mutations, chats, sent, spoken)
      invariant iteration <= world.abortAt && Records(opening) <= mutations
      decreases world.abortAt - iteration
    {
      if iteration == world.abortAt {
        AbortedAtHeadRan(s, messages, mutations, chats, sent, spoken);
        RunAccounted(s, Raised(Aborted), mutations, chats, sent, spoken, history, systemPrompt, toolNames);
        return Raised(Aborted), mutations, chats, sent, spoken;
      }
      iteration := iteration + 1;
      var turn;
      turn, messages, mutations, chats, sent, spoken := Iterate(s, mutations, messages, chats, sent, iteration);
      if turn.Raised? {
        RunAccounted(s, Raised(turn.error), mutations, chats, sent, spoken, history, systemPrompt, toolNames);
        return Raised(turn.error), mutations, chats, sent, spoken;
      }
      if turn.value.Some? {
        RunAccounted(s, Ok(turn.value.value), mutations, chats, sent, spoken, history, systemPrompt, toolNames);
        return Ok(turn.value.value), mutations, chats, sent, spoken;
      }
    }
  }

  // ---------------------------------------------------------------- what the world decides

  lemma WentOn(w: World, k: nat, n: nat)
    requires (AtReply(w, n) && k < n - 1) || (AtHead(w, n) && k < n)
    ensures GoesOn(w, k, n)
  {
  }

  /** There is only one number of requests with which a run can settle, so the world decides the answer. */
  lemma SettlesOnce(w: World, m: nat, n: nat)
    requires Settles(w, m) && Settles(w, n)
    ensures m == n
  {
    if m < n {
      WentOn(w, m - 1, n);
    } else if n < m {
      WentOn(w, n - 1, m);
    }
  }

  lemma {:induction false} RepliesGrow(w: World, m: nat, n: nat)
    requires m <= n
    ensures Replies(w, m) <= Replies(w, n)
  {
    if m < n {
      RepliesGrow(w, m, n - 1);
    }
  }

  /** Nothing stands between the model and its answer: it replies every time, there is room, and nobody aborts. */
  ghost predicate Unobstructed(s: Setting, n: nat) {
    && Settles(s.world, n) && Replies(s.world, n) <= s.world.abortAt
    && (forall k :: 0 <= k < n ==> Replied(s.world, k))
    && (forall messages :: s.estimators.context(messages) <= s.config.TokenBudget())
  }

  lemma HeadIsEarlier(w: World, n: nat, head: nat)
    requires Settles(w, n) && AtHead(w, head)
    ensures head < n
  {
    if head >= n {
      WentOn(w, n - 1, head);
    }
  }

  /** Then the run gives the answer: it fails only for the reasons listed. */
  lemma UnobstructedRunsAnswer(s: Setting, n: nat, r: Outcome<AgentResult>, mutations: seq<Mutation>,
                               chats: seq<ChatRequest>, sent: seq<Request>, spoken: seq<Message>)
    requires Unobstructed(s, n) && Ran(s, r, mutations, chats, sent, spoken)
    ensures r.Ok? && |chats| == n && r.value.content == FinalText(s.world.chat(n - 1))
  {
    if r.Ok? {
      SettlesOnce(s.world, n, |chats|);
    } else {
      NeverStopped(s, n, |chats|, |sent|, r.error, Project(s.journal + mutations));
    }
  }

  lemma NeverStopped(s: Setting, n: nat, after: nat, m: nat, e: Error, shown: seq<Message>)
    requires Unobstructed(s, n)
    ensures !Stopped(s, after, m, e, shown)
  {
    if e != Aborted {
      forall head | AtHead(s.world, head) ensures !TurnFailed(s, head, after, e, m, shown) {
        HeadIsEarlier(s.world, n, head);
        assert Replied(s.world, head);
      }
    } else {
      if AtHead(s.world, after) {
        HeadIsEarlier(s.world, n, after);
        RepliesGrow(s.world, after, n - 1);
      }
      if AtReply(s.world, after) && after < n {
        WentOn(s.world, after - 1, n);
      }
      if AtReply(s.world, after) && after > n {
        WentOn(s.world, n - 1, after);
      }
    }
  }
}
