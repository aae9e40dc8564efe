/** The append-only session and the harness that runs one prompt at a time against it. */
module Session {
  import opened Text
  import opened Budget
  import opened Transcript
  import opened Summarizer
  import opened AgentWorld
  import opened AgentLoop

  class AgentSession {
    var journal: seq<Mutation>

    /** Holds of every session that only the harness has written to. */
    ghost predicate Valid()
      reads this
    {
      Coherent(journal) && Paired(Project(journal))
    }

    constructor ()
      ensures Valid() && journal == []
    {
      journal := [];
    }

    /** The current model context; the raw history stays in the journal. */
    function Messages(): seq<Message>
      reads this
    {
      Project(journal)
    }

    /** All of a turn is recorded, or, when a checkpoint has a blank summary, none of it. */
    method CommitTurn(mutations: seq<Mutation>) returns (ok: bool)
      modifies this
      ensures ok <==> AllAcceptable(mutations)
      ensures journal == if ok then old(journal) + mutations else old(journal)
    {
      for i := 0 to |mutations|
        invariant AllAcceptable(mutations[..i])
        invariant journal == old(journal)
      {
        if mutations[i].Checkpoint? && Strip(mutations[i].summary) == "" {
          assert !Acceptable(mutations[i]);
          return false;
        }
        assert mutations[..i + 1] == mutations[..i] + [mutations[i]];
      }
      assert mutations[..|mutations|] == mutations;
      journal := journal + mutations;
      return true;
    }

    method Clear()
      modifies this
      ensures Valid() && journal == []
    {
      journal := [];
    }
  }

  /** How a prompt ends; the last case is an event listener failing after the turn was committed. */
  datatype PromptOutcome =
    | Completed(result: AgentResult)
    | Failed(error: Error)
    | FailedAfterCommit(result: AgentResult)

  /** How the loop ended. */
  function EndOf(outcome: PromptOutcome): Outcome<AgentResult> {
    match outcome
    case Failed(error) => Raised(error)
    case _ => Ok(outcome.result)
  }

  /** What a prompt gives the loop, on a session with this journal. */
  ghost function SettingOf(journal: seq<Mutation>, systemPrompt: string, toolNames: seq<string>, prompt: string,
                           config: ContextBudgetConfig, estimators: Estimators, world: World): Setting
  {
    Setting(journal, InitialMessages(Project(journal), SystemText(systemPrompt, toolNames), prompt), prompt, config,
            estimators, world)
  }

  /** The outcome is that of a run of the loop in this setting, which asked, heard and recorded what it had to. */
  ghost predicate CameFrom(outcome: PromptOutcome, s: Setting) {
    exists mutations, chats, sent, spoken ::
      Ran(s, EndOf(outcome), mutations, chats, sent, spoken) && RanAsMet(s, EndOf(outcome), mutations, chats, sent)
  }

  lemma ComesFrom(outcome: PromptOutcome, s: Setting, mutations: seq<Mutation>, chats: seq<ChatRequest>,
                  sent: seq<Request>, spoken: seq<Message>)
    requires Ran(s, EndOf(outcome), mutations, chats, sent, spoken)
    requires RanAsMet(s, EndOf(outcome), mutations, chats, sent)
    ensures CameFrom(outcome, s)
  {
  }

  class AgentHarness {
    const session: AgentSession
    const systemPrompt: string
    const toolNames: seq<string>
    const config: ContextBudgetConfig

    constructor (session: AgentSession, systemPrompt: string, toolNames: seq<string>, runtime: Option<(int, int)>)
      ensures this.session == session && config == FromRuntime(runtime) && config.Valid()
      ensures this.systemPrompt == systemPrompt && this.toolNames == toolNames
    {
      this.session := session;
      this.systemPrompt := systemPrompt;
      this.toolNames := toolNames;
      this.config := FromRuntime(runtime);
    }

    /**
     * A turn that completes is committed whole, and from then on the session shows the model exactly the messages the
     * loop returned; a turn that fails before the commit leaves the journal as it was. The commit is never refused,
     * and what comes out is what a run of the loop on this message and in this world comes to.
     * The journal keeps everything it held before, and the session stays valid for the next prompt.
     */
    method Prompt(message: string, estimators: Estimators, world: World, listenerFails: bool)
      returns (outcome: PromptOutcome)
      requires config.Valid() && session.Valid()
      modifies session
      ensures session.Valid()
      ensures old(session.journal) <= session.journal
      ensures outcome.Failed? ==> session.journal == old(session.journal)
      ensures !outcome.Failed? ==>
        && session.journal == old(session.journal) + outcome.result.mutations
        && session.Messages() == outcome.result.messages
        && Records(InitialMessages(old(session.Messages()), SystemText(systemPrompt, toolNames), message))
           <= outcome.result.mutations
        && OpensWith(Appendeds(outcome.result.mutations), old(session.Messages()), systemPrompt, toolNames, message)
        && (outcome.FailedAfterCommit? <==> listenerFails)
      ensures CameFrom(outcome, SettingOf(old(session.journal), systemPrompt, toolNames, message, config, estimators,
                                          world))
    {
      assert session.journal + [] == session.journal;
      var r, mutations, chats, sent;
      ghost var spoken;
      ghost var s := SettingOf(session.journal, systemPrompt, toolNames, message, config, estimators, world);
      r, mutations, chats, sent, spoken :=
        Run(session.journal, session.Messages(), systemPrompt, toolNames, message, config, estimators, world);
      if r.Raised? {
        outcome := Failed(r.error);
        ComesFrom(outcome, s, mutations, chats, sent, spoken);
        return;
      }
      var ok := session.CommitTurn(r.value.mutations);
      assert ok;
      outcome := if listenerFails then FailedAfterCommit(r.value) else Completed(r.value);
      ComesFrom(outcome, s, mutations, chats, sent, spoken);
    }
  }

  /** What the prompts that did not fail asked to be committed, in order. */
  function Committed(outcomes: seq<PromptOutcome>): seq<Mutation> {
    if outcomes == [] then []
    else
      var earlier, last := Committed(outcomes[..|outcomes| - 1]), outcomes[|outcomes| - 1];
      if last.Failed? then earlier else earlier + last.result.mutations
  }

  /** What the session showed when that prompt completed is what the loop had returned for it. */
  ghost predicate ShownAsReturned(outcomes: seq<PromptOutcome>, i: nat) {
    i < |outcomes| && !outcomes[i].Failed? ==> outcomes[i].result.messages == Project(Committed(outcomes[..i + 1]))
  }

  /** The outcome came from this prompt, world and listener, on this journal. */
  ghost predicate PromptedOn(outcome: PromptOutcome, journal: seq<Mutation>, systemPrompt: string,
                             toolNames: seq<string>, prompt: string, config: ContextBudgetConfig,
                             estimators: Estimators, world: World, listenerFails: bool)
  {
    && CameFrom(outcome, SettingOf(journal, systemPrompt, toolNames, prompt, config, estimators, world))
    && (!outcome.Failed? ==>
          && OpensWith(Appendeds(outcome.result.mutations), Project(journal), systemPrompt, toolNames, prompt)
          && (outcome.FailedAfterCommit? <==> listenerFails))
  }

  /** The i-th outcome came from its own prompt, world and listener, on the journal the earlier ones had left. */
  ghost predicate AsPrompted(outcomes: seq<PromptOutcome>, i: nat, systemPrompt: string, toolNames: seq<string>,
                             prompt: string, config: ContextBudgetConfig, estimators: Estimators, world: World,
                             listenerFails: bool)
    requires i < |outcomes|
  {
    PromptedOn(outcomes[i], Committed(outcomes[..i]), systemPrompt, toolNames, prompt, config, estimators, world,
               listenerFails)
  }

  lemma AsPromptedLater(outcomes: seq<PromptOutcome>, outcome: PromptOutcome, i: nat, systemPrompt: string,
                        toolNames: seq<string>, prompt: string, config: ContextBudgetConfig, estimators: Estimators,
                        world: World, listenerFails: bool)
    requires i < |outcomes|
    requires AsPrompted(outcomes, i, systemPrompt, toolNames, prompt, config, estimators, world, listenerFails)
    ensures AsPrompted(outcomes + [outcome], i, systemPrompt, toolNames, prompt, config, estimators, world,
                       listenerFails)
  {
    assert (outcomes + [outcome])[..i] == outcomes[..i];
  }

  /** The outcomes so far, each as it was prompted and shown as it was returned. */
  ghost predicate AllPrompted(outcomes: seq<PromptOutcome>, prompts: seq<string>, systemPrompt: string,
                              toolNames: seq<string>, config: ContextBudgetConfig, estimators: Estimators,
                              worlds: nat -> World, listenerFails: nat -> bool)
  {
    && |outcomes| <= |prompts|
    && forall i {:trigger ShownAsReturned(outcomes, i)} :: 0 <= i < |outcomes| ==>
         && ShownAsReturned(outcomes, i)
         && AsPrompted(outcomes, i, systemPrompt, toolNames, prompts[i], config, estimators, worlds(i),
                       listenerFails(i))
  }

  lemma CommittedMore(outcomes: seq<PromptOutcome>, outcome: PromptOutcome)
    ensures Committed(outcomes + [outcome])
         == Committed(outcomes) + if outcome.Failed? then [] else outcome.result.mutations
  {
    assert (outcomes + [outcome])[..|outcomes|] == outcomes;
  }

  lemma ShownLater(outcomes: seq<PromptOutcome>, outcome: PromptOutcome, i: nat)
    requires i < |outcomes| && ShownAsReturned(outcomes, i)
    ensures ShownAsReturned(outcomes + [outcome], i)
  {
    assert (outcomes + [outcome])[..i + 1] == outcomes[..i + 1];
  }

  lemma ShownLast(outcomes: seq<PromptOutcome>, outcome: PromptOutcome)
    requires !outcome.Failed? ==>
               outcome.result.messages == Project(Committed(outcomes) + outcome.result.mutations)
    ensures ShownAsReturned(outcomes + [outcome], |outcomes|)
  {
    CommittedMore(outcomes, outcome);
    assert (outcomes + [outcome])[..|outcomes| + 1] == outcomes + [outcome];
  }

  lemma PromptedLast(outcomes: seq<PromptOutcome>, outcome: PromptOutcome, systemPrompt: string,
                     toolNames: seq<string>, prompt: string, config: ContextBudgetConfig, estimators: Estimators,
                     world: World, listenerFails: bool)
    requires PromptedOn(outcome, Committed(outcomes), systemPrompt, toolNames, prompt, config, estimators, world,
                        listenerFails)
    ensures AsPrompted(outcomes + [outcome], |outcomes|, systemPrompt, toolNames, prompt, config, estimators, world,
                       listenerFails)
  {
    assert (outcomes + [outcome])[..|outcomes|] == outcomes;
  }

  lemma OneMorePrompted(outcomes: seq<PromptOutcome>, outcome: PromptOutcome, prompts: seq<string>,
                        systemPrompt: string, toolNames: seq<string>, config: ContextBudgetConfig,
                        estimators: Estimators, worlds: nat -> World, listenerFails: nat -> bool)
    requires |outcomes| < |prompts|
    requires AllPrompted(outcomes, prompts, systemPrompt, toolNames, config, estimators, worlds, listenerFails)
    requires AsPrompted(outcomes + [outcome], |outcomes|, systemPrompt, toolNames, prompts[|outcomes|], config,
                        estimators, worlds(|outcomes|), listenerFails(|outcomes|))
    requires ShownAsReturned(outcomes + [outcome], |outcomes|)
    ensures AllPrompted(outcomes + [outcome], prompts, systemPrompt, toolNames, config, estimators, worlds,
                        listenerFails)
  {
    var all := outcomes + [outcome];
    forall i | 0 <= i < |outcomes|
      ensures ShownAsReturned(all, i)
      ensures AsPrompted(all, i, systemPrompt, toolNames, prompts[i], config, estimators, worlds(i), listenerFails(i))
    {
      assert ShownAsReturned(outcomes, i);
      ShownLater(outcomes, outcome, i);
      AsPromptedLater(outcomes, outcome, i, systemPrompt, toolNames, prompts[i], config, estimators, worlds(i),
                      listenerFails(i));
    }
  }

  /** Once anything is recorded, the first system message on record is the harness's own, if it has one. */
  ghost predicate SystemOnRecord(journal: seq<Mutation>, systemText: string) {
    systemText != "" && journal != [] ==> FirstSystem(Appendeds(journal)) == Some(SystemMessage(systemText))
  }

  lemma {:induction false} AppendedsConcat(a: seq<Mutation>, b: seq<Mutation>)
    ensures Appendeds(a + b) == Appendeds(a) + Appendeds(b)
  {
    if b == [] {
      assert a + b == a;
    } else {
      AppendedsConcat(a, b[..|b| - 1]);
      assert (a + b)[..|a + b| - 1] == a + b[..|b| - 1];
    }
  }

  lemma SystemStaysOnRecord(journal: seq<Mutation>, mutations: seq<Mutation>, systemText: string, prompt: string)
    requires SystemOnRecord(journal, systemText)
    requires Records(InitialMessages(Project(journal), systemText, prompt)) <= mutations
    ensures SystemOnRecord(journal + mutations, systemText)
  {
    AppendedsConcat(journal, mutations);
    FirstSystemConcat(Appendeds(journal), Appendeds(mutations));
    if journal == [] && systemText != "" {
      var system := SystemMessage(systemText);
      assert mutations == [Appended(system)] + mutations[1..];
      AppendedsConcat([Appended(system)], mutations[1..]);
      assert Appendeds([Appended(system)]) == [system];
      FirstSystemConcat([system], Appendeds(mutations[1..]));
    }
  }

  /**
   * Any number of prompts, completed or failed, for any system prompt and tools: the journal is what the completed
   * prompts asked to be committed. Each prompt came to what the loop makes of its own words, world and listener: its
   * words and every reply and tool answer are on record in order, a failed one was stopped by its world, and a
   * completed one left the session showing exactly the messages its loop returned. What is shown at the end has its
   * calls paired, and its first system message is the harness's own.
   */
  method RunPrompts(prompts: seq<string>, systemPrompt: string, toolNames: seq<string>, runtime: Option<(int, int)>,
                    estimators: Estimators, worlds: nat -> World, listenerFails: nat -> bool)
    returns (journal: seq<Mutation>, messages: seq<Message>, outcomes: seq<PromptOutcome>)
    ensures messages == Project(journal) && Paired(messages) && Coherent(journal)
    ensures |outcomes| == |prompts| && journal == Committed(outcomes)
    ensures AllPrompted(outcomes, prompts, systemPrompt, toolNames, FromRuntime(runtime), estimators, worlds,
                        listenerFails)
    ensures SystemText(systemPrompt, toolNames) != "" && journal != [] ==>
              FirstSystem(messages) == Some(SystemMessage(SystemText(systemPrompt, toolNames)))
  {
    var session := new AgentSession();
    var harness := new AgentHarness(session, systemPrompt, toolNames, runtime);
    outcomes := [];
    for i := 0 to |prompts|
      invariant session.Valid() && harness.session == session
      invariant harness.config == FromRuntime(runtime) && harness.config.Valid()
      invariant |outcomes| == i && session.journal == Committed(outcomes)
      invariant AllPrompted(outcomes, prompts, systemPrompt, toolNames, harness.config, estimators, worlds,
                            listenerFails)
      invariant harness.systemPrompt == systemPrompt && harness.toolNames == toolNames
      invariant SystemOnRecord(session.journal, SystemText(systemPrompt, toolNames))
    {
      ghost var before := session.journal;
      var outcome := harness.Prompt(prompts[i], estimators, worlds(i), listenerFails(i));
      if !outcome.Failed? {
        SystemStaysOnRecord(before, outcome.result.mutations, SystemText(systemPrompt, toolNames), prompts[i]);
      }
      CommittedMore(outcomes, outcome);
      ShownLast(outcomes, outcome);
      PromptedLast(outcomes, outcome, systemPrompt, toolNames, prompts[i], harness.config, estimators, worlds(i),
                   listenerFails(i));
      OneMorePrompted(outcomes, outcome, prompts, systemPrompt, toolNames, harness.config, estimators, worlds,
                      listenerFails);
      outcomes := outcomes + [outcome];
    }
    return session.journal, session.Messages(), outcomes;
  }
}
