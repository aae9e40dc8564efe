/**
 * A batch of tool calls that runs under a semaphore and shares one ledger of failures with every other batch of the
 * prompt run. A call moves in three stretches: it gets a slot and is checked, its tool answers, it gives the slot up.
 */
module ToolBatch {
  import opened Arithmetic
  import opened Text

  const MAX_IDENTICAL_FAILURES: nat := 2

  /** What a call asks: two calls are identical when their keys are. */
  datatype Key = Key(tool: string, shape: string)

  datatype Call = Call(id: string, key: Key)

  datatype Entry = Entry(count: nat, error: string)

  type Ledger = map<Key, Entry>

  /** What happens to a call before the ledger is asked. */
  datatype Screen = Clear | Aborted | Invalid(reason: string) | Denied(reason: string)

  datatype Verdict = Answered(content: string) | Broke(error: string)

  datatype Status = Success | Failure | Blocked

  /** `repeats` is what a refusal quotes: how often the call failed, and how the last time. */
  datatype Result = Result(id: string, status: Status, error: Option<string>, repeats: Option<Entry>)

  datatype Phase = Queued | Calling | Reporting(result: Result) | Finished(result: Result)

  datatype Execution = Execution(key: Key, error: Option<string>)

  /** `log` is what an observer writes down: every call whose tool answered, in order. */
  datatype Batch = Batch(calls: seq<Call>, slots: nat, phases: seq<Phase>, ledger: Ledger, log: seq<Execution>)

  // ---------------------------------------------------------------- the ledger

  function EntryOf(ledger: Ledger, k: Key): Entry {
    if k in ledger then ledger[k] else Entry(0, "")
  }

  function Record(ledger: Ledger, k: Key, error: string): Ledger {
    ledger[k := Entry(EntryOf(ledger, k).count + 1, error)]
  }

  function Refusal(ledger: Ledger, k: Key): Option<Entry> {
    if EntryOf(ledger, k).count < MAX_IDENTICAL_FAILURES then None else Some(EntryOf(ledger, k))
  }

  class RepeatedFailureLedger {
    var failures: Ledger

    constructor ()
      ensures failures == map[]
    {
      failures := map[];
    }

    method RecordFailure(k: Key, error: string)
      modifies this
      ensures failures.Keys == old(failures).Keys + {k}
      ensures failures[k].count == EntryOf(old(failures), k).count + 1 && failures[k].error == error
      ensures forall other :: other in old(failures) && other != k ==> failures[other] == old(failures)[other]
    {
      var count := if k in failures then failures[k].count else 0;
      failures := failures[k := Entry(count + 1, error)];
    }

    method RefusalFor(k: Key) returns (refusal: Option<Entry>)
      ensures refusal.Some? <==> k in failures && failures[k].count >= 2
      ensures refusal.Some? ==> refusal.value == failures[k]
    {
      var entry := if k in failures then failures[k] else Entry(0, "");
      refusal := if entry.count < MAX_IDENTICAL_FAILURES then None else Some(entry);
    }
  }

  // ---------------------------------------------------------------- what an observer counts

  function Failures(log: seq<Execution>, k: Key): nat {
    if log == [] then 0
    else
      var last := log[|log| - 1];
      Failures(log[..|log| - 1], k) + if last.key == k && last.error.Some? then 1 else 0
  }

  /** How an identical call failed the last time. */
  function LastFailure(log: seq<Execution>, k: Key): Option<string> {
    if log == [] then None
    else
      var last := log[|log| - 1];
      if last.key == k && last.error.Some? then last.error else LastFailure(log[..|log| - 1], k)
  }

  lemma LogMore(log: seq<Execution>, e: Execution, k: Key)
    ensures Failures(log + [e], k) == Failures(log, k) + if e.key == k && e.error.Some? then 1 else 0
    ensures LastFailure(log + [e], k) == if e.key == k && e.error.Some? then e.error else LastFailure(log, k)
  {
    assert (log + [e])[..|log|] == log;
  }

  function Tally(flags: seq<bool>): nat {
    if flags == [] then 0 else Tally(flags[..|flags| - 1]) + if flags[|flags| - 1] then 1 else 0
  }

  lemma {:induction false} TallyUpdate(flags: seq<bool>, i: nat, b: bool)
    requires i < |flags|
    ensures Tally(flags[i := b]) + (if flags[i] then 1 else 0) == Tally(flags) + if b then 1 else 0
  {
    var n := |flags| - 1;
    if i == n {
      assert flags[i := b][..n] == flags[..n];
    } else {
      TallyUpdate(flags[..n], i, b);
      assert flags[i := b][..n] == flags[..n][i := b];
    }
  }

  lemma {:induction false} TallyMonotone(a: seq<bool>, b: seq<bool>)
    requires |a| == |b| && forall i :: 0 <= i < |a| ==> (a[i] ==> b[i])
    ensures Tally(a) <= Tally(b)
  {
    if a != [] {
      TallyMonotone(a[..|a| - 1], b[..|b| - 1]);
    }
  }

  lemma {:induction false} TallyNone(a: seq<bool>)
    requires forall i :: 0 <= i < |a| ==> !a[i]
    ensures Tally(a) == 0
  {
    if a != [] {
      TallyNone(a[..|a| - 1]);
    }
  }

  predicate HoldsSlot(p: Phase) {
    p.Calling? || p.Reporting?
  }

  function Slots(phases: seq<Phase>): (flags: seq<bool>)
    ensures |flags| == |phases|
  {
    seq(|phases|, i requires 0 <= i < |phases| => HoldsSlot(phases[i]))
  }

  /** The calls that are out with this key. */
  function Out(calls: seq<Call>, phases: seq<Phase>, k: Key): (flags: seq<bool>)
    requires |calls| == |phases|
    ensures |flags| == |phases|
  {
    seq(|phases|, i requires 0 <= i < |phases| => phases[i].Calling? && calls[i].key == k)
  }

  // ---------------------------------------------------------------- the steps

  datatype Step = Begin(i: nat, screen: Screen) | End(i: nat, verdict: Verdict) | Release(i: nat)

  /** The result of a call that is not let through, if it is not. */
  function Check(call: Call, screen: Screen, ledger: Ledger, abortedText: string): Option<Result> {
    match screen
    case Aborted => Some(Result(call.id, Failure, Some(abortedText), None))
    case Invalid(reason) => Some(Result(call.id, Failure, Some(reason), None))
    case Denied(reason) => Some(Result(call.id, Blocked, Some(reason), None))
    case Clear =>
      var refusal := Refusal(ledger, call.key);
      if refusal.Some? then Some(Result(call.id, Blocked, Some(refusal.value.error), refusal)) else None
  }

  const ABORTED_TEXT: string

  predicate Enabled(b: Batch, step: Step) {
    && step.i < |b.phases| && |b.phases| == |b.calls|
    && match step
       case Begin(i, _) => b.phases[i].Queued? && Tally(Slots(b.phases)) < b.slots
       case End(i, _) => b.phases[i].Calling?
       case Release(i) => b.phases[i].Reporting?
  }

  function Answer(call: Call, verdict: Verdict): Result {
    match verdict
    case Answered(_) => Result(call.id, Success, None, None)
    case Broke(error) => Result(call.id, Failure, Some(error), None)
  }

  function ErrorOf(verdict: Verdict): Option<string> {
    if verdict.Broke? then Some(verdict.error) else None
  }

  function Apply(b: Batch, step: Step): Batch {
    if !Enabled(b, step) then b
    else
      match step
      case Begin(i, screen) =>
        var stopped := Check(b.calls[i], screen, b.ledger, ABORTED_TEXT);
        b.(phases := b.phases[i := if stopped.Some? then Reporting(stopped.value) else Calling])
      case End(i, verdict) =>
        var call := b.calls[i];
        b.(phases := b.phases[i := Reporting(Answer(call, verdict))],
           ledger := if verdict.Broke? then Record(b.ledger, call.key, verdict.error) else b.ledger,
           log := b.log + [Execution(call.key, ErrorOf(verdict))])
      case Release(i) => b.(phases := b.phases[i := Finished(b.phases[i].result)])
  }

  function ApplyAll(b: Batch, steps: seq<Step>): Batch {
    if steps == [] then b else Apply(ApplyAll(b, steps[..|steps| - 1]), steps[|steps| - 1])
  }

  function NewBatch(calls: seq<Call>, slots: nat, ledger: Ledger, log: seq<Execution>): Batch {
    Batch(calls, slots, seq(|calls|, _ => Queued), ledger, log)
  }

  predicate AllFinished(b: Batch) {
    forall i :: 0 <= i < |b.phases| ==> b.phases[i].Finished?
  }

  // ---------------------------------------------------------------- the invariant

  /** The ledger's entry for a key is what an observer counted. */
  predicate Honest(ledger: Ledger, log: seq<Execution>, k: Key) {
    && EntryOf(ledger, k).count == Failures(log, k)
    && (Failures(log, k) > 0 ==> LastFailure(log, k) == Some(EntryOf(ledger, k).error))
  }

  predicate OwnResults(b: Batch) {
    && |b.phases| == |b.calls|
    && (forall i :: 0 <= i < |b.phases| && b.phases[i].Reporting? ==> b.phases[i].result.id == b.calls[i].id)
    && (forall i :: 0 <= i < |b.phases| && b.phases[i].Finished? ==> b.phases[i].result.id == b.calls[i].id)
  }

  /** `most` is the largest number of slots any batch of the prompt run has. */
  predicate Inv(b: Batch, most: nat, k: Key) {
    && b.slots <= most && OwnResults(b) && Tally(Slots(b.phases)) <= b.slots
    && Honest(b.ledger, b.log, k)
    && Failures(b.log, k) + Tally(Out(b.calls, b.phases, k)) <= most + 1
  }

  lemma OutHoldsSlots(b: Batch, k: Key)
    requires |b.calls| == |b.phases|
    ensures Tally(Out(b.calls, b.phases, k)) <= Tally(Slots(b.phases))
  {
    TallyMonotone(Out(b.calls, b.phases, k), Slots(b.phases));
  }

  /** What moving one call does to both counts. */
  lemma Moved(calls: seq<Call>, phases: seq<Phase>, i: nat, p: Phase, k: Key)
    requires |calls| == |phases| && i < |phases|
    ensures Tally(Slots(phases[i := p])) + (if HoldsSlot(phases[i]) then 1 else 0)
         == Tally(Slots(phases)) + if HoldsSlot(p) then 1 else 0
    ensures Tally(Out(calls, phases[i := p], k)) + (if phases[i].Calling? && calls[i].key == k then 1 else 0)
         == Tally(Out(calls, phases, k)) + if p.Calling? && calls[i].key == k then 1 else 0
  {
    TallyUpdate(Slots(phases), i, HoldsSlot(p));
    assert Slots(phases[i := p]) == Slots(phases)[i := HoldsSlot(p)];
    TallyUpdate(Out(calls, phases, k), i, p.Calling? && calls[i].key == k);
    assert Out(calls, phases[i := p], k) == Out(calls, phases, k)[i := p.Calling? && calls[i].key == k];
  }

  lemma BeginKeeps(b: Batch, i: nat, screen: Screen, most: nat, k: Key)
    requires Inv(b, most, k) && Enabled(b, Begin(i, screen))
    ensures Inv(Apply(b, Begin(i, screen)), most, k)
  {
    var a := Apply(b, Begin(i, screen));
    Moved(b.calls, b.phases, i, a.phases[i], k);
    OutHoldsSlots(a, k);
  }

  lemma RecordedHonestly(ledger: Ledger, log: seq<Execution>, key: Key, verdict: Verdict, k: Key)
    requires Honest(ledger, log, k)
    ensures var more := log + [Execution(key, ErrorOf(verdict))];
            && Honest(if verdict.Broke? then Record(ledger, key, verdict.error) else ledger, more, k)
            && Failures(more, k) == Failures(log, k) + if key == k && verdict.Broke? then 1 else 0
  {
    LogMore(log, Execution(key, ErrorOf(verdict)), k);
  }

  lemma EndKeeps(b: Batch, i: nat, verdict: Verdict, most: nat, k: Key)
    requires Inv(b, most, k) && Enabled(b, End(i, verdict))
    ensures Inv(Apply(b, End(i, verdict)), most, k)
  {
    EndCounts(b, i, verdict, k);
    OwnStep(b, End(i, verdict));
  }

  lemma EndCounts(b: Batch, i: nat, verdict: Verdict, k: Key)
    requires OwnResults(b) && Enabled(b, End(i, verdict)) && Honest(b.ledger, b.log, k)
    ensures var a := Apply(b, End(i, verdict));
            && Tally(Slots(a.phases)) == Tally(Slots(b.phases)) && Honest(a.ledger, a.log, k)
            && |a.phases| == |a.calls|
            && Failures(a.log, k) + Tally(Out(a.calls, a.phases, k))
               <= Failures(b.log, k) + Tally(Out(b.calls, b.phases, k))
  {
    Moved(b.calls, b.phases, i, Reporting(Answer(b.calls[i], verdict)), k);
    RecordedHonestly(b.ledger, b.log, b.calls[i].key, verdict, k);
  }

  lemma OwnStep(b: Batch, step: Step)
    requires OwnResults(b)
    ensures OwnResults(Apply(b, step)) && Apply(b, step).calls == b.calls && Apply(b, step).slots == b.slots
  {
  }

  lemma ReleaseKeeps(b: Batch, i: nat, most: nat, k: Key)
    requires Inv(b, most, k) && Enabled(b, Release(i))
    ensures Inv(Apply(b, Release(i)), most, k)
  {
    Moved(b.calls, b.phases, i, Apply(b, Release(i)).phases[i], k);
  }

  lemma StepKeeps(b: Batch, step: Step, most: nat, k: Key)
    requires Inv(b, most, k)
    ensures Inv(Apply(b, step), most, k)
  {
    if Enabled(b, step) {
      match step {
        case Begin(i, screen) => BeginKeeps(b, i, screen, most, k);
        case End(i, verdict) => EndKeeps(b, i, verdict, most, k);
        case Release(i) => ReleaseKeeps(b, i, most, k);
      }
    }
  }

  lemma {:induction false} RunKeeps(b: Batch, steps: seq<Step>, most: nat, k: Key)
    requires Inv(b, most, k)
    ensures Inv(ApplyAll(b, steps), most, k) && ApplyAll(b, steps).calls == b.calls
  {
    if steps != [] {
      RunKeeps(b, steps[..|steps| - 1], most, k);
      StepKeeps(ApplyAll(b, steps[..|steps| - 1]), steps[|steps| - 1], most, k);
    }
  }

  lemma NewIsSound(calls: seq<Call>, slots: nat, ledger: Ledger, log: seq<Execution>, most: nat, k: Key)
    requires slots <= most && Honest(ledger, log, k) && Failures(log, k) <= most + 1
    ensures Inv(NewBatch(calls, slots, ledger, log), most, k)
  {
    var b := NewBatch(calls, slots, ledger, log);
    TallyNone(Slots(b.phases));
    TallyNone(Out(b.calls, b.phases, k));
  }

  // ---------------------------------------------------------------- a whole prompt run

  /** One batch of the run: its calls, its slots, and the order in which things happened in it. */
  datatype Round = Round(calls: seq<Call>, slots: nat, steps: seq<Step>)

  /** The loop takes up the next batch only when every call of the last one has its result. */
  function Play(ledger: Ledger, log: seq<Execution>, rounds: seq<Round>): Batch
    requires rounds != []
    decreases |rounds|
  {
    var b := ApplyAll(NewBatch(rounds[0].calls, rounds[0].slots, ledger, log), rounds[0].steps);
    if |rounds| == 1 || !AllFinished(b) then b else Play(b.ledger, b.log, rounds[1..])
  }

  lemma {:induction false} PlayKeeps(ledger: Ledger, log: seq<Execution>, rounds: seq<Round>, most: nat, k: Key)
    requires rounds != [] && forall j :: 0 <= j < |rounds| ==> rounds[j].slots <= most
    requires Honest(ledger, log, k) && Failures(log, k) <= most + 1
    ensures Inv(Play(ledger, log, rounds), most, k)
    decreases |rounds|
  {
    var start := NewBatch(rounds[0].calls, rounds[0].slots, ledger, log);
    NewIsSound(rounds[0].calls, rounds[0].slots, ledger, log, most, k);
    RunKeeps(start, rounds[0].steps, most, k);
    var b := ApplyAll(start, rounds[0].steps);
    if |rounds| > 1 && AllFinished(b) {
      PlayKeeps(b.ledger, b.log, rounds[1..], most, k);
    }
  }

  /**
   * With at most `most` calls in flight, identical calls fail at most most + 1 times in a whole prompt run, however
   * their stretches interleave; one at a time, that is the two failures the ledger allows.
   */
  lemma FailuresAreBounded(rounds: seq<Round>, most: nat, k: Key)
    requires rounds != [] && forall j :: 0 <= j < |rounds| ==> rounds[j].slots <= most
    ensures Failures(Play(map[], [], rounds).log, k) <= most + 1
  {
    PlayKeeps(map[], [], rounds, most, k);
  }

  /** A call is let through exactly when identical ones failed fewer than twice, and a refusal quotes the last error. */
  lemma RefusedExactlyAfterTwoFailures(b: Batch, i: nat, most: nat)
    requires i < |b.calls| == |b.phases| && Inv(b, most, b.calls[i].key) && Enabled(b, Begin(i, Clear))
    ensures var k, after := b.calls[i].key, Apply(b, Begin(i, Clear)).phases[i];
            && (after.Calling? <==> Failures(b.log, k) < MAX_IDENTICAL_FAILURES)
            && (!after.Calling? ==>
                  after == Reporting(Result(b.calls[i].id, Blocked, LastFailure(b.log, k),
                                            Some(Entry(Failures(b.log, k), after.result.error.value)))))
  {
  }

  /** Results come back one per call, in the order of the calls. */
  function Results(b: Batch): (results: seq<Result>)
    requires AllFinished(b)
    ensures |results| == |b.phases|
  {
    seq(|b.phases|, i requires 0 <= i < |b.phases| => b.phases[i].result)
  }

  lemma ResultsFollowCalls(calls: seq<Call>, slots: nat, ledger: Ledger, log: seq<Execution>, steps: seq<Step>)
    requires AllFinished(ApplyAll(NewBatch(calls, slots, ledger, log), steps))
    ensures var results := Results(ApplyAll(NewBatch(calls, slots, ledger, log), steps));
            |results| == |calls| && forall i :: 0 <= i < |calls| ==> results[i].id == calls[i].id
  {
    OwnKept(NewBatch(calls, slots, ledger, log), steps);
  }

  lemma {:induction false} OwnKept(b: Batch, steps: seq<Step>)
    requires OwnResults(b)
    ensures OwnResults(ApplyAll(b, steps)) && ApplyAll(b, steps).calls == b.calls
  {
    if steps != [] {
      OwnKept(b, steps[..|steps| - 1]);
      OwnStep(ApplyAll(b, steps[..|steps| - 1]), steps[|steps| - 1]);
    }
  }

  /** As long as a call has no result yet, something can happen: no schedule gets stuck. */
  lemma SomethingCanHappen(b: Batch, most: nat, k: Key) returns (step: Step)
    requires Inv(b, most, k) && b.slots >= 1 && !AllFinished(b)
    ensures Enabled(b, step)
  {
    var i :| 0 <= i < |b.phases| && !b.phases[i].Finished?;
    if j :| 0 <= j < |b.phases| && b.phases[j].Calling? {
      step := End(j, Answered(""));
    } else if j :| 0 <= j < |b.phases| && b.phases[j].Reporting? {
      step := Release(j);
    } else {
      TallyNone(Slots(b.phases));
      step := Begin(i, Clear);
    }
  }

  // ---------------------------------------------------------------- the bound is reached

  lemma Extends(b: Batch, steps: seq<Step>, step: Step)
    ensures ApplyAll(b, steps + [step]) == Apply(ApplyAll(b, steps), step)
  {
    assert (steps + [step])[..|steps|] == steps;
  }

  /** A batch of identical calls: the first failed and is over, those before `begun` are out, `failed` have failed. */
  predicate Racing(b: Batch, k: Key, begun: nat, failed: nat) {
    && 1 <= failed <= begun <= |b.calls| == |b.phases| && b.slots == |b.calls| - 1
    && (forall i :: 0 <= i < |b.calls| ==> b.calls[i].key == k)
    && (forall i :: failed <= i < begun ==> b.phases[i].Calling?)
    && (forall i :: begun <= i < |b.phases| ==> b.phases[i].Queued?)
    && EntryOf(b.ledger, k).count == failed && Failures(b.log, k) == failed
  }

  lemma FirstFails(most: nat, k: Key, error: string) returns (start: Batch, steps: seq<Step>)
    requires most >= 1
    ensures start.slots == most && |start.calls| == most + 1 && start == NewBatch(start.calls, most, map[], [])
    ensures Racing(ApplyAll(start, steps), k, 1, 1) && Tally(Slots(ApplyAll(start, steps).phases)) == 0
  {
    start := NewBatch(seq(most + 1, _ => Call("", k)), most, map[], []);
    steps := [Begin(0, Clear), End(0, Broke(error)), Release(0)];
    TallyNone(Slots(start.phases));
    assert ApplyAll(start, []) == start;
    assert steps[..2] == [Begin(0, Clear)] + [End(0, Broke(error))] && steps == steps[..2] + [Release(0)];
    Extends(start, [], Begin(0, Clear));
    Extends(start, [Begin(0, Clear)], End(0, Broke(error)));
    Extends(start, steps[..2], Release(0));
    assert [] + [Begin(0, Clear)] == [Begin(0, Clear)];
    FirstFailed(start, k, error);
  }

  lemma FirstFailed(start: Batch, k: Key, error: string)
    requires |start.calls| == |start.phases| >= 2 && start.slots == |start.calls| - 1
    requires start.ledger == map[] && start.log == []
    requires forall i :: 0 <= i < |start.calls| ==> start.calls[i].key == k
    requires forall i :: 0 <= i < |start.phases| ==> start.phases[i].Queued?
    ensures var b := Apply(Apply(Apply(start, Begin(0, Clear)), End(0, Broke(error))), Release(0));
            Racing(b, k, 1, 1) && Tally(Slots(b.phases)) == 0
  {
    TallyNone(Slots(start.phases));
    var b := Apply(Apply(start, Begin(0, Clear)), End(0, Broke(error)));
    assert b.log == [] + [Execution(k, Some(error))];
    LogMore([], Execution(k, Some(error)), k);
    TallyNone(Slots(Apply(b, Release(0)).phases));
  }

  lemma OneMoreBegins(b: Batch, k: Key, begun: nat)
    requires Racing(b, k, begun, 1) && begun < |b.calls| && Tally(Slots(b.phases)) == begun - 1
    ensures var a := Apply(b, Begin(begun, Clear));
            Racing(a, k, begun + 1, 1) && Tally(Slots(a.phases)) == begun
  {
    Moved(b.calls, b.phases, begun, Calling, k);
  }

  lemma OneMoreFails(b: Batch, k: Key, failed: nat, error: string)
    requires Racing(b, k, |b.calls|, failed) && failed < |b.calls|
    ensures Racing(Apply(b, End(failed, Broke(error))), k, |b.calls|, failed + 1)
  {
    LogMore(b.log, Execution(k, Some(error)), k);
  }

  /** The bound is met: with `most` slots, a batch can see most + 1 failures of one call. */
  lemma BoundIsReached(most: nat, k: Key, error: string) returns (round: Round)
    requires most >= 1
    ensures round.slots == most && Failures(Play(map[], [], [round]).log, k) == most + 1
  {
    var start, steps := FirstFails(most, k, error);
    OwnKept(start, steps);
    var j := 1;
    while j < most + 1
      invariant 1 <= j <= most + 1 && Racing(ApplyAll(start, steps), k, j, 1)
      invariant |ApplyAll(start, steps).calls| == most + 1
      invariant Tally(Slots(ApplyAll(start, steps).phases)) == j - 1
    {
      OneMoreBegins(ApplyAll(start, steps), k, j);
      Extends(start, steps, Begin(j, Clear));
      steps := steps + [Begin(j, Clear)];
      j := j + 1;
    }
    j := 1;
    while j < most + 1
      invariant 1 <= j <= most + 1 && |ApplyAll(start, steps).calls| == most + 1
      invariant Racing(ApplyAll(start, steps), k, most + 1, j)
    {
      OneMoreFails(ApplyAll(start, steps), k, j, error);
      Extends(start, steps, End(j, Broke(error)));
      steps := steps + [End(j, Broke(error))];
      j := j + 1;
    }
    round := Round(start.calls, most, steps);
  }

  // ---------------------------------------------------------------- what becomes of one call

  /** The call has failed twice or more as it stands. */
  predicate Exhausted(failures: Ledger, k: Key) {
    k in failures && failures[k].count >= 2
  }

  /** What the checks in front of a call make of it: a result at once, or nothing yet. */
  predicate CheckedAs(call: Call, screen: Screen, failures: Ledger, phase: Phase) {
    match screen
    case Aborted => phase == Reporting(Result(call.id, Failure, Some(ABORTED_TEXT), None))
    case Invalid(reason) => phase == Reporting(Result(call.id, Failure, Some(reason), None))
    case Denied(reason) => phase == Reporting(Result(call.id, Blocked, Some(reason), None))
    case Clear =>
      if Exhausted(failures, call.key) then
        phase == Reporting(Result(call.id, Blocked, Some(failures[call.key].error), Some(failures[call.key])))
      else phase == Calling
  }

  /** What the tool's answer makes of it. */
  predicate AnsweredAs(call: Call, verdict: Verdict, result: Result) {
    && result.id == call.id && result.repeats == None
    && (verdict.Answered? ==> result.status == Success && result.error == None)
    && (verdict.Broke? ==> result.status == Failure && result.error == Some(verdict.error))
  }

  /** What it makes of the ledger: one failure more of this key, or nothing. */
  predicate CountedAs(before: Ledger, after: Ledger, k: Key, verdict: Verdict) {
    if verdict.Answered? then after == before
    else
      && after.Keys == before.Keys + {k}
      && after[k].count == (if k in before then before[k].count else 0) + 1 && after[k].error == verdict.error
      && forall other :: other in before && other != k ==> after[other] == before[other]
  }

  /** A call from its checks to its result, with nothing in between. */
  predicate RanAs(call: Call, screen: Screen, verdict: Verdict, before: Ledger, after: Ledger, result: Result) {
    if screen.Clear? && !Exhausted(before, call.key) then
      AnsweredAs(call, verdict, result) && CountedAs(before, after, call.key, verdict)
    else CheckedAs(call, screen, before, Reporting(result)) && after == before
  }

  // ---------------------------------------------------------------- the batch itself

  /** A batch as it runs: every method goes from one await of a call to the next. */
  class ToolCallBatch {
    const ledger: RepeatedFailureLedger
    const calls: seq<Call>
    const slots: nat
    var phases: seq<Phase>
    var busy: nat
    ghost var log: seq<Execution>
    ghost var started: Batch
    ghost var steps: seq<Step>

    ghost function State(): Batch
      reads this, ledger
    {
      Batch(calls, slots, phases, ledger.failures, log)
    }

    ghost predicate Valid()
      reads this, ledger
    {
      && |phases| == |calls| && busy == Tally(Slots(phases)) && slots >= 1
      && started == NewBatch(calls, slots, started.ledger, started.log)
      && State() == ApplyAll(started, steps)
    }

    constructor (ledger: RepeatedFailureLedger, calls: seq<Call>, sequential: bool, maxConcurrency: int,
                 ghost log: seq<Execution>)
      ensures Valid() && steps == [] && this.ledger == ledger && this.calls == calls
      ensures slots == if sequential then 1 else Max(1, maxConcurrency)
      ensures started == NewBatch(calls, slots, ledger.failures, log) && phases == started.phases && this.log == log
      ensures ledger.failures == old(ledger.failures)
    {
      this.ledger, this.calls := ledger, calls;
      slots := if sequential then 1 else Max(1, maxConcurrency);
      phases := seq(|calls|, _ => Queued);
      busy := 0;
      this.log := log;
      started := NewBatch(calls, if sequential then 1 else Max(1, maxConcurrency), ledger.failures, log);
      steps := [];
      new;
      TallyNone(Slots(phases));
    }

    /** Take a slot and check the call: it goes out to its tool, or it has its result already. */
    method BeginCall(i: nat, screen: Screen)
      requires Valid() && i < |calls| && phases[i].Queued? && busy < slots
      modifies this
      ensures Valid() && steps == old(steps) + [Begin(i, screen)] && log == old(log) && started == old(started)
      ensures phases == old(phases)[i := phases[i]] && busy == old(busy) + 1
      ensures phases[i] == var stopped := Check(calls[i], screen, ledger.failures, ABORTED_TEXT);
                           if stopped.Some? then Reporting(stopped.value) else Calling
      ensures CheckedAs(calls[i], screen, ledger.failures, phases[i])
    {
      Extends(started, steps, Begin(i, screen));
      Moved(calls, phases, i, Calling, calls[i].key);
      busy := busy + 1;
      var call := calls[i];
      var stopped := None;
      match screen {
        case Aborted => stopped := Some(Result(call.id, Failure, Some(ABORTED_TEXT), None));
        case Invalid(reason) => stopped := Some(Result(call.id, Failure, Some(reason), None));
        case Denied(reason) => stopped := Some(Result(call.id, Blocked, Some(reason), None));
        case Clear =>
          var refusal := ledger.RefusalFor(call.key);
          if refusal.Some? {
            stopped := Some(Result(call.id, Blocked, Some(refusal.value.error), refusal));
          }
      }
      Moved(calls, phases, i, if stopped.Some? then Reporting(stopped.value) else Calling, calls[i].key);
      phases := phases[i := if stopped.Some? then Reporting(stopped.value) else Calling];
      steps := steps + [Begin(i, screen)];
    }

    /** The tool answered; a failure goes into the ledger before anyone hears of it. */
    method EndCall(i: nat, verdict: Verdict)
      requires Valid() && i < |calls| && phases[i].Calling?
      modifies this, ledger
      ensures Valid() && steps == old(steps) + [End(i, verdict)] && started == old(started)
      ensures phases == old(phases)[i := Reporting(Answer(calls[i], verdict))] && busy == old(busy)
      ensures log == old(log) + [Execution(calls[i].key, ErrorOf(verdict))]
      ensures AnsweredAs(calls[i], verdict, phases[i].result)
      ensures CountedAs(old(ledger.failures), ledger.failures, calls[i].key, verdict)
    {
      Extends(started, steps, End(i, verdict));
      if verdict.Broke? {
        ledger.RecordFailure(calls[i].key, verdict.error);
      }
      Moved(calls, phases, i, Reporting(Answer(calls[i], verdict)), calls[i].key);
      phases := phases[i := Reporting(Answer(calls[i], verdict))];
      log := log + [Execution(calls[i].key, ErrorOf(verdict))];
      steps := steps + [End(i, verdict)];
    }

    /** The result was reported, and the slot is given up. */
    method ReleaseCall(i: nat)
      requires Valid() && i < |calls| && phases[i].Reporting?
      modifies this
      ensures Valid() && steps == old(steps) + [Release(i)] && log == old(log) && started == old(started)
      ensures phases == old(phases)[i := Finished(old(phases)[i].result)] && busy + 1 == old(busy)
    {
      Extends(started, steps, Release(i));
      Moved(calls, phases, i, Finished(phases[i].result), calls[i].key);
      busy := busy - 1;
      phases := phases[i := Finished(phases[i].result)];
      steps := steps + [Release(i)];
    }

    /** A batch that must not overlap runs its calls one after the other. */
    method RunInOrder(screens: seq<Screen>, verdicts: seq<Verdict>)
      returns (results: seq<Result>, ghost ledgers: seq<Ledger>)
      requires Valid() && steps == [] && phases == started.phases && |screens| == |verdicts| == |calls|
      modifies this, ledger
      ensures Valid() && started == old(started) && AllFinished(State()) && results == Results(State())
      ensures |results| == |calls| && forall i :: 0 <= i < |calls| ==> results[i].id == calls[i].id
      ensures |ledgers| == |calls| + 1 && ledgers[0] == old(ledger.failures) && ledgers[|calls|] == ledger.failures
      ensures forall i :: 0 <= i < |calls| ==>
                RanAs(calls[i], screens[i], verdicts[i], ledgers[i], ledgers[i + 1], results[i])
    {
      results, ledgers := [], [ledger.failures];
      var i := 0;
      TallyNone(Slots(phases));
      while i < |calls|
        invariant i <= |calls| && |results| == i && Valid() && started == old(started) && busy == 0
        invariant forall j :: 0 <= j < i ==> phases[j] == Finished(results[j]) && results[j].id == calls[j].id
        invariant forall j :: i <= j < |calls| ==> phases[j].Queued?
        invariant |ledgers| == i + 1 && ledgers[0] == old(ledger.failures) && ledgers[i] == ledger.failures
        invariant forall j :: 0 <= j < i ==>
          RanAs(calls[j], screens[j], verdicts[j], ledgers[j], ledgers[j + 1], results[j])
      {
        var result := RunOne(i, screens[i], verdicts[i]);
        results, ledgers := results + [result], ledgers + [ledger.failures];
        i := i + 1;
      }
    }

    method RunOne(i: nat, screen: Screen, verdict: Verdict) returns (result: Result)
      requires Valid() && i < |calls| && phases[i].Queued? && busy == 0
      modifies this, ledger
      ensures Valid() && started == old(started) && busy == 0
      ensures phases == old(phases)[i := Finished(result)] && result.id == calls[i].id
      ensures RanAs(calls[i], screen, verdict, old(ledger.failures), ledger.failures, result)
    {
      BeginCall(i, screen);
      if phases[i].Calling? {
        EndCall(i, verdict);
      }
      result := phases[i].result;
      ReleaseCall(i);
    }
  }
}
