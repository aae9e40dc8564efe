/**
 * The run trace as a fold over typed events. A rejected event is None, and the source's ValueError. Titles and
 * descriptions of stages follow from their keys and are left out; so is the round, which the reducer never sets.
 */
module TraceReducer {
  import opened Text

  type Time = int

  datatype StageStatus = Pending | Active | Completed | Skipped | Degraded | FailedStage

  datatype StepStatus = Running | Done | Blocked | Broken

  datatype StepKind = ToolStep | ThinkingStep | ResultStep

  datatype ToolData = ToolData(callId: string, tool: string, arguments: string, error: Option<string>)

  datatype Step = Step(
    id: string,
    kind: StepKind,
    title: string,
    status: StepStatus,
    summary: Option<string>,
    content: Option<string>,
    data: Option<ToolData>,
    started: Option<Time>,
    ended: Option<Time>)

  datatype Stage = Stage(
    key: string,
    status: StageStatus,
    summary: Option<string>,
    started: Option<Time>,
    ended: Option<Time>,
    steps: seq<Step>)

  datatype Trace = Trace(eventSeq: int, current: Option<string>, stages: seq<Stage>, updated: Time)

  datatype Change =
    | Enter
    | Complete(result: Option<string>)
    | Skip(reason: string)
    | Degrade(reason: string)
    | Fail(result: Option<string>)
    | StartTool(callId: string, tool: string, arguments: string, title: Option<string>, summary: Option<string>)
    | FinishTool(callId: string, tool: string, status: string, arguments: string, error: Option<string>,
                 title: Option<string>, summary: Option<string>)
    | TextDelta(stepId: string, channel: string, delta: string)

  datatype Event = Event(stageName: string, change: Change, seqNo: Option<nat>, at: Time)

  // ---------------------------------------------------------------- names

  function BeforeColon(name: string): string {
    if name == "" || name[0] == ':' then "" else [name[0]] + BeforeColon(name[1..])
  }

  /** The trace key a stage name means: a state name up to its first colon, or a key itself. */
  function Resolve(name: string): Option<string> {
    var base := BeforeColon(name);
    if base == "Run" then Some("run")
    else if base == "Summary" then Some("summary")
    else if base == "Watch" then Some("watch")
    else if name in ["run", "summary", "watch"] then Some(name)
    else None
  }

  function StageId(key: string): string {
    key + ":na"
  }

  function ToolStepId(callId: string, tool: string): string {
    "tool:" + if callId != "" then callId else tool
  }

  /** Python's `or` on a text that may be absent. */
  function Or(a: Option<string>, b: string): string {
    if a.Some? && a.value != "" then a.value else b
  }

  function OrElse<T>(a: Option<T>, b: T): Option<T> {
    if a.Some? then a else Some(b)
  }

  // ---------------------------------------------------------------- steps

  function FindStep(steps: seq<Step>, id: string): Option<Step> {
    if steps == [] then None else if steps[0].id == id then Some(steps[0]) else FindStep(steps[1..], id)
  }

  /** Put a step in the place of the one with its id, or at the end. */
  function Upsert(steps: seq<Step>, s: Step): seq<Step> {
    if steps == [] then [s]
    else if steps[0].id == s.id then [s] + steps[1..]
    else [steps[0]] + Upsert(steps[1..], s)
  }

  function CloseStep(s: Step, status: StepStatus, now: Time): Step {
    if s.status.Running? then s.(status := status, ended := Some(now)) else s
  }

  function CloseRunning(steps: seq<Step>, status: StepStatus, now: Time): seq<Step> {
    if steps == [] then []
    else CloseRunning(steps[..|steps| - 1], status, now) + [CloseStep(steps[|steps| - 1], status, now)]
  }

  const RESULT := "result"

  function IndexOf(steps: seq<Step>, id: string): (i: nat)
    ensures i <= |steps|
    ensures i < |steps| ==> steps[i].id == id
    ensures forall j :: 0 <= j < i ==> steps[j].id != id
  {
    if steps == [] || steps[0].id == id then 0 else 1 + IndexOf(steps[1..], id)
  }

  function MoveResult(steps: seq<Step>): seq<Step> {
    var i := IndexOf(steps, RESULT);
    if i + 1 >= |steps| then steps else steps[..i] + steps[i + 1..] + [steps[i]]
  }

  // ---------------------------------------------------------------- what an event does to its stage

  function NewStage(key: string): Stage {
    Stage(key, Pending, None, None, None, [])
  }

  function Awake(s: Stage, now: Time): Stage {
    if s.status.Pending? then s.(status := Active, started := OrElse(s.started, now)) else s
  }

  function Close(s: Stage, status: StageStatus, summary: Option<string>, steps: StepStatus, now: Time): Stage {
    s.(status := status, summary := summary, ended := Some(now), steps := CloseRunning(s.steps, steps, now))
  }

  function ToolStatus(status: string): Option<StepStatus> {
    if status in ["completed", "ok"] then Some(Done)
    else if status == "blocked" then Some(Blocked)
    else if status in ["failed", "error"] then Some(Broken)
    else None
  }

  function FreshStep(id: string, kind: StepKind, title: string): Step {
    Step(id, kind, title, Running, None, None, None, None, None)
  }

  function StartedStep(found: Option<Step>, c: Change, now: Time): Step
    requires c.StartTool?
  {
    var id := ToolStepId(c.callId, c.tool);
    var s := if found.Some? then found.value
             else FreshStep(id, ToolStep, Or(c.title, Or(Some(c.tool), "tool")));
    s.(title := Or(c.title, s.title), status := Running, summary := c.summary, started := OrElse(s.started, now),
       data := Some(ToolData(c.callId, c.tool, c.arguments, None)))
  }

  function FinishedStep(found: Option<Step>, c: Change, status: StepStatus, now: Time): Step
    requires c.FinishTool?
  {
    var id := ToolStepId(c.callId, c.tool);
    var s := if found.Some? then found.value
             else FreshStep(id, ToolStep, Or(c.title, Or(Some(c.tool), "tool")));
    s.(title := Or(c.title, s.title), status := status, summary := c.summary, started := OrElse(s.started, now),
       ended := Some(now), data := Some(ToolData(c.callId, c.tool, c.arguments, c.error)))
  }

  function TextStep(found: Option<Step>, c: Change, now: Time): Step
    requires c.TextDelta?
  {
    var kind := if c.channel == "thinking" then ThinkingStep else ResultStep;
    var title := if c.channel == "thinking" then "thinking" else RESULT;
    var s := if found.Some? then found.value else FreshStep(c.stepId, kind, title);
    s.(status := Running, started := OrElse(s.started, now),
       content := Some((if s.content.Some? then s.content.value else "") + c.delta))
  }

  function OnStage(s: Stage, c: Change, now: Time): Option<Stage> {
    match c
    case Enter =>
      if !s.status.Pending? then None
      else Some(s.(status := Active, started := OrElse(s.started, now), ended := None))
    case Complete(result) =>
      if s.status.FailedStage? then None
      else Some(Close(s, Completed, if result.Some? then result else s.summary, Done, now))
    case Skip(reason) =>
      if s.status.FailedStage? then None
      else Some(Close(s.(started := OrElse(s.started, now)), Skipped, Some(reason), Blocked, now))
    case Degrade(reason) =>
      Some(Close(s.(started := OrElse(s.started, now)), Degraded, Some(reason), Broken, now))
    case Fail(result) =>
      Some(Close(s, FailedStage, if result.Some? then result else s.summary, Broken, now))
    case StartTool(callId, tool, _, _, _) =>
      if !s.status.Active? && !s.status.Pending? then None
      else
        var step := StartedStep(FindStep(s.steps, ToolStepId(callId, tool)), c, now);
        Some(Awake(s.(steps := MoveResult(Upsert(s.steps, step))), now))
    case FinishTool(callId, tool, status, _, _, _, _) =>
      if ToolStatus(status).None? then None
      else
        var step := FinishedStep(FindStep(s.steps, ToolStepId(callId, tool)), c, ToolStatus(status).value, now);
        Some(s.(steps := MoveResult(Upsert(s.steps, step))))
    case TextDelta(stepId, _, _) =>
      var found := FindStep(s.steps, stepId);
      if found.None? && stepId == "" then None
      else Some(Awake(s.(steps := Upsert(s.steps, TextStep(found, c, now))), now))
  }

  function OnCurrent(current: Option<string>, c: Change, id: string): Option<string> {
    match c
    case Enter => Some(id)
    case StartTool(_, _, _, _, _) => Some(id)
    case TextDelta(_, _, _) => Some(id)
    case FinishTool(_, _, _, _, _, _, _) => current
    case _ => if current == Some(id) then None else current
  }

  // ---------------------------------------------------------------- the reducer

  /** The newest stage of a key, counting from the end. */
  function Latest(stages: seq<Stage>, key: string): Option<nat> {
    if stages == [] then None
    else if stages[|stages| - 1].key == key then Some(|stages| - 1)
    else Latest(stages[..|stages| - 1], key)
  }

  lemma {:induction false} LatestIs(stages: seq<Stage>, key: string)
    ensures Latest(stages, key).Some? ==>
              Latest(stages, key).value < |stages| && stages[Latest(stages, key).value].key == key
    ensures Latest(stages, key).None? ==> forall i :: 0 <= i < |stages| ==> stages[i].key != key
  {
    if stages != [] && stages[|stages| - 1].key != key {
      LatestIs(stages[..|stages| - 1], key);
    }
  }

  /** The stage an event is about, as it is or as it would be created. */
  function StageFor(stages: seq<Stage>, key: string): Stage {
    LatestIs(stages, key);
    var i := Latest(stages, key);
    if i.Some? then stages[i.value] else NewStage(key)
  }

  function WithStage(stages: seq<Stage>, s: Stage): seq<Stage> {
    LatestIs(stages, s.key);
    var i := Latest(stages, s.key);
    if i.Some? then stages[i.value := s] else stages + [s]
  }

  function Act(t: Trace, e: Event): Option<Trace> {
    if e.change.TextDelta? && e.change.delta == "" then Some(t)
    else
      var key := Resolve(e.stageName);
      if key.None? then None
      else
        var s := OnStage(StageFor(t.stages, key.value), e.change, e.at);
        if s.None? then None
        else Some(t.(stages := WithStage(t.stages, s.value), current := OnCurrent(t.current, e.change, StageId(key.value))))
  }

  function Reduce(t: Trace, e: Event): Option<Trace> {
    var acted := Act(t, e);
    if acted.None? || (e.seqNo.Some? && e.seqNo.value <= t.eventSeq) then None
    else
      Some(acted.value.(eventSeq := if e.seqNo.Some? then e.seqNo.value else t.eventSeq + 1, updated := e.at))
  }

  function ReduceAll(t: Trace, events: seq<Event>): Option<Trace> {
    if events == [] then Some(t)
    else
      var before := ReduceAll(t, events[..|events| - 1]);
      if before.None? then None else Reduce(before.value, events[|events| - 1])
  }

  function EmptyTrace(now: Time): Trace {
    Trace(0, None, [], now)
  }

  // ---------------------------------------------------------------- the shape every trace keeps

  predicate UniqueSteps(steps: seq<Step>) {
    && (forall i :: 0 <= i < |steps| ==> steps[i].id != "")
    && (forall i, j :: 0 <= i < j < |steps| ==> steps[i].id != steps[j].id)
  }

  predicate UniqueStages(stages: seq<Stage>) {
    forall i, j :: 0 <= i < j < |stages| ==> stages[i].key != stages[j].key
  }

  predicate Shaped(t: Trace) {
    && UniqueStages(t.stages)
    && (forall i :: 0 <= i < |t.stages| ==> UniqueSteps(t.stages[i].steps))
    && (t.current.Some? ==> exists i :: 0 <= i < |t.stages| && StageId(t.stages[i].key) == t.current.value)
  }

  lemma {:induction false} UpsertAt(steps: seq<Step>, s: Step)
    ensures var i := IndexOf(steps, s.id);
            Upsert(steps, s) == if i < |steps| then steps[i := s] else steps + [s]
  {
    if steps != [] && steps[0].id != s.id {
      UpsertAt(steps[1..], s);
      assert steps == [steps[0]] + steps[1..];
    }
  }

  lemma {:induction false} FindAt(steps: seq<Step>, id: string)
    ensures var i := IndexOf(steps, id); FindStep(steps, id) == if i < |steps| then Some(steps[i]) else None
  {
    if steps != [] && steps[0].id != id {
      FindAt(steps[1..], id);
    }
  }

  /** Where ids are unique, a step is found wherever it is. */
  lemma FindUnique(steps: seq<Step>, i: nat)
    requires UniqueSteps(steps) && i < |steps|
    ensures FindStep(steps, steps[i].id) == Some(steps[i])
  {
    FindAt(steps, steps[i].id);
  }

  lemma UpsertKeepsUnique(steps: seq<Step>, s: Step)
    requires UniqueSteps(steps) && s.id != ""
    ensures UniqueSteps(Upsert(steps, s))
  {
    UpsertAt(steps, s);
  }

  lemma FindUpserted(steps: seq<Step>, s: Step, id: string)
    ensures FindStep(Upsert(steps, s), id) == if id == s.id then Some(s) else FindStep(steps, id)
  {
    UpsertAt(steps, s);
    FindAt(steps, id);
    FindAt(Upsert(steps, s), id);
    var i, j, k := IndexOf(steps, s.id), IndexOf(steps, id), IndexOf(Upsert(steps, s), id);
    if id != s.id {
      assert j < |steps| ==> Upsert(steps, s)[j] == steps[j];
      assert k < |steps| ==> k != i;
    }
  }

  lemma {:induction false} ClosedEach(steps: seq<Step>, status: StepStatus, now: Time)
    ensures |CloseRunning(steps, status, now)| == |steps|
    ensures forall i :: 0 <= i < |steps| ==> CloseRunning(steps, status, now)[i] == CloseStep(steps[i], status, now)
  {
    if steps != [] {
      ClosedEach(steps[..|steps| - 1], status, now);
    }
  }

  /** Where the j-th step after moving the result was before, when the result was at i. */
  function CameFrom(i: nat, j: nat, n: nat): int {
    if j < i then j else if j < n - 1 then j + 1 else i
  }

  lemma MovedAt(steps: seq<Step>, j: nat)
    requires j < |steps|
    ensures |MoveResult(steps)| == |steps|
    ensures var i := IndexOf(steps, RESULT);
            MoveResult(steps)[j] == steps[if i < |steps| then CameFrom(i, j, |steps|) else j]
  {
    var i := IndexOf(steps, RESULT);
    if i + 1 < |steps| {
      var front, back := steps[..i], steps[i + 1..];
      if j < i {
        assert (front + back + [steps[i]])[j] == front[j];
      } else if j < |steps| - 1 {
        assert (front + back + [steps[i]])[j] == back[j - i];
      }
    }
  }

  lemma MovedIsUnique(steps: seq<Step>)
    requires UniqueSteps(steps)
    ensures UniqueSteps(MoveResult(steps)) && |MoveResult(steps)| == |steps|
  {
    var m := MoveResult(steps);
    if steps != [] {
      MovedAt(steps, 0);
    }
    forall j | 0 <= j < |steps| ensures m[j].id != "" {
      MovedAt(steps, j);
    }
    forall j, k | 0 <= j < k < |steps| ensures m[j].id != m[k].id {
      MovedAt(steps, j);
      MovedAt(steps, k);
    }
  }

  /** Where the step at k goes when the result is moved. */
  function GoesTo(i: nat, k: nat, n: nat): int {
    if k < i then k else if k == i then n - 1 else k - 1
  }

  lemma FindMoved(steps: seq<Step>, id: string)
    requires UniqueSteps(steps)
    ensures FindStep(MoveResult(steps), id) == FindStep(steps, id)
  {
    MovedIsUnique(steps);
    var m, r, n := MoveResult(steps), IndexOf(steps, RESULT), |steps|;
    FindAt(steps, id);
    FindAt(m, id);
    var i, j := IndexOf(steps, id), IndexOf(m, id);
    if i < n {
      var k := if r < n then GoesTo(r, i, n) else i;
      MovedAt(steps, k);
      FindUnique(m, k);
    } else if j < n {
      MovedAt(steps, j);
    }
  }

  function Without(steps: seq<Step>, id: string): seq<Step> {
    if steps == [] then []
    else Without(steps[..|steps| - 1], id) + if steps[|steps| - 1].id == id then [] else [steps[|steps| - 1]]
  }

  lemma {:induction false} WithoutConcat(a: seq<Step>, b: seq<Step>, id: string)
    ensures Without(a + b, id) == Without(a, id) + Without(b, id)
  {
    if b == [] {
      assert a + b == a;
    } else {
      WithoutConcat(a, b[..|b| - 1], id);
      assert (a + b)[..|a + b| - 1] == a + b[..|b| - 1];
    }
  }

  lemma WithoutOne(s: Step, id: string)
    ensures Without([s], id) == if s.id == id then [] else [s]
  {
    assert [s][..0] == [];
  }

  lemma WithoutMoved(front: seq<Step>, x: Step, back: seq<Step>)
    ensures Without(front + [x] + back, x.id) == Without(front + back + [x], x.id)
  {
    WithoutOne(x, x.id);
    WithoutConcat(front + [x], back, x.id);
    WithoutConcat(front, [x], x.id);
    WithoutConcat(front + back, [x], x.id);
    WithoutConcat(front, back, x.id);
  }

  lemma Around(steps: seq<Step>, i: nat)
    requires i < |steps|
    ensures steps == steps[..i] + [steps[i]] + steps[i + 1..]
  {
  }

  /** Moving the result leaves it last, and the other steps in their order. */
  lemma {:induction false} ResultGoesLast(steps: seq<Step>)
    ensures Without(MoveResult(steps), RESULT) == Without(steps, RESULT)
    ensures |MoveResult(steps)| == |steps|
    ensures FindStep(steps, RESULT).Some? ==> MoveResult(steps)[|steps| - 1].id == RESULT
  {
    var i := IndexOf(steps, RESULT);
    FindAt(steps, RESULT);
    if i + 1 < |steps| {
      Around(steps, i);
      var front, x, back := steps[..i], steps[i], steps[i + 1..];
      WithoutMoved(front, x, back);
      assert MoveResult(steps) == front + back + [x];
      LastOf(front + back, x);
    }
  }

  lemma LastOf(front: seq<Step>, x: Step)
    ensures (front + [x])[|front|] == x
  {
  }

  // ---------------------------------------------------------------- stages

  lemma {:induction false} WithStageIsUnique(stages: seq<Stage>, s: Stage)
    requires UniqueStages(stages)
    ensures UniqueStages(WithStage(stages, s))
  {
    LatestIs(stages, s.key);
  }

  lemma {:induction false} StageForWith(stages: seq<Stage>, s: Stage, key: string)
    requires UniqueStages(stages)
    ensures StageFor(WithStage(stages, s), key) == if key == s.key then s else StageFor(stages, key)
    ensures UniqueStages(WithStage(stages, s))
  {
    WithStageIsUnique(stages, s);
    var with := WithStage(stages, s);
    LatestIs(stages, s.key);
    LatestIs(stages, key);
    LatestIs(with, key);
    var i, k := Latest(stages, s.key), Latest(stages, key);
    if key == s.key {
      LatestUnique(with, if i.Some? then i.value else |stages|);
    } else if k.Some? {
      LatestUnique(with, k.value);
    }
  }

  lemma {:induction false} LatestUnique(stages: seq<Stage>, i: nat)
    requires UniqueStages(stages) && i < |stages|
    ensures Latest(stages, stages[i].key) == Some(i)
  {
    LatestIs(stages, stages[i].key);
  }

  lemma OnStageKeepsKey(s: Stage, c: Change, now: Time)
    requires OnStage(s, c, now).Some?
    ensures OnStage(s, c, now).value.key == s.key
  {
  }

  lemma StageForHasKey(stages: seq<Stage>, key: string)
    ensures StageFor(stages, key).key == key
  {
    LatestIs(stages, key);
  }

  /** What an accepted event did: its own stage changed as it says, every other one is as it was. */
  lemma AcceptedEvent(t: Trace, e: Event, key: string)
    requires UniqueStages(t.stages) && Reduce(t, e).Some?
    ensures var n := Reduce(t, e).value;
            && UniqueStages(n.stages) && n.eventSeq > t.eventSeq
            && (Acts(e) ==> Resolve(e.stageName).Some?)
            && (Acts(e) && Resolve(e.stageName) == Some(key) ==>
                  OnStage(StageFor(t.stages, key), e.change, e.at) == Some(StageFor(n.stages, key)))
            && (!(Acts(e) && Resolve(e.stageName) == Some(key)) ==> StageFor(n.stages, key) == StageFor(t.stages, key))
  {
    if Acts(e) {
      var own := Resolve(e.stageName).value;
      var s := OnStage(StageFor(t.stages, own), e.change, e.at);
      OnStageKeepsKey(StageFor(t.stages, own), e.change, e.at);
      StageForHasKey(t.stages, own);
      StageForWith(t.stages, s.value, key);
    }
  }

  /** An empty delta only advances the counter. */
  predicate Acts(e: Event) {
    !(e.change.TextDelta? && e.change.delta == "")
  }

  lemma OnStageKeepsUnique(s: Stage, c: Change, now: Time)
    requires UniqueSteps(s.steps) && OnStage(s, c, now).Some?
    ensures UniqueSteps(OnStage(s, c, now).value.steps)
  {
    match c
    case Enter =>
    case Complete(_) => ClosingKeepsUnique(s.steps, Done, now);
    case Skip(_) => ClosingKeepsUnique(s.steps, Blocked, now);
    case Degrade(_) => ClosingKeepsUnique(s.steps, Broken, now);
    case Fail(_) => ClosingKeepsUnique(s.steps, Broken, now);
    case StartTool(callId, tool, _, _, _) =>
      var step := StartedStep(FindStep(s.steps, ToolStepId(callId, tool)), c, now);
      ToolStepKeepsUnique(s.steps, callId, tool, step);
    case FinishTool(callId, tool, status, _, _, _, _) =>
      var step := FinishedStep(FindStep(s.steps, ToolStepId(callId, tool)), c, ToolStatus(status).value, now);
      ToolStepKeepsUnique(s.steps, callId, tool, step);
    case TextDelta(stepId, _, _) =>
      TextStepKeepsUnique(s.steps, c, now);
  }

  lemma ClosingKeepsUnique(steps: seq<Step>, status: StepStatus, now: Time)
    requires UniqueSteps(steps)
    ensures UniqueSteps(CloseRunning(steps, status, now))
  {
    ClosedEach(steps, status, now);
  }

  lemma TextStepKeepsUnique(steps: seq<Step>, c: Change, now: Time)
    requires UniqueSteps(steps) && c.TextDelta? && (FindStep(steps, c.stepId).Some? || c.stepId != "")
    ensures UniqueSteps(Upsert(steps, TextStep(FindStep(steps, c.stepId), c, now)))
  {
    FindAt(steps, c.stepId);
    UpsertKeepsUnique(steps, TextStep(FindStep(steps, c.stepId), c, now));
  }

  lemma ToolStepKeepsUnique(steps: seq<Step>, callId: string, tool: string, step: Step)
    requires UniqueSteps(steps)
    requires var found := FindStep(steps, ToolStepId(callId, tool));
             step.id == if found.Some? then found.value.id else ToolStepId(callId, tool)
    ensures UniqueSteps(MoveResult(Upsert(steps, step)))
    ensures step.id == ToolStepId(callId, tool)
  {
    FindAt(steps, ToolStepId(callId, tool));
    UpsertKeepsUnique(steps, step);
    MovedIsUnique(Upsert(steps, step));
  }

  /** What every trace keeps: no stage key twice, no step id twice in a stage, and the current stage is one of them. */
  lemma ShapeKept(t: Trace, e: Event)
    requires Shaped(t) && Reduce(t, e).Some?
    ensures Shaped(Reduce(t, e).value) && Reduce(t, e).value.eventSeq > t.eventSeq
  {
    var n := Reduce(t, e).value;
    if Acts(e) {
      var key := Resolve(e.stageName).value;
      var s := StageFor(t.stages, key);
      StageForHasKey(t.stages, key);
      LatestIs(t.stages, key);
      OnStageKeepsKey(s, e.change, e.at);
      OnStageKeepsUnique(s, e.change, e.at);
      StageForWith(t.stages, OnStage(s, e.change, e.at).value, key);
      CurrentKept(t, e);
    }
  }

  lemma CurrentKept(t: Trace, e: Event)
    requires Shaped(t) && Reduce(t, e).Some? && Acts(e)
    ensures var n := Reduce(t, e).value;
            n.current.Some? ==> exists i :: 0 <= i < |n.stages| && StageId(n.stages[i].key) == n.current.value
  {
    var n, key := Reduce(t, e).value, Resolve(e.stageName).value;
    StageForHasKey(t.stages, key);
    OnStageKeepsKey(StageFor(t.stages, key), e.change, e.at);
    LatestIs(t.stages, key);
    var at := if Latest(t.stages, key).Some? then Latest(t.stages, key).value else |t.stages|;
    assert n.stages[at].key == key;
    if n.current.Some? && n.current != Some(StageId(key)) {
      assert n.current == t.current;
      var i :| 0 <= i < |t.stages| && StageId(t.stages[i].key) == t.current.value;
      assert n.stages[i].key == t.stages[i].key;
    }
  }

  lemma {:induction false} ShapedAlways(now: Time, events: seq<Event>)
    requires ReduceAll(EmptyTrace(now), events).Some?
    ensures Shaped(ReduceAll(EmptyTrace(now), events).value)
    ensures ReduceAll(EmptyTrace(now), events).value.eventSeq >= |events|
  {
    if events != [] {
      ShapedAlways(now, events[..|events| - 1]);
      ShapeKept(ReduceAll(EmptyTrace(now), events[..|events| - 1]).value, events[|events| - 1]);
    }
  }

  // ---------------------------------------------------------------- streamed text

  /** The step a tool event writes. */
  function TouchedStep(steps: seq<Step>, c: Change, now: Time): Step
    requires c.StartTool? || (c.FinishTool? && ToolStatus(c.status).Some?)
  {
    var found := FindStep(steps, ToolStepId(c.callId, c.tool));
    if c.StartTool? then StartedStep(found, c, now) else FinishedStep(found, c, ToolStatus(c.status).value, now)
  }

  lemma OnStageTouches(s: Stage, c: Change, now: Time)
    requires (c.StartTool? || c.FinishTool?) && OnStage(s, c, now).Some?
    ensures c.FinishTool? ==> ToolStatus(c.status).Some?
    ensures OnStage(s, c, now).value.steps == MoveResult(Upsert(s.steps, TouchedStep(s.steps, c, now)))
  {
  }

  function ContentOf(steps: seq<Step>, id: string): string {
    var s := FindStep(steps, id);
    if s.Some? && s.value.content.Some? then s.value.content.value else ""
  }

  function ContentAt(t: Trace, key: string, id: string): string {
    ContentOf(StageFor(t.stages, key).steps, id)
  }

  /** What an event adds to the text of a step. */
  function DeltaFor(e: Event, key: string, id: string): string {
    if e.change.TextDelta? && e.change.stepId == id && Resolve(e.stageName) == Some(key) then e.change.delta else ""
  }

  /** All the text the events addressed to a step, in order. */
  function Addressed(events: seq<Event>, key: string, id: string): string {
    if events == [] then "" else Addressed(events[..|events| - 1], key, id) + DeltaFor(events[|events| - 1], key, id)
  }

  lemma {:induction false} ClosingKeepsContent(steps: seq<Step>, status: StepStatus, now: Time, id: string)
    ensures ContentOf(CloseRunning(steps, status, now), id) == ContentOf(steps, id)
  {
    var c := CloseRunning(steps, status, now);
    ClosedEach(steps, status, now);
    FindAt(steps, id);
    FindAt(c, id);
    var i, j := IndexOf(steps, id), IndexOf(c, id);
    if i < |steps| {
      assert c[i].id == id;
    }
    if j < |steps| {
      assert steps[j].id == id;
    }
  }

  lemma ToolStepKeepsContent(steps: seq<Step>, c: Change, now: Time, id: string)
    requires UniqueSteps(steps) && (c.StartTool? || (c.FinishTool? && ToolStatus(c.status).Some?))
    ensures ContentOf(MoveResult(Upsert(steps, TouchedStep(steps, c, now))), id) == ContentOf(steps, id)
  {
    var step := TouchedStep(steps, c, now);
    FindAt(steps, ToolStepId(c.callId, c.tool));
    UpsertKeepsUnique(steps, step);
    FindMoved(Upsert(steps, step), id);
    FindUpserted(steps, step, id);
  }

  /** On its own stage an event only ever appends its delta to the text of the step it names. */
  lemma OnStageAppends(s: Stage, c: Change, now: Time, id: string)
    requires UniqueSteps(s.steps) && OnStage(s, c, now).Some?
    ensures ContentOf(OnStage(s, c, now).value.steps, id)
         == ContentOf(s.steps, id) + if c.TextDelta? && c.stepId == id then c.delta else ""
  {
    match c
    case Enter =>
    case Complete(_) => ClosingKeepsContent(s.steps, Done, now, id);
    case Skip(_) => ClosingKeepsContent(s.steps, Blocked, now, id);
    case Degrade(_) => ClosingKeepsContent(s.steps, Broken, now, id);
    case Fail(_) => ClosingKeepsContent(s.steps, Broken, now, id);
    case StartTool(_, _, _, _, _) =>
      OnStageTouches(s, c, now);
      ToolStepKeepsContent(s.steps, c, now, id);
    case FinishTool(_, _, _, _, _, _, _) =>
      OnStageTouches(s, c, now);
      ToolStepKeepsContent(s.steps, c, now, id);
    case TextDelta(stepId, _, _) => TextStepAppends(s.steps, c, now, id);
  }

  lemma TextStepAppends(steps: seq<Step>, c: Change, now: Time, id: string)
    requires c.TextDelta?
    ensures ContentOf(Upsert(steps, TextStep(FindStep(steps, c.stepId), c, now)), id)
         == ContentOf(steps, id) + if c.stepId == id then c.delta else ""
  {
    FindAt(steps, c.stepId);
    FindUpserted(steps, TextStep(FindStep(steps, c.stepId), c, now), id);
  }

  lemma StepAppends(t: Trace, e: Event, key: string, id: string)
    requires Shaped(t) && Reduce(t, e).Some?
    ensures ContentAt(Reduce(t, e).value, key, id) == ContentAt(t, key, id) + DeltaFor(e, key, id)
  {
    AcceptedEvent(t, e, key);
    LatestIs(t.stages, key);
    if Acts(e) && Resolve(e.stageName) == Some(key) {
      OnStageAppends(StageFor(t.stages, key), e.change, e.at, id);
    }
  }

  /**
   * Streaming: after any accepted events, the text of every step is exactly the deltas addressed to it, in order,
   * however tool calls, stage changes and the moving of the result step came in between.
   */
  lemma {:induction false} TextIsWhatWasStreamed(now: Time, events: seq<Event>, key: string, id: string)
    requires ReduceAll(EmptyTrace(now), events).Some?
    ensures ContentAt(ReduceAll(EmptyTrace(now), events).value, key, id) == Addressed(events, key, id)
  {
    if events != [] {
      var front := events[..|events| - 1];
      TextIsWhatWasStreamed(now, front, key, id);
      ShapedAlways(now, front);
      StepAppends(ReduceAll(EmptyTrace(now), front).value, events[|events| - 1], key, id);
    }
  }

  // ---------------------------------------------------------------- settled stages

  predicate Settled(s: Stage) {
    !s.status.Pending? && !s.status.Active?
  }

  predicate Quiet(s: Stage) {
    QuietSteps(s.steps)
  }

  predicate Closes(c: Change) {
    c.Complete? || c.Skip? || c.Degrade? || c.Fail?
  }

  /** A stage that was settled stays settled, whatever is accepted later. */
  lemma {:induction false} SettledForGood(t: Trace, events: seq<Event>, key: string)
    requires Shaped(t) && Settled(StageFor(t.stages, key)) && ReduceAll(t, events).Some?
    ensures Settled(StageFor(ReduceAll(t, events).value.stages, key)) && Shaped(ReduceAll(t, events).value)
  {
    if events != [] {
      var before := ReduceAll(t, events[..|events| - 1]).value;
      SettledForGood(t, events[..|events| - 1], key);
      SettledStep(before, events[|events| - 1], key);
      ShapeKept(before, events[|events| - 1]);
    }
  }

  lemma SettledStep(t: Trace, e: Event, key: string)
    requires Shaped(t) && Settled(StageFor(t.stages, key)) && Reduce(t, e).Some?
    ensures Settled(StageFor(Reduce(t, e).value.stages, key))
  {
    AcceptedEvent(t, e, key);
    if Acts(e) && Resolve(e.stageName) == Some(key) {
      OnStageSettled(StageFor(t.stages, key), e.change, e.at);
    }
  }

  lemma OnStageSettled(s: Stage, c: Change, now: Time)
    requires Settled(s) && OnStage(s, c, now).Some?
    ensures Settled(OnStage(s, c, now).value)
  {
  }

  /** Closing a stage settles it and leaves no step running. */
  lemma ClosingIsQuiet(t: Trace, e: Event, key: string)
    requires Shaped(t) && Reduce(t, e).Some? && Resolve(e.stageName) == Some(key) && Closes(e.change)
    ensures Settled(StageFor(Reduce(t, e).value.stages, key)) && Quiet(StageFor(Reduce(t, e).value.stages, key))
  {
    AcceptedEvent(t, e, key);
    var s := StageFor(t.stages, key);
    ClosingQuiets(s.steps, Done, e.at);
    ClosingQuiets(s.steps, Blocked, e.at);
    ClosingQuiets(s.steps, Broken, e.at);
  }

  /** Text for a stage arrives. */
  predicate Streams(e: Event, key: string) {
    Acts(e) && e.change.TextDelta? && Resolve(e.stageName) == Some(key)
  }

  /** Only a late text delta sets a step of a settled stage running again, and it always does. */
  lemma OnlyTextReopens(t: Trace, e: Event, key: string)
    requires Shaped(t) && Reduce(t, e).Some?
    requires Settled(StageFor(t.stages, key)) && Quiet(StageFor(t.stages, key))
    ensures Quiet(StageFor(Reduce(t, e).value.stages, key)) <==> !Streams(e, key)
  {
    AcceptedEvent(t, e, key);
    if Acts(e) && Resolve(e.stageName) == Some(key) {
      OnStageQuiet(StageFor(t.stages, key), e.change, e.at);
    }
  }

  predicate QuietSteps(steps: seq<Step>) {
    forall i :: 0 <= i < |steps| ==> !steps[i].status.Running?
  }

  lemma ClosingQuiets(steps: seq<Step>, status: StepStatus, now: Time)
    requires !status.Running?
    ensures QuietSteps(CloseRunning(steps, status, now))
  {
    ClosedEach(steps, status, now);
  }

  lemma UpsertQuiet(steps: seq<Step>, s: Step)
    requires QuietSteps(steps)
    ensures QuietSteps(Upsert(steps, s)) <==> !s.status.Running?
  {
    UpsertAt(steps, s);
    var i := IndexOf(steps, s.id);
    assert Upsert(steps, s)[i] == s;
  }

  lemma MovedQuiet(steps: seq<Step>)
    requires QuietSteps(steps)
    ensures QuietSteps(MoveResult(steps))
  {
  }

  lemma OnStageQuiet(s: Stage, c: Change, now: Time)
    requires Settled(s) && QuietSteps(s.steps) && OnStage(s, c, now).Some?
    ensures QuietSteps(OnStage(s, c, now).value.steps) <==> !c.TextDelta?
  {
    match c
    case Enter =>
    case StartTool(_, _, _, _, _) =>
    case Complete(_) => ClosingQuiets(s.steps, Done, now);
    case Skip(_) => ClosingQuiets(s.steps, Blocked, now);
    case Degrade(_) => ClosingQuiets(s.steps, Broken, now);
    case Fail(_) => ClosingQuiets(s.steps, Broken, now);
    case FinishTool(callId, tool, status, _, _, _, _) =>
      var step := FinishedStep(FindStep(s.steps, ToolStepId(callId, tool)), c, ToolStatus(status).value, now);
      UpsertQuiet(s.steps, step);
      MovedQuiet(Upsert(s.steps, step));
    case TextDelta(stepId, _, _) =>
      UpsertQuiet(s.steps, TextStep(FindStep(s.steps, stepId), c, now));
  }

  /** The result step is last, and apart from it one step was put in its place or at the end. */
  ghost predicate ResultLast(before: seq<Step>, after: seq<Step>, id: string) {
    && (FindStep(before, RESULT).Some? ==> after != [] && after[|after| - 1].id == RESULT)
    && exists touched: Step :: touched.id == id && Without(after, RESULT) == Without(Upsert(before, touched), RESULT)
  }

  /** A tool event leaves the result step of its stage last and keeps the order of the others. */
  lemma ToolEventsKeepResultLast(t: Trace, e: Event, key: string)
    requires Shaped(t) && Reduce(t, e).Some? && Resolve(e.stageName) == Some(key)
    requires e.change.StartTool? || e.change.FinishTool?
    ensures ResultLast(StageFor(t.stages, key).steps, StageFor(Reduce(t, e).value.stages, key).steps,
                       ToolStepId(e.change.callId, e.change.tool))
  {
    AcceptedEvent(t, e, key);
    var s := StageFor(t.stages, key);
    OnStageTouches(s, e.change, e.at);
    Touches(s.steps, e.change, e.at);
  }

  lemma Touches(steps: seq<Step>, c: Change, now: Time)
    requires c.StartTool? || (c.FinishTool? && ToolStatus(c.status).Some?)
    ensures ResultLast(steps, MoveResult(Upsert(steps, TouchedStep(steps, c, now))), ToolStepId(c.callId, c.tool))
  {
    var touched := TouchedStep(steps, c, now);
    FindAt(steps, ToolStepId(c.callId, c.tool));
    FindUpserted(steps, touched, RESULT);
    ResultGoesLast(Upsert(steps, touched));
    assert touched.id == ToolStepId(c.callId, c.tool);
  }
}
