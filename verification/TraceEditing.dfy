/** The reducer as it works: a private copy of the trace that one event's handler changes step by step. */
module TraceEditing {
  import opened Text
  import opened TraceReducer
  import opened TraceMeaning

  method LatestStageForKey(stages: seq<Stage>, key: string) returns (found: Option<nat>)
    ensures found == Latest(stages, key)
  {
    var i := |stages|;
    assert stages[..i] == stages;
    while i > 0
      invariant 0 <= i <= |stages| && Latest(stages, key) == Latest(stages[..i], key)
    {
      assert stages[..i][..i - 1] == stages[..i - 1];
      i := i - 1;
      if stages[i].key == key {
        return Some(i);
      }
    }
    found := None;
  }

  method FindStepNamed(steps: seq<Step>, id: string) returns (found: Option<Step>)
    ensures found == FindStep(steps, id)
  {
    var i := 0;
    while i < |steps|
      invariant i <= |steps| && FindStep(steps, id) == FindStep(steps[i..], id)
    {
      assert steps[i..][1..] == steps[i + 1..];
      if steps[i].id == id {
        return Some(steps[i]);
      }
      i := i + 1;
    }
    found := None;
  }

  method CloseRunningSteps(steps: seq<Step>, status: StepStatus, now: Time) returns (closed: seq<Step>)
    ensures closed == CloseRunning(steps, status, now)
  {
    closed := steps;
    var i := 0;
    while i < |steps|
      invariant i <= |steps| && |closed| == |steps|
      invariant closed[..i] == CloseRunning(steps[..i], status, now) && closed[i..] == steps[i..]
    {
      assert steps[..i + 1][..i] == steps[..i] && closed[i] == steps[i..][0];
      if closed[i].status.Running? {
        closed := closed[i := closed[i].(status := status, ended := Some(now))];
      }
      assert closed[..i + 1] == closed[..i] + [closed[i]];
      assert closed[i + 1..] == steps[i + 1..];
      i := i + 1;
    }
    assert steps[..i] == steps && closed[..i] == closed;
  }

  method MoveResultToEnd(steps: seq<Step>) returns (moved: seq<Step>)
    ensures moved == MoveResult(steps)
  {
    var i := 0;
    while i < |steps|
      invariant i <= |steps| && (forall j :: 0 <= j < i && j + 1 < |steps| ==> steps[j].id != RESULT)
    {
      if steps[i].id == RESULT && i != |steps| - 1 {
        return steps[..i] + steps[i + 1..] + [steps[i]];
      }
      i := i + 1;
    }
    moved := steps;
  }

  method PutStep(steps: seq<Step>, s: Step) returns (put: seq<Step>)
    ensures put == Upsert(steps, s)
  {
    UpsertAt(steps, s);
    var i := 0;
    while i < |steps|
      invariant i <= |steps| && forall j :: 0 <= j < i ==> steps[j].id != s.id
    {
      if steps[i].id == s.id {
        return steps[i := s];
      }
      i := i + 1;
    }
    put := steps + [s];
  }

  /** The stages when the stage of a key is there, at index i. */
  ghost predicate Ensured(before: seq<Stage>, key: string, stages: seq<Stage>, i: nat) {
    match Latest(before, key)
    case Some(k) => i == k && i < |before| && stages == before
    case None => i == |before| && stages == before + [NewStage(key)]
  }

  lemma EnsuredIs(before: seq<Stage>, key: string, stages: seq<Stage>, i: nat, s: Stage)
    requires Ensured(before, key, stages, i) && s.key == key
    ensures i < |stages| && stages[i] == StageFor(before, key) && stages[i := s] == WithStage(before, s)
  {
    LatestIs(before, key);
  }

  /** What a handler leaves behind is what the model says, or it raised and the copy is thrown away. */
  ghost predicate Handled(s0: seq<Stage>, c0: Option<string>, e: Event, ok: bool, s1: seq<Stage>, c1: Option<string>) {
    var acted := Act(Trace(0, c0, s0, 0), e);
    (ok <==> acted.Some?) && (ok ==> s1 == acted.value.stages && c1 == acted.value.current)
  }

  lemma HandledBy(s0: seq<Stage>, c0: Option<string>, e: Event, key: string, stages: seq<Stage>, i: nat, s: Option<Stage>)
    requires Acts(e) && Resolve(e.stageName) == Some(key) && Ensured(s0, key, stages, i) && i < |stages|
    requires s == OnStage(StageFor(s0, key), e.change, e.at)
    ensures s.None? ==> Handled(s0, c0, e, false, stages, c0)
    ensures s.Some? ==> Handled(s0, c0, e, true, stages[i := s.value], OnCurrent(c0, e.change, StageId(key)))
  {
    if s.Some? {
      StageForHasKey(s0, key);
      OnStageKeepsKey(StageFor(s0, key), e.change, e.at);
      EnsuredIs(s0, key, stages, i, s.value);
    }
  }

  method EnterStage(was: Stage, c: Change, now: Time) returns (r: Option<Stage>)
    requires c.Enter?
    ensures r == OnStage(was, c, now)
  {
    if !was.status.Pending? {
      return None;
    }
    var stage := was;
    if stage.started.None? {
      stage := stage.(started := Some(now));
    }
    r := Some(stage.(status := Active, ended := None));
  }

  /** The four ways to end a stage: what they refuse, whether they date its start, and how its steps end. */
  method CloseStage(was: Stage, c: Change, now: Time) returns (r: Option<Stage>)
    requires Closes(c)
    ensures r == OnStage(was, c, now)
  {
    var stage := was;
    if stage.status.FailedStage? && (c.Complete? || c.Skip?) {
      return None;
    }
    if (c.Skip? || c.Degrade?) && stage.started.None? {
      stage := stage.(started := Some(now));
    }
    var steps;
    match c {
      case Complete(result) =>
        stage := stage.(status := Completed, summary := if result.Some? then result else stage.summary);
        steps := CloseRunningSteps(stage.steps, Done, now);
      case Skip(reason) =>
        stage := stage.(status := Skipped, summary := Some(reason));
        steps := CloseRunningSteps(stage.steps, Blocked, now);
      case Degrade(reason) =>
        stage := stage.(status := Degraded, summary := Some(reason));
        steps := CloseRunningSteps(stage.steps, Broken, now);
      case Fail(result) =>
        stage := stage.(status := FailedStage, summary := if result.Some? then result else stage.summary);
        steps := CloseRunningSteps(stage.steps, Broken, now);
    }
    r := Some(stage.(ended := Some(now), steps := steps));
  }

  /** Work on a pending stage starts it. */
  method WakeWith(was: Stage, steps: seq<Step>, now: Time) returns (stage: Stage)
    ensures stage == Awake(was.(steps := steps), now)
  {
    stage := was.(steps := steps);
    if stage.status.Pending? {
      stage := stage.(status := Active);
      if stage.started.None? {
        stage := stage.(started := Some(now));
      }
    }
  }

  method StartToolOn(was: Stage, c: Change, now: Time) returns (r: Option<Stage>)
    requires c.StartTool?
    ensures r == OnStage(was, c, now)
  {
    if !was.status.Active? && !was.status.Pending? {
      return None;
    }
    var found := FindStepNamed(was.steps, ToolStepId(c.callId, c.tool));
    var steps := PutStep(was.steps, StartedStep(found, c, now));
    steps := MoveResultToEnd(steps);
    var stage := WakeWith(was, steps, now);
    r := Some(stage);
  }

  method FinishToolOn(was: Stage, c: Change, now: Time) returns (r: Option<Stage>)
    requires c.FinishTool?
    ensures r == OnStage(was, c, now)
  {
    var found := FindStepNamed(was.steps, ToolStepId(c.callId, c.tool));
    if c.status !in ["completed", "blocked", "failed", "error", "ok"] {
      return None;
    }
    var status := if c.status in ["completed", "ok"] then Done else if c.status == "blocked" then Blocked else Broken;
    var steps := PutStep(was.steps, FinishedStep(found, c, status, now));
    steps := MoveResultToEnd(steps);
    r := Some(was.(steps := steps));
  }

  method AppendText(was: Stage, c: Change, now: Time) returns (r: Option<Stage>)
    requires c.TextDelta?
    ensures r == OnStage(was, c, now)
  {
    var found := FindStepNamed(was.steps, c.stepId);
    if found.None? && c.stepId == "" {
      return None;
    }
    var steps := PutStep(was.steps, TextStep(found, c, now));
    var stage := WakeWith(was, steps, now);
    r := Some(stage);
  }

  class WorkingTrace {
    var current: Option<string>
    var stages: seq<Stage>

    constructor (t: Trace)
      ensures current == t.current && stages == t.stages
    {
      current, stages := t.current, t.stages;
    }

    method EnsureStage(name: string) returns (found: Option<nat>)
      modifies this`stages
      ensures found.None? <==> Resolve(name).None?
      ensures found.Some? ==> Ensured(old(stages), Resolve(name).value, stages, found.value) && found.value < |stages|
                              && stages[found.value] == StageFor(old(stages), Resolve(name).value)
    {
      var key := Resolve(name);
      if key.None? {
        return None;
      }
      LatestIs(stages, key.value);
      found := LatestStageForKey(stages, key.value);
      if found.None? {
        found := Some(|stages|);
        stages := stages + [NewStage(key.value)];
      }
    }

    /** The handler of an event; false means it raised. */
    method ApplyEvent(e: Event) returns (ok: bool)
      modifies this
      ensures Handled(old(stages), old(current), e, ok, stages, current)
    {
      if e.change.TextDelta? && e.change.delta == "" {
        return true;
      }
      var i := EnsureStage(e.stageName);
      if i.None? {
        return false;
      }
      var key := Resolve(e.stageName).value;
      var changed;
      match e.change {
        case Enter => changed := EnterStage(stages[i.value], e.change, e.at);
        case StartTool(_, _, _, _, _) => changed := StartToolOn(stages[i.value], e.change, e.at);
        case FinishTool(_, _, _, _, _, _, _) => changed := FinishToolOn(stages[i.value], e.change, e.at);
        case TextDelta(_, _, _) => changed := AppendText(stages[i.value], e.change, e.at);
        case _ => changed := CloseStage(stages[i.value], e.change, e.at);
      }
      HandledBy(old(stages), old(current), e, key, stages, i.value, changed);
      if changed.None? {
        return false;
      }
      stages := stages[i.value := changed.value];
      if e.change.Enter? || e.change.StartTool? || e.change.TextDelta? {
        current := Some(StageId(key));
      } else if Closes(e.change) && current == Some(StageId(key)) {
        current := None;
      }
      ok := true;
    }
  }

  lemma ActIgnoresCounters(t: Trace, e: Event)
    ensures var a, b := Act(t, e), Act(Trace(0, t.current, t.stages, 0), e);
            (a.Some? <==> b.Some?)
            && (a.Some? ==> a.value == t.(stages := b.value.stages, current := b.value.current))
  {
  }

  lemma EventMeans(trace: Trace, event: Event)
    ensures UniqueStages(trace.stages) ==>
      && (Reduce(trace, event).None? <==> Refused(trace, event))
      && (Reduce(trace, event).Some? ==> Reduced(trace, event, Reduce(trace, event).value))
  {
    if UniqueStages(trace.stages) {
      RefusingMeans(trace, event);
      if Reduce(trace, event).Some? {
        ReducingMeans(trace, event);
      }
    }
  }

  /** Reducing works on a copy: the trace that was given is a value and stays what it was. */
  method ReduceTrace(trace: Trace, event: Event) returns (next: Option<Trace>)
    ensures next == Reduce(trace, event)
    ensures UniqueStages(trace.stages) ==>
      && (next.None? <==> Refused(trace, event))
      && (next.Some? ==> Reduced(trace, event, next.value))
  {
    next := ReduceCopy(trace, event);
    EventMeans(trace, event);
  }

  method ReduceCopy(trace: Trace, event: Event) returns (next: Option<Trace>)
    ensures next == Reduce(trace, event)
  {
    var copy := new WorkingTrace(trace);
    ActIgnoresCounters(trace, event);
    var ok := copy.ApplyEvent(event);
    if !ok {
      return None;
    }
    if event.seqNo.Some? && event.seqNo.value <= trace.eventSeq {
      return None;
    }
    next := Some(Trace(if event.seqNo.Some? then event.seqNo.value else trace.eventSeq + 1, copy.current, copy.stages,
                       event.at));
  }
}
