/** What each event means for the trace, said without the functions that carry it out. */
module TraceMeaning {
  import opened Text
  import opened TraceReducer

  /** The name is a state's, with or without a suffix after a colon, or the key itself. */
  predicate Names(name: string, key: string) {
    || (key == "run" && (name == "run" || name == "Run" || "Run:" <= name))
    || (key == "summary" && (name == "summary" || name == "Summary" || "Summary:" <= name))
    || (key == "watch" && (name == "watch" || name == "Watch" || "Watch:" <= name))
  }

  /** The stage of this key or, when there is none, a pending one without steps. */
  ghost predicate IsStage(stages: seq<Stage>, key: string, s: Stage) {
    && s.key == key
    && if exists i :: 0 <= i < |stages| && stages[i].key == key then s in stages
       else s.status.Pending? && s.summary == None && s.started == None && s.ended == None && s.steps == []
  }

  /** A time is set once. */
  predicate StartedBy(before: Option<Time>, after: Option<Time>, at: Time) {
    after == if before.Some? then before else Some(at)
  }

  /** Every running step ended in this status at this time; the others are as they were. */
  ghost predicate StepsEnd(before: seq<Step>, after: seq<Step>, status: StepStatus, at: Time) {
    && |after| == |before|
    && forall i :: 0 <= i < |before| ==>
         after[i] == if before[i].status.Running? then before[i].(status := status, ended := Some(at)) else before[i]
  }

  /** All steps but those of this id are as they were. */
  ghost predicate OthersKept(before: seq<Step>, after: seq<Step>, id: string) {
    forall s: Step :: s.id != id ==> (s in before <==> s in after)
  }

  /** The step takes the place of the one with its id, or comes at the end. */
  ghost predicate Placed(before: seq<Step>, after: seq<Step>, s: Step) {
    || (after == before + [s] && forall x: Step :: x in before ==> x.id != s.id)
    || exists i :: 0 <= i < |before| && before[i].id == s.id && after == before[i := s]
  }

  /** The result's step, if there is one, is moved behind the others, which keep their order. */
  ghost predicate ResultBehind(before: seq<Step>, after: seq<Step>) {
    if exists x: Step :: x in before && x.id == "result" then
      exists front, x: Step, back :: x.id == "result" && before == front + [x] + back && after == front + back + [x]
    else after == before
  }

  /** The step with this id, if there is one: the first of them. */
  ghost predicate IsStep(steps: seq<Step>, id: string, s: Option<Step>) {
    if s.Some? then
      exists i :: 0 <= i < |steps| && steps[i] == s.value && s.value.id == id
                  && forall j :: 0 <= j < i ==> steps[j].id != id
    else forall i :: 0 <= i < |steps| ==> steps[i].id != id
  }

  predicate TitledBy(title: Option<string>, tool: string, before: Option<Step>, after: string) {
    if title.Some? && title.value != "" then after == title.value
    else if before.Some? then after == before.value.title
    else after == if tool != "" then tool else "tool"
  }

  /** What a started tool's step says. */
  predicate ToolStarted(before: Option<Step>, s: Step, c: Change, at: Time)
    requires c.StartTool?
  {
    && s.status.Running? && s.summary == c.summary
    && s.data == Some(ToolData(c.callId, c.tool, c.arguments, None))
    && TitledBy(c.title, c.tool, before, s.title)
    && StartedBy(if before.Some? then before.value.started else None, s.started, at)
    && s.content == (if before.Some? then before.value.content else None)
    && s.ended == (if before.Some? then before.value.ended else None)
    && s.kind == (if before.Some? then before.value.kind else ToolStep)
  }

  predicate MeansStatus(word: string, status: StepStatus) {
    || (word in ["completed", "ok"] && status.Done?)
    || (word == "blocked" && status.Blocked?)
    || (word in ["failed", "error"] && status.Broken?)
  }

  /** What a finished tool's step says. */
  predicate ToolFinished(before: Option<Step>, s: Step, c: Change, at: Time)
    requires c.FinishTool?
  {
    && MeansStatus(c.status, s.status) && s.summary == c.summary
    && s.data == Some(ToolData(c.callId, c.tool, c.arguments, c.error))
    && TitledBy(c.title, c.tool, before, s.title)
    && StartedBy(if before.Some? then before.value.started else None, s.started, at)
    && s.content == (if before.Some? then before.value.content else None)
    && s.ended == Some(at)
    && s.kind == (if before.Some? then before.value.kind else ToolStep)
  }

  /** What a step says after one more piece of text. */
  predicate TextGrew(before: Option<Step>, s: Step, c: Change, at: Time)
    requires c.TextDelta?
  {
    && s.status.Running?
    && s.content
       == Some((if before.Some? && before.value.content.Some? then before.value.content.value else "") + c.delta)
    && StartedBy(if before.Some? then before.value.started else None, s.started, at)
    && if before.Some? then
         && s.kind == before.value.kind && s.title == before.value.title && s.summary == before.value.summary
         && s.data == before.value.data && s.ended == before.value.ended
       else
         && s.kind == (if c.channel == "thinking" then ThinkingStep else ResultStep)
         && s.title == (if c.channel == "thinking" then "thinking" else "result")
         && s.summary == None && s.data == None && s.ended == None
  }

  /** The id of a tool's step: its call's, or its name's when the call has none. */
  predicate IsToolId(id: string, callId: string, tool: string) {
    id == if callId != "" then "tool:" + callId else "tool:" + tool
  }

  /** Work on a pending stage starts it. */
  predicate Wakes(b: Stage, a: Stage, at: Time) {
    && a.summary == b.summary && a.ended == b.ended
    && if b.status.Pending? then a.status.Active? && StartedBy(b.started, a.started, at)
       else a.status == b.status && a.started == b.started
  }

  /** One step of the stage was worked on, the others are as they were. */
  ghost predicate Worked(b: Stage, a: Stage, id: string, before: Option<Step>, s: Step) {
    && s.id == id && IsStep(b.steps, id, before) && s in a.steps && OthersKept(b.steps, a.steps, id)
    && Placed(b.steps, a.steps, s)
  }

  /** A tool's step was worked on, and then the result's step moved behind the others. */
  ghost predicate ToolWorked(b: Stage, a: Stage, id: string, before: Option<Step>, s: Step) {
    && s.id == id && IsStep(b.steps, id, before) && s in a.steps && OthersKept(b.steps, a.steps, id)
    && exists placed :: Placed(b.steps, placed, s) && ResultBehind(placed, a.steps)
  }

  /** What the event made of its stage. */
  ghost predicate MadeOf(b: Stage, a: Stage, c: Change, at: Time) {
    match c
    case Enter =>
      && b.status.Pending? && a.status.Active? && a.ended == None && a.summary == b.summary && a.steps == b.steps
      && StartedBy(b.started, a.started, at)
    case Complete(result) =>
      && !b.status.FailedStage? && a.status.Completed? && a.started == b.started && a.ended == Some(at)
      && a.summary == (if result.Some? then result else b.summary) && StepsEnd(b.steps, a.steps, Done, at)
    case Skip(reason) =>
      && !b.status.FailedStage? && a.status.Skipped? && StartedBy(b.started, a.started, at) && a.ended == Some(at)
      && a.summary == Some(reason) && StepsEnd(b.steps, a.steps, Blocked, at)
    case Degrade(reason) =>
      && a.status.Degraded? && StartedBy(b.started, a.started, at) && a.ended == Some(at)
      && a.summary == Some(reason) && StepsEnd(b.steps, a.steps, Broken, at)
    case Fail(result) =>
      && a.status.FailedStage? && a.started == b.started && a.ended == Some(at)
      && a.summary == (if result.Some? then result else b.summary) && StepsEnd(b.steps, a.steps, Broken, at)
    case StartTool(callId, tool, _, _, _) =>
      && (b.status.Active? || b.status.Pending?) && Wakes(b, a, at)
      && exists id, before, s ::
           IsToolId(id, callId, tool) && ToolWorked(b, a, id, before, s) && ToolStarted(before, s, c, at)
    case FinishTool(callId, tool, _, _, _, _, _) =>
      && a.status == b.status && a.started == b.started && a.ended == b.ended && a.summary == b.summary
      && exists id, before, s ::
           IsToolId(id, callId, tool) && ToolWorked(b, a, id, before, s) && ToolFinished(before, s, c, at)
    case TextDelta(stepId, _, _) =>
      && Wakes(b, a, at)
      && exists before, s :: Worked(b, a, stepId, before, s) && TextGrew(before, s, c, at)
  }

  /** Which stage is current afterwards: the one worked on, none when it ended, else the one before. */
  predicate CurrentIs(before: Option<string>, after: Option<string>, c: Change, key: string) {
    var id := key + ":na";
    match c
    case FinishTool(_, _, _, _, _, _, _) => after == before
    case Enter => after == Some(id)
    case StartTool(_, _, _, _, _) => after == Some(id)
    case TextDelta(_, _, _) => after == Some(id)
    case _ => after == if before == Some(id) then None else before
  }

  /** What an accepted event made of the trace. */
  ghost predicate Reduced(t: Trace, e: Event, n: Trace) {
    && n.updated == e.at
    && n.eventSeq == (if e.seqNo.Some? then e.seqNo.value else t.eventSeq + 1)
    && if e.change.TextDelta? && e.change.delta == "" then n.stages == t.stages && n.current == t.current
       else exists key, b, a :: Names(e.stageName, key) && MadeOn(t, e, n, key, b, a)
  }

  /** It changed this stage as it says and no other. */
  ghost predicate MadeOn(t: Trace, e: Event, n: Trace, key: string, b: Stage, a: Stage) {
    && IsStage(t.stages, key, b) && a.key == key && a in n.stages && MadeOf(b, a, e.change, e.at)
    && (forall s: Stage :: s.key != key ==> (s in t.stages <==> s in n.stages))
    && CurrentIs(t.current, n.current, e.change, key)
  }

  /** The stage cannot take the event. */
  ghost predicate Unfit(b: Stage, c: Change) {
    match c
    case Enter => !b.status.Pending?
    case Complete(_) => b.status.FailedStage?
    case Skip(_) => b.status.FailedStage?
    case StartTool(_, _, _, _, _) => !b.status.Active? && !b.status.Pending?
    case FinishTool(_, _, status, _, _, _, _) => status !in ["completed", "ok", "blocked", "failed", "error"]
    case TextDelta(stepId, _, _) => stepId == "" && forall s: Step :: s in b.steps ==> s.id != ""
    case _ => false
  }

  /** Why an event is refused: its number does not advance, it names no stage, or its stage cannot take it. */
  ghost predicate Refused(t: Trace, e: Event) {
    || (e.seqNo.Some? && e.seqNo.value <= t.eventSeq)
    || (!(e.change.TextDelta? && e.change.delta == "")
        && ((forall key :: !Names(e.stageName, key))
            || exists key, b :: Names(e.stageName, key) && IsStage(t.stages, key, b) && Unfit(b, e.change)))
  }

  // ---------------------------------------------------------------- that is what the reducer does

  lemma {:induction false} BeforeColonIs(name: string, base: string)
    requires ':' !in base
    ensures BeforeColon(name) == base <==> name == base || base + ":" <= name
  {
    if name != "" && name[0] != ':' && base != "" && name[0] == base[0] {
      BeforeColonIs(name[1..], base[1..]);
      assert name == [name[0]] + name[1..] && base == [base[0]] + base[1..];
      assert (base + ":")[1..] == base[1..] + ":";
      if base + ":" <= name {
        assert base[1..] + ":" <= name[1..];
      }
    } else if name != "" && name[0] == ':' && base != "" {
      assert name[0] != base[0];
    }
  }

  lemma ResolveNames(name: string)
    ensures Resolve(name).Some? ==> Names(name, Resolve(name).value)
    ensures forall key :: Names(name, key) ==> Resolve(name) == Some(key)
  {
    BeforeColonIs(name, "Run");
    BeforeColonIs(name, "Summary");
    BeforeColonIs(name, "Watch");
    assert "Run" + ":" == "Run:" && "Summary" + ":" == "Summary:" && "Watch" + ":" == "Watch:";
  }

  lemma StageForIs(stages: seq<Stage>, key: string)
    ensures IsStage(stages, key, StageFor(stages, key))
  {
    LatestIs(stages, key);
  }

  lemma {:induction false} FoundIs(steps: seq<Step>, id: string)
    ensures IsStep(steps, id, FindStep(steps, id))
  {
    FindAt(steps, id);
  }

  lemma ClosingEnds(steps: seq<Step>, status: StepStatus, at: Time)
    ensures StepsEnd(steps, CloseRunning(steps, status, at), status, at)
  {
    ClosedEach(steps, status, at);
  }

  lemma UpsertKeepsOthers(steps: seq<Step>, s: Step)
    ensures s in Upsert(steps, s) && OthersKept(steps, Upsert(steps, s), s.id)
  {
    UpsertAt(steps, s);
    var i, after := IndexOf(steps, s.id), Upsert(steps, s);
    assert after[i] == s;
    forall x: Step | x.id != s.id ensures x in steps <==> x in after {
      if x in steps {
        var k :| 0 <= k < |steps| && steps[k] == x;
        assert after[k] == x;
      }
    }
  }

  lemma MovingKeepsAll(steps: seq<Step>)
    ensures forall x: Step :: x in steps <==> x in MoveResult(steps)
  {
    var i := IndexOf(steps, RESULT);
    if i + 1 < |steps| {
      assert steps == steps[..i] + [steps[i]] + steps[i + 1..];
    }
  }

  lemma UpsertPlaces(steps: seq<Step>, s: Step)
    ensures Placed(steps, Upsert(steps, s), s)
  {
    UpsertAt(steps, s);
  }

  lemma MovesBehind(steps: seq<Step>)
    ensures ResultBehind(steps, MoveResult(steps))
  {
    var i := IndexOf(steps, RESULT);
    if i < |steps| {
      assert steps == steps[..i] + [steps[i]] + steps[i + 1..];
      assert MoveResult(steps) == steps[..i] + steps[i + 1..] + [steps[i]];
    }
  }

  lemma WorkedOn(b: Stage, s: Step, a: Stage)
    ensures a.steps == Upsert(b.steps, s) ==> Worked(b, a, s.id, FindStep(b.steps, s.id), s)
    ensures a.steps == MoveResult(Upsert(b.steps, s)) ==> ToolWorked(b, a, s.id, FindStep(b.steps, s.id), s)
  {
    FoundIs(b.steps, s.id);
    UpsertPlaces(b.steps, s);
    UpsertKeepsOthers(b.steps, s);
    MovingKeepsAll(Upsert(b.steps, s));
    MovesBehind(Upsert(b.steps, s));
  }

  lemma StartMakes(b: Stage, c: Change, at: Time)
    requires c.StartTool? && OnStage(b, c, at).Some?
    ensures MadeOf(b, OnStage(b, c, at).value, c, at)
  {
    var a, id := OnStage(b, c, at).value, ToolStepId(c.callId, c.tool);
    var before := FindStep(b.steps, id);
    var s := StartedStep(before, c, at);
    FindAt(b.steps, id);
    WorkedOn(b, s, a);
    assert IsToolId(id, c.callId, c.tool) && ToolWorked(b, a, id, before, s) && ToolStarted(before, s, c, at);
  }

  lemma FinishMakes(b: Stage, c: Change, at: Time)
    requires c.FinishTool? && OnStage(b, c, at).Some?
    ensures MadeOf(b, OnStage(b, c, at).value, c, at)
  {
    var a, id := OnStage(b, c, at).value, ToolStepId(c.callId, c.tool);
    var before := FindStep(b.steps, id);
    var s := FinishedStep(before, c, ToolStatus(c.status).value, at);
    FindAt(b.steps, id);
    WorkedOn(b, s, a);
    assert IsToolId(id, c.callId, c.tool) && ToolWorked(b, a, id, before, s) && ToolFinished(before, s, c, at);
  }

  lemma TextMakes(b: Stage, c: Change, at: Time)
    requires c.TextDelta? && OnStage(b, c, at).Some?
    ensures MadeOf(b, OnStage(b, c, at).value, c, at)
  {
    var before := FindStep(b.steps, c.stepId);
    FindAt(b.steps, c.stepId);
    var a, s := OnStage(b, c, at).value, TextStep(before, c, at);
    WorkedOn(b, s, a);
    assert Worked(b, a, c.stepId, before, s) && TextGrew(before, s, c, at);
  }

  lemma EventMakes(b: Stage, c: Change, at: Time)
    requires OnStage(b, c, at).Some?
    ensures MadeOf(b, OnStage(b, c, at).value, c, at)
  {
    ClosingEnds(b.steps, Done, at);
    ClosingEnds(b.steps, Blocked, at);
    ClosingEnds(b.steps, Broken, at);
    match c
    case StartTool(_, _, _, _, _) => StartMakes(b, c, at);
    case FinishTool(_, _, _, _, _, _, _) => FinishMakes(b, c, at);
    case TextDelta(_, _, _) => TextMakes(b, c, at);
    case _ =>
  }

  lemma StageTakes(b: Stage, c: Change, at: Time)
    ensures OnStage(b, c, at).None? <==> Unfit(b, c)
  {
    if c.TextDelta? {
      FindAt(b.steps, c.stepId);
    }
  }

  lemma OthersStay(stages: seq<Stage>, s: Stage)
    requires UniqueStages(stages)
    ensures s in WithStage(stages, s)
    ensures forall x: Stage :: x.key != s.key ==> (x in stages <==> x in WithStage(stages, s))
  {
    LatestIs(stages, s.key);
    var i, after := Latest(stages, s.key), WithStage(stages, s);
    assert after[if i.Some? then i.value else |stages|] == s;
    forall x: Stage | x.key != s.key ensures x in stages <==> x in after {
      if x in stages {
        var k :| 0 <= k < |stages| && stages[k] == x;
        assert after[k] == x;
      }
    }
  }

  /** An accepted event means what it says. */
  lemma ReducingMeans(t: Trace, e: Event)
    requires UniqueStages(t.stages) && Reduce(t, e).Some?
    ensures Reduced(t, e, Reduce(t, e).value)
  {
    if Acts(e) {
      var key := Resolve(e.stageName).value;
      var b := StageFor(t.stages, key);
      var a := OnStage(b, e.change, e.at).value;
      ResolveNames(e.stageName);
      StageForIs(t.stages, key);
      EventMakes(b, e.change, e.at);
      OnStageKeepsKey(b, e.change, e.at);
      OthersStay(t.stages, a);
      assert MadeOn(t, e, Reduce(t, e).value, key, b, a);
    }
  }

  lemma OneStage(stages: seq<Stage>, key: string, a: Stage, b: Stage)
    requires UniqueStages(stages) && IsStage(stages, key, a) && IsStage(stages, key, b)
    ensures a == b
  {
  }

  /** An event is refused for one of these reasons, and for no other. */
  lemma RefusingMeans(t: Trace, e: Event)
    requires UniqueStages(t.stages)
    ensures Reduce(t, e).None? <==> Refused(t, e)
  {
    ResolveNames(e.stageName);
    if Acts(e) && Resolve(e.stageName).Some? {
      var key := Resolve(e.stageName).value;
      StageForIs(t.stages, key);
      StageTakes(StageFor(t.stages, key), e.change, e.at);
      forall b | IsStage(t.stages, key, b) ensures b == StageFor(t.stages, key) {
        OneStage(t.stages, key, b, StageFor(t.stages, key));
      }
    }
  }
}
