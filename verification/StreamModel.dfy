/**
 * The bounded event stream between one model call and whoever reads it, as an interleaving of the atomic stretches of
 * its producer, its consumer, whoever closes it, and the finalizer that runs when the producer is gone.
 */
module StreamModel {
  import opened Text

  datatype StopReason = Stopped | Aborted | Errored

  datatype Final = Final(stopReason: StopReason, error: string)

  datatype Event = Progress(text: string) | Completed(message: Final) | Failed(message: Final)

  predicate Terminal(e: Event) {
    !e.Progress?
  }

  /** How the producer ended. */
  datatype Outcome = Returned | Raised(error: string, kind: string) | Cancelled

  /** The producer: between awaits, waiting for room in the queue, or over. */
  datatype Emitter = Idle | Putting(event: Event) | Done(outcome: Outcome)

  /** What is scheduled to run after the producer ended. */
  datatype Finalizer = NoFinalizer | Callback | Task

  /** The iteration: not started or over, waiting for an event, or suspended at the event it handed out. */
  datatype Consumer = Absent | Waiting | Holding(event: Event)

  /** What an observer writes down: events put, taken and thrown away, and where among the taken ones that happened. */
  datatype Notes = Notes(accepted: seq<Event>, taken: seq<Event>, dropped: seq<Event>, cut: nat, abandoned: bool)

  datatype Stream = Stream(
    max: nat,
    queue: seq<Event>,
    result: Option<Final>,
    closed: bool,
    attached: bool,
    emitter: Emitter,
    finalizer: Finalizer,
    consumer: Consumer,
    terminalConsumed: bool,
    notes: Notes)

  // The wording of the three failures the stream makes up itself is left open.
  const CLOSED_BEFORE_COMPLETION: string
  const PRODUCER_WAS_CANCELLED: string
  const ENDED_WITHOUT_TERMINAL_EVENT: string

  function ClosedEarly(): Final {
    Final(Aborted, CLOSED_BEFORE_COMPLETION)
  }

  function FinalOf(outcome: Outcome): Final {
    match outcome
    case Cancelled => Final(Aborted, PRODUCER_WAS_CANCELLED)
    case Raised(error, kind) => Final(Errored, if error == "" then kind else error)
    case Returned => Final(Errored, ENDED_WITHOUT_TERMINAL_EVENT)
  }

  // ---------------------------------------------------------------- the atomic stretches

  datatype Step =
    | Attach
    | Emit(event: Event)
    | ResumePut
    | Interrupt
    | Finish(outcome: Outcome)
    | RunCallback
    | RunFinalizer
    | Close
    | Open
    | Take
    | Continue
    | Leave

  /** What putting a terminal event settles. */
  function Complete(s: Stream, e: Event): Stream {
    if Terminal(e) then s.(closed := true, result := if s.result.Some? then s.result else Some(e.message)) else s
  }

  function Put(s: Stream, e: Event): Stream {
    Complete(s.(queue := s.queue + [e], notes := s.notes.(accepted := s.notes.accepted + [e])), e)
  }

  /** Throw away what is queued and end the stream with this event. */
  function Force(s: Stream, e: Event): Stream {
    Complete(s.(queue := [e],
                notes := s.notes.(accepted := s.notes.accepted + [e], dropped := s.queue, cut := |s.notes.taken|)), e)
  }

  /** A producer that is cancelled while it waits for room never puts its event. */
  function CancelPut(s: Stream): Stream {
    if s.emitter.Putting? then s.(emitter := Idle) else s
  }

  function ApplyClose(s: Stream): Stream {
    var ended := if s.result.None? then Force(s, Failed(ClosedEarly())) else s;
    if s.attached then CancelPut(ended) else ended
  }

  function CloseIfOpen(s: Stream): Stream {
    if s.closed then s else ApplyClose(s)
  }

  predicate HoldsTerminal(s: Stream) {
    s.consumer.Holding? && Terminal(s.consumer.event)
  }

  function Apply(s: Stream, step: Step): Stream {
    match step
    case Attach =>
      if s.closed then CancelPut(s)
      else if s.attached then s
      else s.(attached := true, finalizer := if s.emitter.Done? then Callback else s.finalizer)
    case Emit(e) =>
      if !s.emitter.Idle? || s.closed then s
      else if |s.queue| < s.max then Put(s, e)
      else s.(emitter := Putting(e))
    case ResumePut =>
      if s.emitter.Putting? && |s.queue| < s.max then Put(s.(emitter := Idle), s.emitter.event) else s
    case Interrupt => CancelPut(s)
    case Finish(outcome) =>
      if s.emitter.Idle? then
        s.(emitter := Done(outcome), finalizer := if s.attached then Callback else s.finalizer)
      else s
    case RunCallback =>
      if s.finalizer.Callback? then s.(finalizer := if s.result.Some? then NoFinalizer else Task) else s
    case RunFinalizer =>
      if s.finalizer.Task? && s.emitter.Done? then
        var over := s.(finalizer := NoFinalizer);
        if s.result.Some? then over else Force(over, Failed(FinalOf(s.emitter.outcome)))
      else s
    case Close => ApplyClose(s)
    case Open => if s.consumer.Absent? && !s.terminalConsumed then s.(consumer := Waiting) else s
    case Take =>
      if s.consumer.Waiting? && s.queue != [] then
        s.(consumer := Holding(s.queue[0]), queue := s.queue[1..],
           notes := s.notes.(taken := s.notes.taken + [s.queue[0]]))
      else s
    case Continue =>
      if !s.consumer.Holding? then s
      else if Terminal(s.consumer.event) then CloseIfOpen(s.(consumer := Absent, terminalConsumed := true))
      else s.(consumer := Waiting)
    case Leave =>
      if s.consumer.Absent? then s
      else
        CloseIfOpen(s.(consumer := Absent, notes := s.notes.(abandoned := s.notes.abandoned || HoldsTerminal(s))))
  }

  function ApplyAll(s: Stream, steps: seq<Step>): Stream {
    if steps == [] then s else Apply(ApplyAll(s, steps[..|steps| - 1]), steps[|steps| - 1])
  }

  function NewStream(max: nat): Stream {
    Stream(max, [], None, false, false, Idle, NoFinalizer, Absent, false, Notes([], [], [], 0, false))
  }

  // ---------------------------------------------------------------- the invariant

  /** Everything that reached the queue and was not thrown away, in order. */
  function Flow(s: Stream): seq<Event> {
    s.notes.taken + s.queue
  }

  /** Only the last event may be a terminal one. */
  predicate EndsOnce(events: seq<Event>) {
    forall i :: 0 <= i < |events| - 1 ==> !Terminal(events[i])
  }

  predicate Ended(events: seq<Event>) {
    events != [] && Terminal(events[|events| - 1])
  }

  /** What was put is what flowed, but for one stretch that was thrown away. */
  predicate Accounted(flow: seq<Event>, notes: Notes) {
    notes.cut <= |flow| && notes.accepted == flow[..notes.cut] + notes.dropped + flow[notes.cut..]
  }

  predicate Resolved(s: Stream) {
    && (s.closed <==> Ended(s.notes.accepted))
    && (s.closed <==> Ended(Flow(s)))
    && (s.closed ==> Flow(s)[|Flow(s)| - 1] == s.notes.accepted[|s.notes.accepted| - 1])
    && (s.closed ==> s.result == Some(s.notes.accepted[|s.notes.accepted| - 1].message))
    && (s.notes.dropped != [] ==> s.closed)
  }

  predicate TerminalTaken(s: Stream) {
    Ended(s.notes.taken)
  }

  predicate Consuming(s: Stream) {
    && (s.consumer.Holding? ==> s.notes.taken != [] && s.notes.taken[|s.notes.taken| - 1] == s.consumer.event)
    && (s.terminalConsumed || s.notes.abandoned ==> TerminalTaken(s))
    && (TerminalTaken(s) ==> s.terminalConsumed || s.notes.abandoned || HoldsTerminal(s))
    && (s.terminalConsumed ==> s.consumer.Absent?)
    && (s.notes.abandoned ==> !HoldsTerminal(s) && !s.terminalConsumed)
  }

  /** The part that no way of using the stream can break. */
  predicate Basic(s: Stream) {
    && |s.queue| <= s.max && s.max >= 1
    && (s.closed <==> s.result.Some?)
    && (s.emitter.Done? && s.attached && s.result.None? ==> !s.finalizer.NoFinalizer?)
    && (!s.finalizer.NoFinalizer? ==> s.emitter.Done?)
  }

  predicate Inv(s: Stream) {
    && Basic(s) && (s.emitter.Putting? ==> !s.closed)
    && EndsOnce(s.notes.accepted) && EndsOnce(Flow(s)) && Accounted(Flow(s), s.notes)
    && Resolved(s) && Consuming(s)
  }

  /** The step closes the stream from outside. */
  predicate ClosesOpen(s: Stream, step: Step) {
    !s.closed && (step.Close? || (step.Leave? && !s.consumer.Absent?))
  }

  /** Nobody closes an open stream while an emitter waits for room that the stream cannot cancel. */
  predicate Proper(s: Stream, step: Step) {
    ClosesOpen(s, step) ==> s.attached || !s.emitter.Putting?
  }

  predicate ProperRun(s: Stream, steps: seq<Step>) {
    steps == [] ||
    (ProperRun(s, steps[..|steps| - 1]) && Proper(ApplyAll(s, steps[..|steps| - 1]), steps[|steps| - 1]))
  }

  lemma PutKeeps(s: Stream, e: Event)
    requires Inv(s) && !s.closed && |s.queue| < s.max && !s.emitter.Putting?
    ensures Inv(Put(s, e))
  {
    var p := Put(s, e);
    AllFlowed(s);
    AppendEndsOnce(Flow(s), e);
    PutResolves(s, e);
    assert Consuming(p) && Basic(p);
  }

  lemma PutResolves(s: Stream, e: Event)
    requires Basic(s) && Resolved(s) && !s.closed && s.notes.accepted == Flow(s) && s.notes.dropped == []
    ensures var p := Put(s, e);
            && Flow(p) == Flow(s) + [e] == p.notes.accepted && Resolved(p)
            && (p.notes.cut <= |Flow(p)| ==> Accounted(Flow(p), p.notes))
  {
    var p := Put(s, e);
    assert Flow(p) == Flow(s) + [e];
  }

  lemma AllFlowed(s: Stream)
    requires Inv(s) && !s.closed
    ensures s.notes.accepted == Flow(s) && s.notes.dropped == []
  {
  }

  lemma AppendEndsOnce(events: seq<Event>, e: Event)
    requires EndsOnce(events) && !Ended(events)
    ensures EndsOnce(events + [e])
  {
  }

  lemma ForceKeeps(s: Stream, e: Event)
    requires Inv(s) && !s.closed && Terminal(e) && !s.emitter.Putting?
    ensures Inv(Force(s, e))
  {
    var f := Force(s, e);
    forall i | 0 <= i < |s.notes.taken| ensures !Terminal(s.notes.taken[i]) {
      assert s.notes.taken[i] == Flow(s)[i];
    }
    assert s.notes.dropped == [] && s.notes.accepted == Flow(s);
    assert Flow(f) == s.notes.taken + [e];
    assert f.notes.accepted == s.notes.taken + s.queue + [e];
    assert Flow(f)[..f.notes.cut] == s.notes.taken && Flow(f)[f.notes.cut..] == [e];
  }

  lemma CloseKeeps(s: Stream)
    requires Inv(s) && (s.closed || s.attached || !s.emitter.Putting?)
    ensures Inv(ApplyClose(s)) && ApplyClose(s).closed
  {
    if s.result.None? {
      var quiet := CancelPut(s);
      ForceKeeps(quiet, Failed(ClosedEarly()));
      if s.attached {
        assert ApplyClose(s) == Force(quiet, Failed(ClosedEarly()));
      }
    }
  }

  lemma TakenMeansClosed(s: Stream)
    requires Inv(s) && TerminalTaken(s)
    ensures s.closed && s.queue == []
  {
    assert Flow(s)[|s.notes.taken| - 1] == s.notes.taken[|s.notes.taken| - 1];
    if s.queue == [] {
      assert Flow(s) == s.notes.taken;
    }
  }

  lemma TakeKeeps(s: Stream)
    requires Inv(s) && s.consumer.Waiting? && s.queue != []
    ensures Inv(Apply(s, Take)) && Flow(Apply(s, Take)) == Flow(s)
  {
    var t := Apply(s, Take);
    assert Flow(t) == Flow(s);
    if TerminalTaken(s) {
      TakenMeansClosed(s);
    }
    assert t.notes.taken[|t.notes.taken| - 1] == s.queue[0];
  }

  lemma StepKeeps(s: Stream, step: Step)
    requires Inv(s) && Proper(s, step)
    ensures Inv(Apply(s, step))
  {
    match step
    case Emit(e) => EmitKeeps(s, e);
    case ResumePut =>
      if s.emitter.Putting? && |s.queue| < s.max {
        PutKeeps(s.(emitter := Idle), s.emitter.event);
      }
    case RunFinalizer => FinalizerKeeps(s);
    case Close => CloseKeeps(s);
    case Take =>
      if s.consumer.Waiting? && s.queue != [] {
        TakeKeeps(s);
      }
    case Continue => ContinueKeeps(s);
    case Leave => LeaveKeeps(s);
    case _ =>
  }

  lemma EmitKeeps(s: Stream, e: Event)
    requires Inv(s)
    ensures Inv(Apply(s, Emit(e)))
  {
    if s.emitter.Idle? && !s.closed && |s.queue| < s.max {
      PutKeeps(s, e);
    }
  }

  lemma FinalizerKeeps(s: Stream)
    requires Inv(s)
    ensures Inv(Apply(s, RunFinalizer))
  {
    if s.finalizer.Task? && s.emitter.Done? {
      if s.result.None? {
        var e := Failed(FinalOf(s.emitter.outcome));
        ForceKeeps(s, e);
        DropFinalizerKeeps(Force(s, e));
        assert Apply(s, RunFinalizer) == Force(s, e).(finalizer := NoFinalizer);
      } else {
        DropFinalizerKeeps(s);
      }
    }
  }

  lemma DropFinalizerKeeps(s: Stream)
    requires Inv(s) && s.result.Some?
    ensures Inv(s.(finalizer := NoFinalizer))
  {
    assert Flow(s.(finalizer := NoFinalizer)) == Flow(s);
  }

  lemma ContinueKeeps(s: Stream)
    requires Inv(s)
    ensures Inv(Apply(s, Continue))
  {
    if s.consumer.Holding? && Terminal(s.consumer.event) {
      TakenMeansClosed(s);
      assert Flow(Apply(s, Continue)) == Flow(s);
    }
  }

  lemma LeaveKeeps(s: Stream)
    requires Inv(s) && Proper(s, Leave)
    ensures Inv(Apply(s, Leave))
  {
    if !s.consumer.Absent? {
      var gone := s.(consumer := Absent, notes := s.notes.(abandoned := s.notes.abandoned || HoldsTerminal(s)));
      assert Flow(gone) == Flow(s);
      if !gone.closed {
        CloseKeeps(gone);
      }
    }
  }

  lemma {:induction false} RunKeeps(s: Stream, steps: seq<Step>)
    requires Inv(s) && ProperRun(s, steps)
    ensures Inv(ApplyAll(s, steps))
  {
    if steps != [] {
      RunKeeps(s, steps[..|steps| - 1]);
      StepKeeps(ApplyAll(s, steps[..|steps| - 1]), steps[|steps| - 1]);
    }
  }

  lemma StepKeepsBasic(s: Stream, step: Step)
    requires Basic(s)
    ensures Basic(Apply(s, step)) && (s.result.Some? ==> Apply(s, step).result == s.result)
    ensures Apply(s, step).max == s.max
  {
  }

  /** However the stream is used, the buffer keeps its bound and a result, once there, stays the same. */
  lemma {:induction false} RunKeepsBasic(s: Stream, steps: seq<Step>)
    requires Basic(s)
    ensures Basic(ApplyAll(s, steps)) && (s.result.Some? ==> ApplyAll(s, steps).result == s.result)
    ensures ApplyAll(s, steps).max == s.max
  {
    if steps != [] {
      RunKeepsBasic(s, steps[..|steps| - 1]);
      StepKeepsBasic(ApplyAll(s, steps[..|steps| - 1]), steps[|steps| - 1]);
    }
  }

  lemma NewIsSound(max: nat)
    requires max >= 1
    ensures Inv(NewStream(max))
  {
  }

  // ---------------------------------------------------------------- the results

  /**
   * In every run in which nobody closes the stream on an emitter it cannot cancel: the buffer stays within its bound,
   * at most one terminal event is ever put and nothing after it, neither into the queue nor to the consumer, and the
   * result is there exactly once one was, and is its message.
   */
  lemma EndsExactlyOnce(max: nat, steps: seq<Step>)
    requires max >= 1 && ProperRun(NewStream(max), steps)
    ensures var s := ApplyAll(NewStream(max), steps);
            && |s.queue| <= max
            && EndsOnce(s.notes.accepted) && EndsOnce(s.notes.taken + s.queue)
            && (s.result.Some? <==> Ended(s.notes.accepted))
            && (s.result.Some? ==> s.result.value == s.notes.accepted[|s.notes.accepted| - 1].message)
  {
    NewIsSound(max);
    RunKeeps(NewStream(max), steps);
    RunKeepsBasic(NewStream(max), steps);
  }

  lemma StepKeepsResult(s: Stream, step: Step)
    requires Inv(s) && s.result.Some?
    ensures Apply(s, step).result == s.result && Apply(s, step).notes.accepted == s.notes.accepted
    ensures Proper(s, step)
  {
  }

  /** Once a stream has ended, every way of using it is proper, its result stays, and nothing more is put. */
  lemma {:induction false} ResultIsFinal(s: Stream, steps: seq<Step>)
    requires Inv(s) && s.result.Some?
    ensures ProperRun(s, steps)
    ensures ApplyAll(s, steps).result == s.result && ApplyAll(s, steps).notes.accepted == s.notes.accepted
  {
    if steps != [] {
      var before := ApplyAll(s, steps[..|steps| - 1]);
      ResultIsFinal(s, steps[..|steps| - 1]);
      RunKeeps(s, steps[..|steps| - 1]);
      StepKeepsResult(before, steps[|steps| - 1]);
    }
  }

  /** An event that was put either reaches the queue in order, or was thrown away by whoever forced the end. */
  lemma NothingElseIsLost(max: nat, steps: seq<Step>)
    requires max >= 1 && ProperRun(NewStream(max), steps)
    ensures var s := ApplyAll(NewStream(max), steps);
            && Accounted(s.notes.taken + s.queue, s.notes)
            && (s.result.None? ==> s.notes.accepted == s.notes.taken + s.queue)
  {
    NewIsSound(max);
    RunKeeps(NewStream(max), steps);
    var s := ApplyAll(NewStream(max), steps);
    assert Accounted(Flow(s), s.notes);
    if s.result.None? {
      assert s.notes.dropped == [];
    }
  }

  /**
   * In every run, a producer that was attached and is over leaves a result, or a callback or finalizer that is
   * scheduled, and when these have run there is a result.
   */
  lemma FinishedMeansResolved(max: nat, steps: seq<Step>)
    requires max >= 1
    ensures var s := ApplyAll(NewStream(max), steps);
            s.attached && s.emitter.Done? ==>
              && (s.result.Some? || s.finalizer.Callback? || s.finalizer.Task?)
              && ApplyAll(NewStream(max), steps + [RunCallback] + [RunFinalizer]).result.Some?
  {
    NewIsSound(max);
    RunKeepsBasic(NewStream(max), steps);
    Extends(NewStream(max), steps, RunCallback);
    Extends(NewStream(max), steps + [RunCallback], RunFinalizer);
  }

  /** A consumer that keeps reading an ended stream gets to the terminal event: it never waits in vain. */
  predicate Stranded(s: Stream) {
    s.consumer.Waiting? && s.queue == [] && s.closed
  }

  /**
   * A consumer waits forever on an ended stream exactly when an earlier one took the terminal event and left without
   * asking for more, because only asking for more marks the stream as consumed.
   */
  lemma StrandedExactly(s: Stream)
    requires Inv(s) && s.closed && s.consumer.Absent? && !s.terminalConsumed
    ensures Stranded(Apply(s, Open)) <==> s.notes.abandoned
  {
    if s.queue == [] {
      assert Flow(s) == s.notes.taken;
    }
    if s.notes.abandoned {
      TakenMeansClosed(s);
    }
  }

  lemma StrandedStays(s: Stream, step: Step)
    requires Inv(s) && Stranded(s) && !step.Leave?
    ensures Stranded(Apply(s, step))
  {
  }

  /** Forever: nothing anyone does wakes it, only leaving ends the wait. */
  lemma {:induction false} StrandedForever(s: Stream, steps: seq<Step>)
    requires Inv(s) && Stranded(s) && forall i :: 0 <= i < |steps| ==> !steps[i].Leave?
    ensures Stranded(ApplyAll(s, steps))
  {
    if steps != [] {
      var front := steps[..|steps| - 1];
      StrandedForever(s, front);
      ResultIsFinal(s, front);
      RunKeeps(s, front);
      StrandedStays(ApplyAll(s, front), steps[|steps| - 1]);
    }
  }

  lemma StrandedMeansAbandoned(s: Stream)
    requires Inv(s) && Stranded(s)
    ensures s.notes.abandoned
  {
    assert Flow(s) == s.notes.taken;
  }

  lemma NeverStrandedUnlessAbandoned(max: nat, steps: seq<Step>)
    requires max >= 1 && ProperRun(NewStream(max), steps) && Stranded(ApplyAll(NewStream(max), steps))
    ensures ApplyAll(NewStream(max), steps).notes.abandoned
  {
    NewIsSound(max);
    RunKeeps(NewStream(max), steps);
    StrandedMeansAbandoned(ApplyAll(NewStream(max), steps));
  }

  lemma Extends(s: Stream, steps: seq<Step>, step: Step)
    ensures ApplyAll(s, steps + [step]) == Apply(ApplyAll(s, steps), step)
    ensures ProperRun(s, steps + [step]) <==> ProperRun(s, steps) && Proper(ApplyAll(s, steps), step)
  {
    assert (steps + [step])[..|steps|] == steps;
  }

  lemma LeavingStrands(final: Final)
    ensures var held := Apply(Apply(Apply(NewStream(1), Emit(Completed(final))), Open), Take);
            held.closed && Stranded(Apply(Apply(held, Leave), Open))
  {
  }

  /** A run that strands its second consumer: the first takes the terminal event and leaves. */
  lemma SecondConsumerWaitsForever(final: Final) returns (steps: seq<Step>)
    ensures ProperRun(NewStream(1), steps) && Stranded(ApplyAll(NewStream(1), steps))
  {
    var s := NewStream(1);
    LeavingStrands(final);
    steps := [];
    Extends(s, steps, Emit(Completed(final)));
    steps := steps + [Emit(Completed(final))];
    Extends(s, steps, Open);
    steps := steps + [Open];
    Extends(s, steps, Take);
    steps := steps + [Take];
    Extends(s, steps, Leave);
    steps := steps + [Leave];
    Extends(s, steps, Open);
    steps := steps + [Open];
  }

  // ---------------------------------------------------------------- exactly when the end is overrun

  /** What the two sides still do when nobody closes, cancels or emits anything. */
  predicate Winding(steps: seq<Step>) {
    forall i :: 0 <= i < |steps| ==> steps[i].Open? || steps[i].Take? || steps[i].Continue? || steps[i].ResumePut?
  }

  lemma {:induction false} ApplyAllConcat(s: Stream, a: seq<Step>, b: seq<Step>)
    ensures ApplyAll(s, a + b) == ApplyAll(ApplyAll(s, a), b)
  {
    if b == [] {
      assert a + b == a;
    } else {
      var n := |b| - 1;
      ApplyAllConcat(s, a, b[..n]);
      assert b == b[..n] + [b[n]] && a + b == a + b[..n] + [b[n]];
      Extends(ApplyAll(s, a), b[..n], b[n]);
      Extends(s, a + b[..n], b[n]);
    }
  }

  /** Winding down never closes anything, so it is proper. */
  lemma {:induction false} WindingIsProper(s: Stream, steps: seq<Step>)
    requires Inv(s) && Winding(steps)
    ensures ProperRun(s, steps)
  {
    if steps != [] {
      WindingIsProper(s, steps[..|steps| - 1]);
    }
  }

  /** A stream closed on a waiting emitter: its queue is the forced end, and the emitter will still put its event. */
  predicate Overrun(s: Stream) {
    && s.max >= 1 && s.emitter.Putting? && !s.terminalConsumed && !HoldsTerminal(s)
    && s.queue == [Failed(ClosedEarly())]
  }

  lemma ImproperOverruns(s: Stream, step: Step)
    requires Inv(s) && !Proper(s, step)
    ensures Overrun(Apply(s, step))
  {
    if HoldsTerminal(s) || s.terminalConsumed {
      TakenMeansClosed(s);
    }
  }

  /** What gets the consumer to wait for its next event. */
  function Asking(s: Stream): seq<Step> {
    match s.consumer
    case Absent => [Open]
    case Waiting => []
    case Holding(_) => [Continue]
  }

  lemma AskingWaits(s: Stream)
    requires Overrun(s)
    ensures Winding(Asking(s))
    ensures ApplyAll(s, Asking(s)) == s.(consumer := Waiting)
  {
    if Asking(s) != [] {
      Extends(s, [], Asking(s)[0]);
      assert Asking(s) == [] + [Asking(s)[0]];
    }
  }

  lemma TakenThenPut(s: Stream)
    requires Overrun(s) && s.consumer.Waiting?
    ensures var e := Apply(Apply(s, Take), ResumePut);
            !EndsOnce(e.notes.taken + e.queue)
  {
    var e := Apply(Apply(s, Take), ResumePut);
    assert e.notes.taken + e.queue == s.notes.taken + [Failed(ClosedEarly()), s.emitter.event];
    assert Terminal((e.notes.taken + e.queue)[|s.notes.taken|]);
  }

  lemma OverrunShows(s: Stream) returns (more: seq<Step>)
    requires Overrun(s)
    ensures Winding(more) && !EndsOnce(Flow(ApplyAll(s, more)))
  {
    AskingWaits(s);
    var waiting := s.(consumer := Waiting);
    Extends(s, Asking(s), Take);
    Extends(s, Asking(s) + [Take], ResumePut);
    TakenThenPut(waiting);
    more := Asking(s) + [Take] + [ResumePut];
  }

  /** Every prefix of the run can be wound down, in any way, without an event after the terminal one. */
  ghost predicate NeverOverrun(s: Stream, steps: seq<Step>) {
    forall k, more :: 0 <= k <= |steps| && Winding(more) ==> EndsOnce(Flow(ApplyAll(s, steps[..k] + more)))
  }

  lemma ProperNeverOverruns(s: Stream, steps: seq<Step>, k: nat, more: seq<Step>)
    requires Inv(s) && ProperRun(s, steps) && k <= |steps| && Winding(more)
    ensures EndsOnce(Flow(ApplyAll(s, steps[..k] + more)))
  {
    ProperPrefix(s, steps, k);
    RunKeeps(s, steps[..k]);
    WindingIsProper(ApplyAll(s, steps[..k]), more);
    RunKeeps(ApplyAll(s, steps[..k]), more);
    ApplyAllConcat(s, steps[..k], more);
  }

  lemma {:induction false} ProperPrefix(s: Stream, steps: seq<Step>, k: nat)
    requires ProperRun(s, steps) && k <= |steps|
    ensures ProperRun(s, steps[..k])
  {
    if k == |steps| {
      assert steps[..k] == steps;
    } else {
      ProperPrefix(s, steps[..|steps| - 1], k);
      assert steps[..|steps| - 1][..k] == steps[..k];
    }
  }

  lemma {:induction false} ImproperRunOverruns(s: Stream, steps: seq<Step>) returns (k: nat, more: seq<Step>)
    requires Inv(s) && !ProperRun(s, steps)
    ensures k <= |steps| && Winding(more) && !EndsOnce(Flow(ApplyAll(s, steps[..k] + more)))
  {
    var n := |steps| - 1;
    if !ProperRun(s, steps[..n]) {
      k, more := ImproperRunOverruns(s, steps[..n]);
      assert steps[..n][..k] == steps[..k];
    } else {
      RunKeeps(s, steps[..n]);
      ImproperOverruns(ApplyAll(s, steps[..n]), steps[n]);
      more := OverrunShows(ApplyAll(s, steps));
      k := |steps|;
      assert steps[..k] == steps;
      ApplyAllConcat(s, steps, more);
    }
  }

  /**
   * The condition is exact: a run can be followed by an event after the terminal one exactly when somebody closed the
   * open stream while an emitter that is not the attached producer waited for room.
   */
  lemma OverrunExactly(max: nat, steps: seq<Step>)
    requires max >= 1
    ensures NeverOverrun(NewStream(max), steps) <==> ProperRun(NewStream(max), steps)
  {
    NewIsSound(max);
    if ProperRun(NewStream(max), steps) {
      forall k, more | 0 <= k <= |steps| && Winding(more)
        ensures EndsOnce(Flow(ApplyAll(NewStream(max), steps[..k] + more)))
      {
        ProperNeverOverruns(NewStream(max), steps, k, more);
      }
    } else {
      var k, more := ImproperRunOverruns(NewStream(max), steps);
    }
  }

  /** A run that is not proper: two events, room for one, and the stream closed before the second was put. */
  lemma UnattachedEmitterOverrunsTheEnd(a: string, b: string) returns (steps: seq<Step>)
    ensures !ProperRun(NewStream(1), steps) && !NeverOverrun(NewStream(1), steps)
  {
    var s := NewStream(1);
    steps := [];
    Extends(s, steps, Emit(Progress(a)));
    steps := steps + [Emit(Progress(a))];
    Extends(s, steps, Emit(Progress(b)));
    steps := steps + [Emit(Progress(b))];
    Extends(s, steps, Close);
    steps := steps + [Close];
    OverrunExactly(1, steps);
  }
}
