/**
 * The event stream as the object its producer and consumer share. A method runs from one await to the next, so every
 * method is one step of the model; where the source waits, the method reports that it has to.
 */
module EventStream {
  import opened Text
  import opened StreamModel

  class AssistantMessageEventStream {
    const maxBufferedEvents: nat
    var queue: seq<Event>
    var result: Option<Final>
    var closed: bool
    var attached: bool
    var emitter: Emitter
    var finalizer: Finalizer
    var consumer: Consumer
    var terminalConsumed: bool
    ghost var notes: Notes
    ghost var steps: seq<Step>

    ghost function State(): Stream
      reads this
    {
      Stream(maxBufferedEvents, queue, result, closed, attached, emitter, finalizer, consumer, terminalConsumed, notes)
    }

    /** The stream is in the state its steps lead to. */
    ghost predicate Valid()
      reads this
    {
      maxBufferedEvents >= 1 && State() == ApplyAll(NewStream(maxBufferedEvents), steps)
    }

    /** So far nobody closed the stream on an emitter it could not cancel. */
    ghost predicate UsedProperly()
      reads this
    {
      ProperRun(NewStream(maxBufferedEvents), steps)
    }

    lemma Taking(step: Step)
      requires Valid()
      ensures ApplyAll(NewStream(maxBufferedEvents), steps + [step]) == Apply(State(), step)
      ensures ProperRun(NewStream(maxBufferedEvents), steps + [step]) <==> UsedProperly() && Proper(State(), step)
    {
      Extends(NewStream(maxBufferedEvents), steps, step);
    }

    lemma ValidIsBasic()
      requires Valid()
      ensures Basic(State())
    {
      NewIsSound(maxBufferedEvents);
      RunKeepsBasic(NewStream(maxBufferedEvents), steps);
    }

    lemma ProperUseIsSound()
      requires Valid() && UsedProperly()
      ensures Inv(State())
    {
      NewIsSound(maxBufferedEvents);
      RunKeeps(NewStream(maxBufferedEvents), steps);
    }

    constructor (maxBufferedEvents: nat)
      requires maxBufferedEvents > 0
      ensures Valid() && steps == [] && this.maxBufferedEvents == maxBufferedEvents
    {
      this.maxBufferedEvents := maxBufferedEvents;
      queue, result, closed, attached := [], None, false, false;
      emitter, finalizer, consumer, terminalConsumed := Idle, NoFinalizer, Absent, false;
      notes, steps := Notes([], [], [], 0, false), [];
    }

    // -------------------------------------------------------------- inside one stretch

    method CompleteWith(event: Event)
      requires Terminal(event)
      modifies this`closed, this`result
      ensures State() == Complete(old(State()), event)
    {
      closed := true;
      if result.None? {
        result := Some(event.message);
      }
    }

    method PutEvent(event: Event)
      requires |queue| < maxBufferedEvents
      modifies this`queue, this`notes, this`closed, this`result
      ensures State() == Put(old(State()), event)
    {
      queue := queue + [event];
      notes := notes.(accepted := notes.accepted + [event]);
      if Terminal(event) {
        CompleteWith(event);
      }
    }

    method ForceTerminal(event: Event)
      requires Terminal(event) && maxBufferedEvents >= 1
      modifies this`queue, this`notes, this`closed, this`result
      ensures State() == Force(old(State()), event)
      ensures queue == [event] && closed && result == (if old(result).Some? then old(result) else Some(event.message))
      ensures notes.dropped == old(queue) && notes.accepted == old(notes.accepted) + [event]
    {
      closed := true;
      ghost var was := queue;
      ghost var thrown := [];
      while queue != []
        invariant was == thrown + queue && closed && result == old(result) && notes == old(notes)
        decreases |queue|
      {
        thrown := thrown + [queue[0]];
        queue := queue[1..];
      }
      queue := queue + [event];
      notes := notes.(accepted := notes.accepted + [event], dropped := thrown, cut := |notes.taken|);
      if result.None? {
        result := Some(event.message);
      }
    }

    method CloseNow()
      requires maxBufferedEvents >= 1
      modifies this`queue, this`notes, this`closed, this`result, this`emitter
      ensures State() == ApplyClose(old(State()))
    {
      if result.None? {
        ForceTerminal(Failed(ClosedEarly()));
      }
      if attached {
        CancelProducer();
      }
    }

    /** A producer cancelled while it waits for room wakes up without having put anything. */
    method CancelProducer()
      modifies this`emitter
      ensures State() == CancelPut(old(State()))
    {
      if emitter.Putting? {
        emitter := Idle;
      }
    }

    // -------------------------------------------------------------- the producer's side

    method AttachProducer() returns (ok: bool)
      requires Valid()
      modifies this
      ensures Valid() && steps == old(steps) + [Attach]
      ensures ok <==> !old(closed) && !old(attached)
      ensures attached == (old(attached) || ok)
      ensures finalizer == if ok && old(emitter).Done? then Callback else old(finalizer)
      ensures emitter == if old(closed) && old(emitter).Putting? then Idle else old(emitter)
      ensures queue == old(queue) && result == old(result) && closed == old(closed) && consumer == old(consumer)
    {
      Taking(Attach);
      steps := steps + [Attach];
      if closed {
        CancelProducer();
        return false;
      }
      if attached {
        return false;
      }
      attached := true;
      if emitter.Done? {
        finalizer := Callback;
      }
      ok := true;
    }

    /** The producer emits an event; false means it now waits for room in the queue. */
    method EmitEvent(event: Event) returns (done: bool)
      requires Valid() && emitter.Idle?
      modifies this
      ensures Valid() && steps == old(steps) + [Emit(event)]
      ensures done <==> old(closed) || |old(queue)| < maxBufferedEvents
      ensures old(closed) ==> State() == old(State())
      ensures !old(closed) && done ==>
        && queue == old(queue) + [event] && emitter.Idle? && closed == Terminal(event)
        && result == (if Terminal(event) then Some(event.message) else None)
      ensures !done ==>
        && emitter == Putting(event) && queue == old(queue) && !closed && result == old(result)
      ensures consumer == old(consumer) && attached == old(attached) && finalizer == old(finalizer)
      ensures old(UsedProperly()) ==> UsedProperly()
    {
      ValidIsBasic();
      Taking(Emit(event));
      steps := steps + [Emit(event)];
      if closed {
        return true;
      }
      if |queue| < maxBufferedEvents {
        PutEvent(event);
        return true;
      }
      emitter := Putting(event);
      done := false;
    }

    method ResumeEmit() returns (done: bool)
      requires Valid() && emitter.Putting?
      modifies this
      ensures Valid() && steps == old(steps) + [ResumePut]
      ensures done <==> |old(queue)| < maxBufferedEvents
      ensures done ==>
        && notes.accepted == old(notes.accepted) + [old(emitter).event]
        && queue == old(queue) + [old(emitter).event] && emitter.Idle?
        && closed == (old(closed) || Terminal(old(emitter).event))
        && result == (if old(result).None? && Terminal(old(emitter).event) then Some(old(emitter).event.message)
                      else old(result))
      ensures !done ==> State() == old(State())
      ensures consumer == old(consumer) && attached == old(attached) && finalizer == old(finalizer)
    {
      Taking(ResumePut);
      steps := steps + [ResumePut];
      done := |queue| < maxBufferedEvents;
      if done {
        var event := emitter.event;
        emitter := Idle;
        PutEvent(event);
      }
    }

    method InterruptProducer()
      requires Valid()
      modifies this
      ensures Valid() && steps == old(steps) + [Interrupt]
      ensures emitter == if old(emitter).Putting? then Idle else old(emitter)
      ensures queue == old(queue) && result == old(result) && closed == old(closed) && consumer == old(consumer)
    {
      Taking(Interrupt);
      steps := steps + [Interrupt];
      CancelProducer();
    }

    /** The producer ends; if it is attached its callback gets scheduled. */
    method EndProducer(outcome: Outcome)
      requires Valid() && emitter.Idle?
      modifies this
      ensures Valid() && steps == old(steps) + [Finish(outcome)]
      ensures finalizer == if attached then Callback else old(finalizer)
      ensures emitter == Done(outcome) && attached == old(attached)
      ensures queue == old(queue) && result == old(result) && closed == old(closed) && consumer == old(consumer)
    {
      Taking(Finish(outcome));
      steps := steps + [Finish(outcome)];
      emitter := Done(outcome);
      if attached {
        finalizer := Callback;
      }
    }

    method ProducerDone()
      requires Valid() && finalizer.Callback?
      modifies this
      ensures Valid() && steps == old(steps) + [RunCallback]
      ensures finalizer == if result.None? then Task else NoFinalizer
      ensures queue == old(queue) && result == old(result) && closed == old(closed) && consumer == old(consumer)
    {
      Taking(RunCallback);
      steps := steps + [RunCallback];
      finalizer := if result.Some? then NoFinalizer else Task;
    }

    method FinalizeUnterminatedProducer()
      requires Valid() && finalizer.Task?
      modifies this
      ensures Valid() && steps == old(steps) + [RunFinalizer]
      ensures result.Some? && closed && finalizer == NoFinalizer
      ensures old(result).Some? ==> result == old(result) && queue == old(queue)
      ensures old(result).None? ==>
        && queue == [Failed(result.value)] && old(emitter).Done?
        && match old(emitter).outcome
           case Cancelled => result.value.stopReason == Aborted
           case Raised(error, kind) =>
             result.value == Final(Errored, if error != "" then error else kind)
           case Returned => result.value.stopReason == Errored
    {
      ValidIsBasic();
      Taking(RunFinalizer);
      steps := steps + [RunFinalizer];
      finalizer := NoFinalizer;
      if result.None? {
        ForceTerminal(Failed(FinalOf(emitter.outcome)));
      }
    }

    method Aclose()
      requires Valid()
      modifies this
      ensures Valid() && steps == old(steps) + [Close]
      ensures result.Some? && closed && (old(result).Some? ==> result == old(result) && queue == old(queue))
      ensures old(result).None? ==> queue == [Failed(result.value)] && result.value.stopReason == Aborted
      ensures emitter == if attached && old(emitter).Putting? then Idle else old(emitter)
      ensures consumer == old(consumer) && attached == old(attached) && finalizer == old(finalizer)
      ensures old(UsedProperly()) && (old(attached) || old(closed) || !old(emitter).Putting?) ==> UsedProperly()
      ensures attached ==> !emitter.Putting?
    {
      ValidIsBasic();
      Taking(Close);
      steps := steps + [Close];
      CloseNow();
    }

    // -------------------------------------------------------------- the consumer's side

    method OpenIteration() returns (ok: bool)
      requires Valid()
      modifies this
      ensures Valid() && steps == old(steps) + [Open]
      ensures ok <==> old(consumer).Absent? && !old(terminalConsumed)
      ensures consumer == if ok then Waiting else old(consumer)
      ensures queue == old(queue) && result == old(result) && closed == old(closed) && emitter == old(emitter)
    {
      Taking(Open);
      steps := steps + [Open];
      ok := consumer.Absent? && !terminalConsumed;
      if ok {
        consumer := Waiting;
      }
    }

    /** The next event, or None while there is nothing to read. */
    method TakeEvent() returns (event: Option<Event>)
      requires Valid() && consumer.Waiting?
      modifies this
      ensures Valid() && steps == old(steps) + [Take]
      ensures event == if old(queue) == [] then None else Some(old(queue)[0])
      ensures event.None? ==> State() == old(State())
      ensures event.Some? ==> queue == old(queue)[1..] && consumer == Holding(event.value)
      ensures result == old(result) && closed == old(closed) && emitter == old(emitter)
      ensures event.None? && closed && old(UsedProperly()) ==> notes.abandoned
    {
      if UsedProperly() && queue == [] && closed {
        ProperUseIsSound();
        StrandedMeansAbandoned(State());
      }
      Taking(Take);
      steps := steps + [Take];
      if queue == [] {
        return None;
      }
      event := Some(queue[0]);
      consumer := Holding(queue[0]);
      notes := notes.(taken := notes.taken + [queue[0]]);
      queue := queue[1..];
    }

    /** The consumer asks for more; false ends the iteration. */
    method ContinueIteration() returns (more: bool)
      requires Valid() && consumer.Holding?
      modifies this
      ensures Valid() && steps == old(steps) + [Continue]
      ensures more <==> !Terminal(old(consumer).event)
      ensures !more ==> terminalConsumed && closed && result.Some? && consumer == Absent
      ensures more ==> consumer == Waiting && queue == old(queue) && closed == old(closed) && result == old(result)
      ensures old(closed) ==> queue == old(queue) && result == old(result)
    {
      ValidIsBasic();
      Taking(Continue);
      steps := steps + [Continue];
      more := !Terminal(consumer.event);
      if more {
        consumer := Waiting;
      } else {
        terminalConsumed, consumer := true, Absent;
        if !closed {
          CloseNow();
        }
      }
    }

    method LeaveIteration()
      requires Valid() && !consumer.Absent?
      modifies this
      ensures Valid() && steps == old(steps) + [Leave]
      ensures closed && result.Some? && consumer == Absent
      ensures old(closed) ==> queue == old(queue) && result == old(result)
      ensures !old(closed) ==> queue == [Failed(result.value)] && result.value.stopReason == Aborted
      ensures old(UsedProperly()) && (old(attached) || old(closed) || !old(emitter).Putting?) ==> UsedProperly()
    {
      ValidIsBasic();
      Taking(Leave);
      steps := steps + [Leave];
      notes := notes.(abandoned := notes.abandoned || HoldsTerminal(State()));
      consumer := Absent;
      if !closed {
        CloseNow();
      }
    }
  }
}
