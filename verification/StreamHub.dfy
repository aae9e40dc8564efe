/**
 * The hub itself, as the object whose methods update its maps. Every method is one step of the state machine, and
 * hands its caller what that step promises.
 */
module Sse {
  import opened Arithmetic
  import opened Text
  import opened HubModel
  import opened HubInvariant
  import opened HubSteps

  datatype RunStreamSubscription =
    RunStreamSubscription(queue: QueueId, streamId: StreamId, eventSeq: nat, replay: seq<Message>)

  /** Queues are named by ids, and a subscriber's queue lives as long as the hub does. */
  class StreamHub {
    const queueMaxsize: int
    const historyMaxsize: nat
    const historyRunMaxsize: int
    var runStreams: map<RunId, set<QueueId>>
    var streamIds: map<RunId, StreamId>
    var eventSeq: map<RunId, nat>
    var history: map<RunId, seq<Message>>
    var replayRuns: seq<RunId>
    var terminalMessages: map<RunId, Message>
    var queues: map<QueueId, seq<Message>>
    var nextStream: StreamId
    var nextQueue: QueueId
    ghost var watch: map<QueueId, Watch>
    ghost var log: map<StreamId, seq<Message>>
    ghost var owner: map<StreamId, RunId>
    ghost var closing: map<StreamId, Message>
    ghost var steps: seq<Step>

    ghost function Registered(): Registry
      reads this
    {
      Registry(runStreams, streamIds, eventSeq, history, replayRuns, terminalMessages)
    }

    ghost function Wired(): Wire
      reads this
    {
      Wire(queues, watch, log, owner, closing, nextStream, nextQueue)
    }

    ghost function State(): Hub
      reads this
    {
      Hub(Limits(queueMaxsize, historyMaxsize, historyRunMaxsize), Registered(), Wired())
    }

    /** The hub is in the state that the steps taken so far lead to. */
    ghost predicate Valid()
      reads this
    {
      State() == ApplyAll(Empty(Limits(queueMaxsize, historyMaxsize, historyRunMaxsize)), steps)
    }

    constructor (queueMaxsize: int, historyMaxsize: int, historyRunMaxsize: int)
      requires queueMaxsize >= 0 || historyMaxsize >= 0
      ensures Valid() && steps == []
      ensures this.queueMaxsize == queueMaxsize && this.historyMaxsize == Max(historyMaxsize, queueMaxsize)
      ensures this.historyRunMaxsize == Max(1, historyRunMaxsize)
    {
      this.queueMaxsize := queueMaxsize;
      this.historyMaxsize := Max(historyMaxsize, queueMaxsize);
      this.historyRunMaxsize := Max(1, historyRunMaxsize);
      runStreams, streamIds, eventSeq, history := map[], map[], map[], map[];
      replayRuns, terminalMessages := [], map[];
      queues, watch, log, owner, closing := map[], map[], map[], map[], map[];
      nextStream, nextQueue, steps := 0, 0, [];
    }

    // -------------------------------------------------------------- helpers that hold the lock

    method ClearGenerationLocked(r: RunId)
      modifies this`streamIds, this`eventSeq, this`terminalMessages
      ensures Registered() == ClearGeneration(old(Registered()), r) && Wired() == old(Wired())
    {
      streamIds := streamIds - {r};
      eventSeq := eventSeq - {r};
      terminalMessages := terminalMessages - {r};
    }

    method ClearReplayLocked(r: RunId)
      modifies this`history, this`replayRuns, this`streamIds, this`eventSeq, this`terminalMessages
      ensures Registered() == ClearReplay(old(Registered()), r) && Wired() == old(Wired())
    {
      history := history - {r};
      replayRuns := Remove(replayRuns, r);
      if r !in runStreams || runStreams[r] == {} {
        ClearGenerationLocked(r);
      }
    }

    method TrackRunLocked(r: RunId)
      modifies this`streamIds, this`nextStream, this`log, this`owner
      modifies this`history, this`replayRuns, this`eventSeq, this`terminalMessages
      ensures Registered() == Track(old(Registered()), r, old(nextStream), historyRunMaxsize)
      ensures Wired() == if r in old(streamIds) then old(Wired()) else OpenStream(old(Wired()), r)
      ensures r in streamIds && streamIds[r] == Get(old(streamIds), r, old(nextStream))
    {
      if r !in streamIds {
        streamIds := streamIds[r := nextStream];
        log, owner := log[nextStream := []], owner[nextStream := r];
        nextStream := nextStream + 1;
      }
      if r in terminalMessages {
        return;
      }
      replayRuns := Remove(replayRuns, r) + [r];
      EvictLocked(r);
    }

    /** Drop idle runs, oldest first, until few enough are retained. */
    method EvictLocked(r: RunId)
      modifies this`streamIds, this`history, this`replayRuns, this`eventSeq, this`terminalMessages
      ensures Registered() == Evict(old(Registered()), old(replayRuns), r, historyRunMaxsize)
      ensures Wired() == old(Wired())
      ensures r in old(streamIds) ==> r in streamIds && streamIds[r] == old(streamIds)[r]
    {
      ghost var moved, wire := Registered(), Wired();
      var candidates := replayRuns;
      var i := 0;
      assert candidates[i..] == candidates;
      while i < |candidates| && |replayRuns| > historyRunMaxsize
        invariant i <= |candidates| && Wired() == wire
        invariant r in moved.streams ==> r in streamIds && streamIds[r] == moved.streams[r]
        invariant Evict(Registered(), candidates[i..], r, historyRunMaxsize)
               == Evict(moved, candidates, r, historyRunMaxsize)
      {
        var candidate := candidates[i];
        assert candidates[i..][0] == candidate && candidates[i..][1..] == candidates[i + 1..];
        if candidate != r && (candidate !in runStreams || runStreams[candidate] == {}) {
          ClearReplayLocked(candidate);
        }
        i := i + 1;
      }
    }

    method NextSeqLocked(r: RunId) returns (current: nat)
      modifies this`eventSeq
      ensures current == Get(old(eventSeq), r, 0) + 1 && eventSeq == old(eventSeq)[r := current]
    {
      current := Get(eventSeq, r, 0) + 1;
      eventSeq := eventSeq[r := current];
    }

    /** Make room in one queue by dropping its oldest messages, then put the message. */
    method PutLatest(q: QueueId, m: Message)
      requires q in queues && q in watch
      modifies this`queues, this`watch
      ensures queues == old(queues)[q := Put(old(queues)[q], m, queueMaxsize)]
      ensures watch == old(watch)[q := PutWatch(old(watch)[q], old(queues)[q], queueMaxsize)]
    {
      ghost var was, w, n := queues[q], watch[q], 0;
      assert w.left + DropAll(was[..0]) == w.left && was[0..] == was;
      while queueMaxsize > 0 && |queues[q]| >= queueMaxsize
        invariant n <= |was| && q in queues && q in watch
        invariant queueMaxsize > 0 ==> n <= Overflow(|was|, queueMaxsize)
        invariant queueMaxsize <= 0 ==> n == 0
        invariant queues == old(queues)[q := was[n..]]
        invariant watch == old(watch)[q := w.(left := w.left + DropAll(was[..n]))]
        decreases |queues[q]|
      {
        assert w.left + DropAll(was[..n]) + [Dropped(was[n])] == w.left + DropAll(was[..n + 1]);
        watch := watch[q := watch[q].(left := watch[q].left + [Dropped(queues[q][0])])];
        queues := queues[q := queues[q][1..]];
        n := n + 1;
      }
      queues := queues[q := queues[q] + [m]];
    }

    lemma PutOneMore(qs: map<QueueId, seq<Message>>, ws: map<QueueId, Watch>, done: set<QueueId>, q: QueueId, m: Message)
      requires q !in done && q in qs && q in ws
      ensures PutAll(qs, done, m, queueMaxsize)[q] == qs[q] && WatchAll(ws, qs, done, queueMaxsize)[q] == ws[q]
      ensures PutAll(qs, done + {q}, m, queueMaxsize)
           == PutAll(qs, done, m, queueMaxsize)[q := Put(qs[q], m, queueMaxsize)]
      ensures WatchAll(ws, qs, done + {q}, queueMaxsize)
           == WatchAll(ws, qs, done, queueMaxsize)[q := PutWatch(ws[q], qs[q], queueMaxsize)]
    {
    }

    method PutToAll(targets: set<QueueId>, m: Message)
      requires forall q :: q in targets ==> q in queues && q in watch
      modifies this`queues, this`watch
      ensures queues == PutAll(old(queues), targets, m, queueMaxsize)
      ensures watch == WatchAll(old(watch), old(queues), targets, queueMaxsize)
    {
      var todo := targets;
      while todo != {}
        invariant todo <= targets
        invariant queues == PutAll(old(queues), targets - todo, m, queueMaxsize)
        invariant watch == WatchAll(old(watch), old(queues), targets - todo, queueMaxsize)
        decreases |todo|
      {
        var q :| q in todo;
        PutOneMore(old(queues), old(watch), targets - todo, q, m);
        assert targets - todo + {q} == targets - (todo - {q});
        PutLatest(q, m);
        todo := todo - {q};
      }
      assert targets - todo == targets;
    }

    method PublishLocked(r: RunId, m: Message)
      requires m.stream in log
      requires forall q :: q in Targets(Registered(), r) ==> q in queues && q in watch
      modifies this`history, this`queues, this`watch, this`log
      ensures history == old(history)[r := Last(Get(old(history), r, []) + [m], historyMaxsize)]
      ensures Wired() == Broadcast(old(Wired()), Targets(Registered(), r), m, queueMaxsize)
    {
      history := history[r := Last(Get(history, r, []) + [m], historyMaxsize)];
      log := log[m.stream := log[m.stream] + [m]];
      PutToAll(if r in runStreams then runStreams[r] else {}, m);
    }

    /** Number, publish and remember one message: the part every publishing method shares. */
    method EmitLocked(r: RunId, body: Body) returns (m: Message)
      requires r in streamIds && streamIds[r] in log
      requires forall q :: q in Targets(Registered(), r) ==> q in queues && q in watch
      modifies this`eventSeq, this`history, this`queues, this`watch, this`log
      ensures m == NextMessage(old(Registered()), r, body)
      ensures State() == Emit(old(State()), r, body)
    {
      var current := NextSeqLocked(r);
      m := Message(streamIds[r], current, r, body);
      PublishLocked(r, m);
    }

    /** Publish the message that closes the run's stream, and give up its replay data. */
    method EmitLastLocked(r: RunId, body: Body) returns (m: Message)
      requires r in streamIds && streamIds[r] in log
      requires forall q :: q in Targets(Registered(), r) ==> q in queues && q in watch
      modifies this`streamIds, this`eventSeq, this`history, this`replayRuns, this`terminalMessages
      modifies this`queues, this`watch, this`log, this`closing
      ensures m == NextMessage(old(Registered()), r, body)
      ensures State() == EmitLast(old(State()), r, body)
      ensures m.stream in closing && closing[m.stream] == m
    {
      m := EmitLocked(r, body);
      terminalMessages := terminalMessages[r := m];
      closing := closing[m.stream := m];
      ClearReplayLocked(r);
    }

    /** No lookup about a run can miss. */
    ghost predicate Reachable(r: RunId)
      reads this
    {
      && (r in terminalMessages ==>
            && r in streamIds && streamIds[r] in closing && terminalMessages[r] == closing[streamIds[r]]
            && terminalMessages[r].stream == streamIds[r])
      && (r in replayRuns ==> r in streamIds)
      && (forall x :: x in queues ==> x in watch)
      && (r in streamIds ==> streamIds[r] in log)
      && (forall q :: q in Targets(Registered(), r) ==> q in queues && q in watch)
    }

    // -------------------------------------------------------------- the steps

    lemma Taking(step: Step)
      requires Valid()
      ensures ApplyAll(Empty(Limits(queueMaxsize, historyMaxsize, historyRunMaxsize)), steps + [step])
           == Apply(State(), step)
    {
      assert (steps + [step])[..|steps|] == steps;
    }

    /** Whatever was done to it, the hub keeps its invariant. */
    lemma ValidIsSound()
      requires Valid()
      ensures Inv(State())
    {
      InvInitially(Limits(queueMaxsize, historyMaxsize, historyRunMaxsize));
      InvAlways(Empty(Limits(queueMaxsize, historyMaxsize, historyRunMaxsize)), steps);
    }

    lemma ValidReaches(r: RunId)
      requires Valid()
      ensures Reachable(r)
    {
      ValidIsSound();
      SoundReaches(r);
    }

    lemma SoundReaches(r: RunId)
      requires Inv(State())
      ensures Reachable(r)
    {
      forall q | q in Targets(Registered(), r) ensures q in queues && q in watch {
        assert UpToDate(Registered(), Wired(), q, r);
      }
      if r in terminalMessages {
        var s := streamIds[r];
        assert s in closing && log[s][|log[s]| - 1] == closing[s] && Numbered(log[s], s, owner[s]);
      }
    }

    // What the next step will come to, as an observer sees it.

    lemma SubscribeSeen(r: RunId)
      requires Valid()
      ensures Joins(State(), Apply(State(), Subscribe(r)), r, nextQueue)
    {
      ValidIsSound();
      SubscribeShows(State(), r);
    }

    lemma UnsubscribeSeen(r: RunId, queue: QueueId, clearIfEmpty: bool)
      requires Valid()
      ensures Leaves(State(), Apply(State(), Unsubscribe(r, queue, clearIfEmpty)), r, queue, clearIfEmpty)
    {
      ValidIsSound();
      LeaveShows(State(), r, queue, clearIfEmpty);
    }

    lemma FinishSeen(r: RunId, snapshot: Option<Snapshot>)
      requires Valid()
      ensures Finishes(State(), Apply(State(), Finish(r, snapshot)), r, snapshot,
                       if r in terminalMessages then Some(terminalMessages[r])
                       else if snapshot.Some? && r in streamIds then
                         Some(NextMessage(Registered(), r, Checkpoint(snapshot.value)))
                       else None)
    {
      ValidIsSound();
      FinishShows(State(), r, snapshot);
    }

    lemma SnapshotSeen(r: RunId, snapshot: Snapshot)
      requires Valid()
      ensures ShowsSnapshot(State(), Apply(State(), Step.PublishSnapshot(r, snapshot)), r, snapshot)
    {
      ValidIsSound();
      SnapshotShows(State(), r, snapshot);
    }

    lemma DeltaSeen(r: RunId, stageId: string, stepId: string, channel: string, delta: string)
      requires Valid()
      ensures ShowsDelta(State(), Apply(State(), PublishDelta(r, stageId, stepId, channel, delta)), r, stageId, stepId,
                         channel, delta)
    {
      ValidIsSound();
      DeltaShows(State(), r, stageId, stepId, channel, delta);
    }

    /** The queue a subscription hands out. */
    method NewQueue(r: RunId) returns (queue: QueueId)
      requires r in streamIds && r in eventSeq
      modifies this`queues, this`watch, this`nextQueue
      ensures queue == old(nextQueue)
      ensures Wired() == AddQueue(old(Wired()), r, streamIds[r], eventSeq[r])
    {
      queue := nextQueue;
      queues := queues[queue := []];
      watch := watch[queue := Watch(r, streamIds[r], eventSeq[r], [])];
      nextQueue := nextQueue + 1;
    }

    method JoinLocked(r: RunId) returns (queue: QueueId)
      modifies this`runStreams, this`streamIds, this`nextStream, this`log, this`owner
      modifies this`history, this`replayRuns, this`eventSeq, this`terminalMessages
      modifies this`queues, this`watch, this`nextQueue
      ensures State() == ApplySubscribe(old(State()), r)
      ensures queue == old(nextQueue) && r in streamIds && r in eventSeq
    {
      runStreams := runStreams[r := (if r in runStreams then runStreams[r] else {}) + {nextQueue}];
      TrackRunLocked(r);
      eventSeq := eventSeq[r := Get(eventSeq, r, 0)];
      queue := NewQueue(r);
    }

    method SubscribeRun(r: RunId, streamId: Option<StreamId>, afterSeq: Option<int>)
      returns (subscription: RunStreamSubscription)
      requires Valid()
      modifies this
      ensures Valid() && steps == old(steps) + [Subscribe(r)]
      ensures Joins(old(State()), State(), r, old(nextQueue))
      ensures r in streamIds && r in eventSeq && subscription == RunStreamSubscription(
                old(nextQueue), streamIds[r], eventSeq[r], Replay(Registered(), r, streamId, afterSeq))
    {
      SubscribeSeen(r);
      Taking(Subscribe(r));
      steps := steps + [Subscribe(r)];
      var queue := JoinLocked(r);
      var replay := ReplayLocked(r, streamId, afterSeq);
      subscription := RunStreamSubscription(queue, streamIds[r], eventSeq[r], replay);
    }

    method ReplayLocked(r: RunId, streamId: Option<StreamId>, afterSeq: Option<int>) returns (replay: seq<Message>)
      requires r in streamIds && r in eventSeq
      ensures replay == Replay(Registered(), r, streamId, afterSeq)
    {
      if streamId != Some(streamIds[r]) || afterSeq.None? || afterSeq.value >= eventSeq[r] {
        return [];
      }
      var kept, i := Get(history, r, []), 0;
      replay := [];
      while i < |kept|
        invariant i <= |kept|
        invariant replay + NewerThan(kept[i..], afterSeq.value) == NewerThan(kept, afterSeq.value)
      {
        assert kept[i..][0] == kept[i] && kept[i..][1..] == kept[i + 1..];
        if kept[i].seqNo > afterSeq.value {
          replay := replay + [kept[i]];
        }
        i := i + 1;
      }
      assert kept[i..] == [] && replay == NewerThan(kept, afterSeq.value);
      if replay == [] || !NumbersAre(replay, afterSeq.value + 1, eventSeq[r]) {
        return [];
      }
    }

    method UnsubscribeRun(r: RunId, queue: QueueId, clearIfEmpty: bool)
      requires Valid()
      modifies this
      ensures Valid() && steps == old(steps) + [Unsubscribe(r, queue, clearIfEmpty)]
      ensures Leaves(old(State()), State(), r, queue, clearIfEmpty)
    {
      UnsubscribeSeen(r, queue, clearIfEmpty);
      Taking(Unsubscribe(r, queue, clearIfEmpty));
      steps := steps + [Unsubscribe(r, queue, clearIfEmpty)];
      if r !in runStreams {
        return;
      }
      var subscribers := runStreams[r] - {queue};
      if subscribers != {} {
        runStreams := runStreams[r := subscribers];
        return;
      }
      runStreams := runStreams - {r};
      if clearIfEmpty {
        ClearReplayLocked(r);
      } else if r in replayRuns && |replayRuns| > historyRunMaxsize {
        ClearReplayLocked(r);
      } else if r !in replayRuns {
        ClearGenerationLocked(r);
      }
    }

    method FinishRun(r: RunId, snapshot: Option<Snapshot>) returns (final: Option<Message>)
      requires Valid()
      modifies this
      ensures Valid() && steps == old(steps) + [Finish(r, snapshot)]
      ensures Finishes(old(State()), State(), r, snapshot, final)
      ensures final.Some? ==> final.value.stream in closing && closing[final.value.stream] == final.value
    {
      ValidReaches(r);
      FinishSeen(r, snapshot);
      Taking(Finish(r, snapshot));
      steps := steps + [Finish(r, snapshot)];
      if r in terminalMessages {
        final := Some(terminalMessages[r]);
        ClearReplayLocked(r);
        return;
      }
      final := None;
      if snapshot.Some? && r in streamIds {
        var message := EmitLastLocked(r, Checkpoint(snapshot.value));
        final := Some(message);
      } else {
        ClearReplayLocked(r);
      }
    }

    method PublishSnapshot(r: RunId, snapshot: Snapshot)
      requires Valid()
      modifies this
      ensures Valid() && steps == old(steps) + [Step.PublishSnapshot(r, snapshot)]
      ensures ShowsSnapshot(old(State()), State(), r, snapshot)
    {
      ValidReaches(r);
      SnapshotSeen(r, snapshot);
      Taking(Step.PublishSnapshot(r, snapshot));
      steps := steps + [Step.PublishSnapshot(r, snapshot)];
      if r in terminalMessages {
        ClearReplayLocked(r);
        return;
      }
      var isTerminal := snapshot.status.Some? && snapshot.status.value != "RUNNING";
      if r in replayRuns && isTerminal {
        var _ := EmitLastLocked(r, Checkpoint(snapshot));
      } else if r in replayRuns {
        var _ := EmitLocked(r, Checkpoint(snapshot));
      } else if isTerminal {
        ClearReplayLocked(r);
      }
    }

    method PublishTraceStepDelta(r: RunId, stageId: string, stepId: string, channel: string, delta: string)
      requires Valid()
      modifies this
      ensures Valid() && steps == old(steps) + [PublishDelta(r, stageId, stepId, channel, delta)]
      ensures ShowsDelta(old(State()), State(), r, stageId, stepId, channel, delta)
    {
      ValidReaches(r);
      DeltaSeen(r, stageId, stepId, channel, delta);
      Taking(PublishDelta(r, stageId, stepId, channel, delta));
      steps := steps + [PublishDelta(r, stageId, stepId, channel, delta)];
      if delta == "" || r !in replayRuns {
        return;
      }
      var _ := EmitLocked(r, TraceDelta(stageId, stepId, channel, delta));
    }

    /** A consumer takes the next message from its queue; None means it has to wait. */
    method Take(queue: QueueId) returns (message: Option<Message>)
      requires Valid() && queue in queues
      modifies this
      ensures Valid() && steps == old(steps) + [Read(queue)]
      ensures message == if old(queues)[queue] == [] then None else Some(old(queues)[queue][0])
      ensures queues == if message.None? then old(queues) else old(queues)[queue := old(queues)[queue][1..]]
      ensures Registered() == old(Registered()) && log == old(log)
    {
      ValidReaches(0);
      Taking(Read(queue));
      steps := steps + [Read(queue)];
      if queues[queue] == [] {
        return None;
      }
      message := Some(queues[queue][0]);
      watch := watch[queue := watch[queue].(left := watch[queue].left + [Delivered(queues[queue][0])])];
      queues := queues[queue := queues[queue][1..]];
    }

    function CurrentSeq(r: RunId): nat
      reads this
    {
      Get(eventSeq, r, 0)
    }

    /** The number a caller sees is the number of the latest message of the run's stream. */
    lemma CurrentSeqIsLatest(r: RunId)
      requires Valid() && r in streamIds
      ensures streamIds[r] in log && CurrentSeq(r) == |log[streamIds[r]]|
    {
      ValidIsSound();
      assert Linked(Registered(), Wired());
    }
  }
}
