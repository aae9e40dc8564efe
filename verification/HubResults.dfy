/** The hub's promises, for every sequence of steps from the empty hub. */
module HubResults {
  import opened Arithmetic
  import opened Text
  import opened HubModel
  import opened HubInvariant

  // ---------------------------------------------------------------- which runs the hub knows

  /** A run is known exactly while it is retained or watched, and every map agrees. */
  ghost predicate Agree(reg: Registry, runMax: int) {
    && (forall r :: r in reg.streams <==> r in reg.subscribers || r in reg.retained)
    && (forall r :: r in reg.streams <==> r in reg.seqs)
    && (forall r :: r in reg.history ==> r in reg.retained)
    && (forall r :: r in reg.terminal ==> r in reg.subscribers && r !in reg.retained)
    && (forall r :: r in reg.subscribers ==> Subscribed(reg, r))
    && (|reg.retained| <= runMax || forall r :: r in reg.retained ==> Subscribed(reg, r))
  }

  lemma SoundAgrees(reg: Registry, runMax: int)
    requires Coherent(reg, {}) && Counted(reg) && Bounded(reg, runMax, {})
    ensures Agree(reg, runMax)
  {
  }

  lemma MapsAgree(limits: Limits, steps: seq<Step>)
    ensures Agree(ApplyAll(Empty(limits), steps).reg, limits.runMax)
  {
    InvInitially(limits);
    InvAlways(Empty(limits), steps);
    SoundAgrees(ApplyAll(Empty(limits), steps).reg, limits.runMax);
  }

  /** The runs of a list that eviction may drop. */
  function Evictable(subscribers: map<RunId, set<QueueId>>, runs: seq<RunId>, keep: RunId): seq<RunId> {
    if runs == [] then []
    else if runs[0] == keep || Get(subscribers, runs[0], {}) != {} then Evictable(subscribers, runs[1..], keep)
    else [runs[0]] + Evictable(subscribers, runs[1..], keep)
  }

  function RemoveAll(runs: seq<RunId>, gone: seq<RunId>): seq<RunId>
    decreases |gone|
  {
    if gone == [] then runs else RemoveAll(Remove(runs, gone[0]), gone[1..])
  }

  /** Eviction drops the longest-idle runs, and only as many as are too many. */
  lemma {:induction false} EvictsOldestIdle(reg: Registry, candidates: seq<RunId>, keep: RunId, runMax: int)
    requires Distinct(reg.retained) && Distinct(candidates)
    requires forall c :: c in candidates ==> c in reg.retained
    ensures var idle := Evictable(reg.subscribers, candidates, keep);
            var excess := |reg.retained| - runMax;
            Evict(reg, candidates, keep, runMax).retained
            == RemoveAll(reg.retained, idle[..if excess <= 0 then 0 else Min(excess, |idle|)])
    decreases |candidates|
  {
    if candidates != [] && |reg.retained| > runMax {
      var c, rest := candidates[0], candidates[1..];
      assert c !in rest;
      RemoveIs(reg.retained, c);
      if c != keep && !Subscribed(reg, c) {
        var idle := Evictable(reg.subscribers, rest, keep);
        var n := Min(|reg.retained| - runMax, |idle| + 1);
        assert ([c] + idle)[..n][1..] == idle[..n - 1];
        EvictsOldestIdle(ClearReplay(reg, c), rest, keep, runMax);
      } else {
        EvictsOldestIdle(reg, rest, keep, runMax);
      }
    }
  }

  // ---------------------------------------------------------------- closed streams

  /** A terminal checkpoint can only be the last message of a closed stream. */
  ghost predicate TerminalsLast(wire: Wire) {
    forall s, i :: s in wire.log && 0 <= i < |wire.log[s]| && IsTerminal(wire.log[s][i].body) ==>
      s in wire.closing && i == |wire.log[s]| - 1
  }

  lemma PublishTerminals(a: Wire, b: Wire, m: Message)
    requires TerminalsLast(a) && m.stream in a.log && m.stream !in a.closing
    requires b.log == a.log[m.stream := a.log[m.stream] + [m]] && Sub(a.closing, b.closing)
    requires IsTerminal(m.body) ==> m.stream in b.closing
    ensures TerminalsLast(b)
  {
    forall s, i | s in b.log && 0 <= i < |b.log[s]| && IsTerminal(b.log[s][i].body)
      ensures s in b.closing && i == |b.log[s]| - 1
    {
      if i < |a.log[s]| {
        assert IsTerminal(a.log[s][i].body);
      }
    }
  }

  lemma EmitTerminals(h: Hub, r: RunId, body: Body)
    requires Inv(h) && TerminalsLast(h.wire) && r in h.reg.streams && r !in h.reg.terminal
    ensures !IsTerminal(body) ==> TerminalsLast(Emit(h, r, body).wire)
    ensures TerminalsLast(EmitLast(h, r, body).wire)
  {
    var m := NextMessage(h.reg, r, body);
    NextIsAddressed(h.reg, h.wire, r, body);
    if !IsTerminal(body) {
      PublishTerminals(h.wire, Emit(h, r, body).wire, m);
    }
    PublishTerminals(h.wire, EmitLast(h, r, body).wire, m);
  }

  lemma StepTerminals(h: Hub, step: Step)
    requires Inv(h) && TerminalsLast(h.wire)
    ensures TerminalsLast(Apply(h, step).wire)
  {
    match step
    case Subscribe(r) =>
      SubscribeSound(h, r);
      JoinTerminals(h, r);
    case Finish(r, final) => FinishTerminals(h, r, final);
    case PublishSnapshot(r, snapshot) => SnapshotTerminals(h, r, Checkpoint(snapshot));
    case PublishDelta(r, stage, name, channel, delta) =>
      DeltaTerminals(h, r, TraceDelta(stage, name, channel, delta));
    case _ =>
  }

  lemma FinishTerminals(h: Hub, r: RunId, final: Option<Snapshot>)
    requires Inv(h) && TerminalsLast(h.wire)
    ensures TerminalsLast(ApplyFinish(h, r, final).wire)
  {
    if r !in h.reg.terminal && final.Some? && r in h.reg.streams {
      EmitTerminals(h, r, Checkpoint(final.value));
    }
  }

  lemma SnapshotTerminals(h: Hub, r: RunId, body: Body)
    requires Inv(h) && TerminalsLast(h.wire)
    ensures TerminalsLast(ApplySnapshot(h, r, body).wire)
  {
    if r !in h.reg.terminal && r in h.reg.streams {
      EmitTerminals(h, r, body);
    }
  }

  lemma DeltaTerminals(h: Hub, r: RunId, body: Body)
    requires Inv(h) && TerminalsLast(h.wire) && body.TraceDelta?
    ensures TerminalsLast(ApplyDelta(h, r, body).wire)
  {
    if r in h.reg.retained && r in h.reg.streams {
      EmitTerminals(h, r, body);
    }
  }

  lemma JoinTerminals(h: Hub, r: RunId)
    requires Inv(h) && TerminalsLast(h.wire)
    ensures TerminalsLast(JoinWire(h, r))
  {
    assert h.wire.nextStream !in h.wire.log;
  }

  lemma {:induction false} TerminalsAlwaysLast(limits: Limits, steps: seq<Step>)
    ensures TerminalsLast(ApplyAll(Empty(limits), steps).wire)
  {
    InvInitially(limits);
    if steps != [] {
      TerminalsAlwaysLast(limits, steps[..|steps| - 1]);
      InvAlways(Empty(limits), steps[..|steps| - 1]);
      StepTerminals(ApplyAll(Empty(limits), steps[..|steps| - 1]), steps[|steps| - 1]);
    }
  }

  /** How a stream looks at two moments of a run. */
  ghost predicate StreamKept(x: Wire, y: Wire, s: StreamId) {
    s in x.log ==>
      && s in y.log && x.log[s] <= y.log[s]
      && s in x.owner && Numbered(y.log[s], s, x.owner[s])
      && (s in x.closing ==>
            y.log[s] == x.log[s] && y.log[s] != [] && y.log[s][|y.log[s]| - 1] == x.closing[s])
      && (forall i :: 0 <= i < |x.log[s]| && IsTerminal(x.log[s][i].body) ==> i == |y.log[s]| - 1)
  }

  lemma EvolvingKeepsStream(x: Wire, y: Wire, s: StreamId)
    requires Logged(x) && Closed(x) && TerminalsLast(x) && Logged(y) && Evolves(x, y)
    ensures StreamKept(x, y, s)
  {
  }

  /**
   * Over a whole run: what was published under a stream id stays, in order, numbered from 1 and all about one run;
   * once a message closed the stream nothing follows it; and a terminal checkpoint always closes.
   */
  lemma TerminalIsLastAndUnique(limits: Limits, before: seq<Step>, after: seq<Step>, s: StreamId)
    ensures var x := ApplyAll(Empty(limits), before);
            StreamKept(x.wire, ApplyAll(x, after).wire, s)
  {
    var x := ApplyAll(Empty(limits), before);
    InvInitially(limits);
    InvAlways(Empty(limits), before);
    InvAlways(x, after);
    TerminalsAlwaysLast(limits, before);
    EvolvingKeepsStream(x.wire, ApplyAll(x, after).wire, s);
  }

  // ---------------------------------------------------------------- resuming

  lemma {:induction false} NewerThanOfSuffix(log: seq<Message>, k: nat, after: int)
    requires k <= |log| && after <= |log| && forall i :: 0 <= i < |log| ==> log[i].seqNo == i + 1
    ensures NewerThan(log[k..], after) == log[Max(k, after)..]
    decreases |log| - k
  {
    if k < |log| {
      NewerThanOfSuffix(log, k + 1, after);
      assert log[k..][1..] == log[k + 1..];
    }
  }

  lemma NumberedFromOne(log: seq<Message>, s: StreamId, r: RunId)
    requires Numbered(log, s, r)
    ensures forall i :: 0 <= i < |log| ==> log[i].seqNo == i + 1
  {
  }

  /** When a client can be given exactly what it missed. */
  predicate CanResume(reg: Registry, r: RunId, stream: Option<StreamId>, after: Option<int>)
    requires r in reg.streams
  {
    && stream == Some(reg.streams[r]) && after.Some? && 0 <= after.value < Get(reg.seqs, r, 0)
    && Get(reg.seqs, r, 0) - after.value <= |Get(reg.history, r, [])|
  }

  /** A replay is exactly what was published after the number asked for, or nothing at all. */
  lemma ReplayIsExact(h: Hub, r: RunId, stream: Option<StreamId>, after: Option<int>)
    requires Inv(h) && r in h.reg.streams
    ensures var log := Get(h.wire.log, h.reg.streams[r], []);
            && |log| == Get(h.reg.seqs, r, 0)
            && Replay(h.reg, r, stream, after)
               == if CanResume(h.reg, r, stream, after) then log[after.value..] else []
  {
    var log, history := h.wire.log[h.reg.streams[r]], Get(h.reg.history, r, []);
    assert IsSuffix(history, log);
    NumberedFromOne(log, h.reg.streams[r], h.wire.owner[h.reg.streams[r]]);
    if after.Some? && after.value < |log| {
      NewerIsExact(log, history, after.value);
    }
  }

  lemma NewerIsExact(log: seq<Message>, history: seq<Message>, after: int)
    requires IsSuffix(history, log) && after < |log| && forall i :: 0 <= i < |log| ==> log[i].seqNo == i + 1
    ensures var newer := NewerThan(history, after);
            && ((newer != [] && NumbersAre(newer, after + 1, |log|)) <==> 0 <= after && |log| - after <= |history|)
            && (0 <= after && |log| - after <= |history| ==> newer == log[after..])
  {
    NewerThanOfSuffix(log, |log| - |history|, after);
    var k := Max(|log| - |history|, after);
    if k != after && k < |log| {
      assert log[k..][0].seqNo == k + 1;
    }
  }

  lemma TailFrom(log: seq<Message>, replay: seq<Message>, after: int)
    requires replay == [] || (0 <= after <= |log| && replay == log[after..])
    ensures |replay| <= |log| && replay == log[|log| - |replay|..]
    ensures replay != [] ==> after == |log| - |replay|
  {
  }

  /** A replay is a tail of the stream's log, and one that is not empty starts where the client asked. */
  ghost predicate IsTail(log: seq<Message>, replay: seq<Message>, after: Option<int>) {
    && |replay| <= |log| && replay == log[|log| - |replay|..]
    && (replay != [] ==> after == Some(|log| - |replay|))
  }

  lemma ReplayIsTail(h: Hub, r: RunId, stream: Option<StreamId>, after: Option<int>)
    requires Inv(h) && r in h.reg.streams
    ensures IsTail(Get(h.wire.log, h.reg.streams[r], []), Replay(h.reg, r, stream, after), after)
  {
    ReplayIsExact(h, r, stream, after);
    var log, replay := Get(h.wire.log, h.reg.streams[r], []), Replay(h.reg, r, stream, after);
    TailFrom(log, replay, if after.Some? then after.value else 0);
  }

  /** The messages a consumer actually read. */
  function Reads(outs: seq<Out>): seq<Message> {
    if outs == [] then []
    else
      var last := outs[|outs| - 1];
      Reads(outs[..|outs| - 1]) + if last.Delivered? then [last.message] else []
  }

  predicate NothingDropped(outs: seq<Out>) {
    forall i :: 0 <= i < |outs| ==> outs[i].Delivered?
  }

  predicate Ascending(messages: seq<Message>) {
    forall i, j :: 0 <= i < j < |messages| ==> messages[i].seqNo < messages[j].seqNo
  }

  lemma {:induction false} ReadsInOrder(outs: seq<Out>, first: int)
    requires forall i :: 0 <= i < |outs| ==> outs[i].message.seqNo == first + i
    ensures Ascending(Reads(outs))
    ensures forall i :: 0 <= i < |Reads(outs)| ==> first <= Reads(outs)[i].seqNo < first + |outs|
    ensures NothingDropped(outs) ==> Reads(outs) == Messages(outs)
  {
    if outs != [] {
      var n := |outs| - 1;
      ReadsInOrder(outs[..n], first);
      assert Messages(outs) == Messages(outs[..n]) + [outs[n].message];
    }
  }

  /** What a subscription and its queue have seen of a stream, `start` messages into it. */
  ghost predicate SeesAll(log: seq<Message>, start: nat, got: seq<Message>, complete: bool) {
    && start <= |log| && got <= log[start..] && (complete ==> got == log[start..])
    && forall i :: 0 <= i < |got| ==> got[i].seqNo == start + i + 1
  }

  /** What a client got: a replay, then what left its queue, then what is still in it. */
  ghost predicate GotOnce(log: seq<Message>, start: nat, replay: seq<Message>, left: seq<Out>, pending: seq<Message>,
                          complete: bool) {
    && SeesAll(log, start, replay + Messages(left) + pending, complete)
    && Ascending(replay + Reads(left))
    && (NothingDropped(left) ==> replay + Reads(left) <= log[start..])
  }

  lemma Continued(log: seq<Message>, joined: nat, replay: seq<Message>, received: seq<Message>, complete: bool)
    requires |replay| <= joined <= |log| && replay == log[joined - |replay|..joined]
    requires received <= log[joined..] && (complete ==> received == log[joined..])
    requires forall i :: 0 <= i < |log| ==> log[i].seqNo == i + 1
    ensures SeesAll(log, joined - |replay|, replay + received, complete)
  {
    var start := joined - |replay|;
    assert log[start..] == log[start..joined] + log[joined..];
  }

  lemma LeftNumbered(log: seq<Message>, joined: nat, left: seq<Out>, pending: seq<Message>)
    requires joined <= |log| && Messages(left) + pending <= log[joined..]
    requires forall i :: 0 <= i < |log| ==> log[i].seqNo == i + 1
    ensures forall i :: 0 <= i < |left| ==> left[i].message.seqNo == joined + 1 + i
  {
    forall i | 0 <= i < |left| ensures left[i].message.seqNo == joined + 1 + i {
      assert (Messages(left) + pending)[i] == log[joined..][i];
    }
  }

  lemma AscendingAppend(a: seq<Message>, b: seq<Message>, m: int)
    requires Ascending(a) && Ascending(b)
    requires forall i :: 0 <= i < |a| ==> a[i].seqNo <= m
    requires forall i :: 0 <= i < |b| ==> m < b[i].seqNo
    ensures Ascending(a + b)
  {
  }

  lemma Accounted(log: seq<Message>, joined: nat, replay: seq<Message>, left: seq<Out>, pending: seq<Message>,
                  complete: bool)
    requires |replay| <= joined <= |log| && replay == log[joined - |replay|..joined]
    requires Messages(left) + pending <= log[joined..] && (complete ==> Messages(left) + pending == log[joined..])
    requires forall i :: 0 <= i < |log| ==> log[i].seqNo == i + 1
    ensures GotOnce(log, joined - |replay|, replay, left, pending, complete)
  {
    Continued(log, joined, replay, Messages(left) + pending, complete);
    assert replay + (Messages(left) + pending) == replay + Messages(left) + pending;
    LeftNumbered(log, joined, left, pending);
    ReadsInOrder(left, joined + 1);
    AscendingAppend(replay, Reads(left), joined);
  }

  /** What a subscription finds: its stream, a replay of the end of its log, and a queue that joins there. */
  ghost predicate JustJoined(s: Hub, q: QueueId, r: RunId, replay: seq<Message>, after: Option<int>) {
    && r in s.reg.streams && s.reg.streams[r] in s.wire.log && q in s.wire.watch
    && s.wire.watch[q] == Watch(r, s.reg.streams[r], |s.wire.log[s.reg.streams[r]]|, [])
    && IsTail(s.wire.log[s.reg.streams[r]], replay, after)
  }

  lemma SubscribedAt(h: Hub, r: RunId, stream: Option<StreamId>, after: Option<int>)
    requires Inv(h)
    ensures var s := Apply(h, Subscribe(r));
            Inv(s) && r in s.reg.streams
            && JustJoined(s, h.wire.nextQueue, r, Replay(s.reg, r, stream, after), after)
  {
    var s := Apply(h, Subscribe(r));
    SubscribeSound(h, r);
    NewQueueIsEmpty(h, r);
    JoinedHere(s, h.wire.nextQueue, r, stream, after);
  }

  lemma NewQueueIsEmpty(h: Hub, r: RunId)
    ensures var w, q := JoinWire(h, r), h.wire.nextQueue;
            q in w.queues && q in w.watch && w.queues[q] == [] && w.watch[q].left == []
  {
  }

  lemma JoinedHere(s: Hub, q: QueueId, r: RunId, stream: Option<StreamId>, after: Option<int>)
    requires Inv(s) && q in Get(s.reg.subscribers, r, {}) && q in s.wire.watch && q in s.wire.queues
    requires s.wire.watch[q].left == [] && s.wire.queues[q] == []
    ensures r in s.reg.streams && JustJoined(s, q, r, Replay(s.reg, r, stream, after), after)
  {
    JoinsAtEnd(s, q, r);
    ReplayIsTail(s, r, stream, after);
  }

  lemma JoinsAtEnd(s: Hub, q: QueueId, r: RunId)
    requires Watched(s.wire, s.limits.queueMax) && Current(s.reg, s.wire)
    requires q in Get(s.reg.subscribers, r, {}) && q in s.wire.watch && q in s.wire.queues
    requires s.wire.watch[q].left == [] && s.wire.queues[q] == []
    ensures r in s.reg.streams && s.reg.streams[r] in s.wire.log
    ensures s.wire.watch[q] == Watch(r, s.reg.streams[r], |s.wire.log[s.reg.streams[r]]|, [])
  {
    assert UpToDate(s.reg, s.wire, q, r);
    assert Faithful(s.wire.log, s.wire.watch[q], s.wire.queues[q], s.limits.queueMax);
  }

  /** What became of a subscription some time later. */
  ghost predicate ResumedOnce(s: Hub, e: Hub, q: QueueId, r: RunId, replay: seq<Message>, after: Option<int>) {
    && r in s.reg.streams && s.reg.streams[r] in s.wire.log && s.reg.streams[r] in e.wire.log
    && q in e.wire.watch && q in e.wire.queues
    && var id := s.reg.streams[r];
    && |replay| <= |s.wire.log[id]|
    && var start := |s.wire.log[id]| - |replay|;
    && (replay != [] ==> after == Some(start))
    && GotOnce(e.wire.log[id], start, replay, e.wire.watch[q].left, e.wire.queues[q], q in Get(e.reg.subscribers, r, {}))
  }

  /** A queue that joined a log at its end, some time later. */
  lemma QueueFollows(s: Wire, e: Wire, q: QueueId, queueMax: int)
    requires Logged(e) && Watched(e, queueMax) && Evolves(s, e) && q in s.watch
    ensures q in e.watch && q in e.queues && s.watch[q].stream in e.log
    ensures forall i :: 0 <= i < |e.log[s.watch[q].stream]| ==> e.log[s.watch[q].stream][i].seqNo == i + 1
    ensures s.watch[q].joined <= |e.log[s.watch[q].stream]|
    ensures Received(e.watch[q], e.queues[q]) <= e.log[s.watch[q].stream][s.watch[q].joined..]
    ensures Due(e.log, e.watch[q]) == e.log[s.watch[q].stream][s.watch[q].joined..]
  {
    var w := e.watch[q];
    assert LeftLater(s.watch[q], w);
    assert Faithful(e.log, w, e.queues[q], queueMax);
    NumberedFromOne(e.log[w.stream], w.stream, e.owner[w.stream]);
  }

  lemma ReplayStillThere(early: seq<Message>, log: seq<Message>, n: nat)
    requires n <= |early| && early <= log
    ensures early[|early| - n..] == log[|early| - n..|early|]
  {
  }

  lemma CompleteWhileSubscribed(e: Hub, q: QueueId, r: RunId)
    requires Current(e.reg, e.wire) && q in e.wire.watch && q in e.wire.queues && q in Get(e.reg.subscribers, r, {})
    ensures Received(e.wire.watch[q], e.wire.queues[q]) == Due(e.wire.log, e.wire.watch[q])
  {
    assert UpToDate(e.reg, e.wire, q, r);
  }

  /** A queue that joined a log at the end of `early`, when the log has become `log`. */
  ghost predicate Followed(early: seq<Message>, log: seq<Message>, w: Watch, pending: seq<Message>, complete: bool) {
    && early <= log && Received(w, pending) <= log[|early|..]
    && (complete ==> Received(w, pending) == log[|early|..])
    && forall i :: 0 <= i < |log| ==> log[i].seqNo == i + 1
  }

  lemma QueueFollowed(s: Hub, e: Hub, q: QueueId, r: RunId, replay: seq<Message>, after: Option<int>)
    requires JustJoined(s, q, r, replay, after)
    requires Logged(e.wire) && Watched(e.wire, e.limits.queueMax) && Current(e.reg, e.wire) && Evolves(s.wire, e.wire)
    ensures s.reg.streams[r] in e.wire.log && q in e.wire.watch && q in e.wire.queues
    ensures Followed(s.wire.log[s.reg.streams[r]], e.wire.log[s.reg.streams[r]], e.wire.watch[q], e.wire.queues[q],
                     q in Get(e.reg.subscribers, r, {}))
  {
    QueueFollows(s.wire, e.wire, q, e.limits.queueMax);
    if q in Get(e.reg.subscribers, r, {}) {
      CompleteWhileSubscribed(e, q, r);
    }
  }

  lemma QueueAccounted(early: seq<Message>, log: seq<Message>, replay: seq<Message>, after: Option<int>, w: Watch,
                       pending: seq<Message>, complete: bool)
    requires IsTail(early, replay, after) && Followed(early, log, w, pending, complete)
    ensures GotOnce(log, |early| - |replay|, replay, w.left, pending, complete)
  {
    ReplayStillThere(early, log, |replay|);
    Accounted(log, |early|, replay, w.left, pending, complete);
  }

  lemma FollowedUp(s: Hub, e: Hub, q: QueueId, r: RunId, replay: seq<Message>, after: Option<int>)
    requires r in s.reg.streams && s.reg.streams[r] in s.wire.log && s.reg.streams[r] in e.wire.log
    requires q in e.wire.watch && q in e.wire.queues && IsTail(s.wire.log[s.reg.streams[r]], replay, after)
    requires Followed(s.wire.log[s.reg.streams[r]], e.wire.log[s.reg.streams[r]], e.wire.watch[q], e.wire.queues[q],
                      q in Get(e.reg.subscribers, r, {}))
    ensures ResumedOnce(s, e, q, r, replay, after)
  {
    var id := s.reg.streams[r];
    QueueAccounted(s.wire.log[id], e.wire.log[id], replay, after, e.wire.watch[q], e.wire.queues[q],
                   q in Get(e.reg.subscribers, r, {}));
  }

  /**
   * Exactly once: whatever happens after a client subscribed, its replay, then what left its queue, then what is
   * still in it, are consecutive messages of the stream, starting right after the number it asked for. While the
   * client is subscribed they reach the latest message. What it reads is in order, and misses nothing unless the
   * queue dropped it.
   */
  lemma ExactlyOnce(h: Hub, r: RunId, stream: Option<StreamId>, after: Option<int>, later: seq<Step>)
    requires Inv(h)
    ensures var s := Apply(h, Subscribe(r));
            && r in s.reg.streams
            && ResumedOnce(s, ApplyAll(s, later), h.wire.nextQueue, r, Replay(s.reg, r, stream, after), after)
  {
    var s := Apply(h, Subscribe(r));
    SubscribedAt(h, r, stream, after);
    InvAlways(s, later);
    QueueFollowed(s, ApplyAll(s, later), h.wire.nextQueue, r, Replay(s.reg, r, stream, after), after);
    FollowedUp(s, ApplyAll(s, later), h.wire.nextQueue, r, Replay(s.reg, r, stream, after), after);
  }

  // ---------------------------------------------------------------- when messages are lost

  /** What a step may do to a queue. */
  predicate LeavesFairly(step: Step, q: QueueId, pending: seq<Message>, queueMax: int, a: seq<Out>, b: seq<Out>) {
    || b == a
    || (pending != [] && step == Read(q) && b == a + [Delivered(pending[0])])
    || (pending != [] && |pending| == queueMax && !step.Read? && b == a + [Dropped(pending[0])])
  }

  predicate TakesFairly(a: Hub, b: Hub, step: Step, q: QueueId) {
    && q in a.wire.queues && q in a.wire.watch && q in b.wire.watch
    && LeavesFairly(step, q, a.wire.queues[q], a.limits.queueMax, a.wire.watch[q].left, b.wire.watch[q].left)
  }

  lemma PutLeavesFairly(w: Watch, pending: seq<Message>, queueMax: int, q: QueueId, step: Step)
    requires !step.Read? && (queueMax > 0 ==> |pending| <= queueMax)
    ensures LeavesFairly(step, q, pending, queueMax, w.left, PutWatch(w, pending, queueMax).left)
  {
    var n := Overflow(|pending|, queueMax);
    if n == 0 {
      assert DropAll(pending[..n]) == [];
    } else {
      assert DropAll(pending[..n]) == [Dropped(pending[0])];
    }
  }

  lemma EmitLeavesFairly(h: Hub, r: RunId, body: Body, q: QueueId, step: Step)
    requires Watched(h.wire, h.limits.queueMax) && q in h.wire.watch && !step.Read? && r in h.reg.streams
    ensures q in h.wire.queues
    ensures LeavesFairly(step, q, h.wire.queues[q], h.limits.queueMax, h.wire.watch[q].left,
                         Emit(h, r, body).wire.watch[q].left)
    ensures EmitLast(h, r, body).wire.watch == Emit(h, r, body).wire.watch
  {
    var w, pending := h.wire.watch[q], h.wire.queues[q];
    assert Faithful(h.wire.log, w, pending, h.limits.queueMax);
    PutLeavesFairly(w, pending, h.limits.queueMax, q, step);
    assert Emit(h, r, body).wire.watch[q]
        == if q in Targets(h.reg, r) then PutWatch(w, pending, h.limits.queueMax) else w;
  }

  /**
   * A step takes at most one message out of a queue, its oldest. It is lost only when the queue was full, and then
   * because a newer one was published; reading is the only other way out.
   */
  lemma LostOnlyWhenFull(h: Hub, step: Step, q: QueueId)
    requires Inv(h) && q in h.wire.watch
    ensures TakesFairly(h, Apply(h, step), step, q)
  {
    if step.Subscribe? {
      SubscribeSound(h, step.run);
    }
    StepLeavesFairly(h, step, q);
  }

  lemma StepLeavesFairly(h: Hub, step: Step, q: QueueId)
    requires Watched(h.wire, h.limits.queueMax) && q in h.wire.watch
    requires step.Subscribe? ==> Apply(h, step).wire == JoinWire(h, step.run)
    ensures TakesFairly(h, Apply(h, step), step, q)
  {
    match step
    case Subscribe(r) =>
    case Finish(r, final) => FinishLeavesFairly(h, r, final, q, step);
    case PublishSnapshot(r, snapshot) => SnapshotLeavesFairly(h, r, Checkpoint(snapshot), q, step);
    case PublishDelta(r, stage, name, channel, delta) =>
      DeltaLeavesFairly(h, r, TraceDelta(stage, name, channel, delta), q, step);
    case _ =>
  }

  lemma FinishLeavesFairly(h: Hub, r: RunId, final: Option<Snapshot>, q: QueueId, step: Step)
    requires Watched(h.wire, h.limits.queueMax) && q in h.wire.watch && !step.Read?
    ensures TakesFairly(h, ApplyFinish(h, r, final), step, q)
  {
    if r in h.reg.streams && final.Some? {
      EmitLeavesFairly(h, r, Checkpoint(final.value), q, step);
    }
  }

  lemma SnapshotLeavesFairly(h: Hub, r: RunId, body: Body, q: QueueId, step: Step)
    requires Watched(h.wire, h.limits.queueMax) && q in h.wire.watch && !step.Read?
    ensures TakesFairly(h, ApplySnapshot(h, r, body), step, q)
  {
    if r !in h.reg.terminal && r in h.reg.retained && r in h.reg.streams {
      EmitLeavesFairly(h, r, body, q, step);
      assert ApplySnapshot(h, r, body).wire.watch == Emit(h, r, body).wire.watch;
    } else {
      assert ApplySnapshot(h, r, body).wire.watch == h.wire.watch;
    }
  }

  lemma DeltaLeavesFairly(h: Hub, r: RunId, body: Body, q: QueueId, step: Step)
    requires Watched(h.wire, h.limits.queueMax) && q in h.wire.watch && !step.Read?
    ensures TakesFairly(h, ApplyDelta(h, r, body), step, q)
  {
    if r in h.reg.streams {
      EmitLeavesFairly(h, r, body, q, step);
    }
  }
}
