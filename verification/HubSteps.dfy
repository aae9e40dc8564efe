/**
 * What each step of the hub does, said by what an observer sees before and after: the logs, the queues, and which runs
 * the maps speak of.
 */
module HubSteps {
  import opened Text
  import opened HubModel
  import opened HubInvariant

  predicate Listens(a: Hub, r: RunId, q: QueueId) {
    r in a.reg.subscribers && q in a.reg.subscribers[r]
  }

  /** The message is the last one in the queue, behind what was there; only a full queue gave up its oldest. */
  predicate GotLast(before: seq<Message>, after: seq<Message>, m: Message, queueMax: int) {
    if queueMax > 0 && |before| == queueMax then after == before[1..] + [m] else after == before + [m]
  }

  ghost predicate Reaches(a: Hub, b: Hub, r: RunId, m: Message) {
    && b.wire.queues.Keys == a.wire.queues.Keys
    && forall q :: q in a.wire.queues ==>
         if Listens(a, r, q) then GotLast(a.wire.queues[q], b.wire.queues[q], m, a.limits.queueMax)
         else b.wire.queues[q] == a.wire.queues[q]
  }

  /** One message more in the log of the run's stream, numbered next, about this run and with this body. */
  function NextOf(a: Hub, r: RunId, body: Body): Message
    requires r in a.reg.streams && a.reg.streams[r] in a.wire.log
  {
    Message(a.reg.streams[r], |a.wire.log[a.reg.streams[r]]| + 1, r, body)
  }

  /** The message is published: logged, and put last into the queue of every subscriber. */
  ghost predicate Publishes(a: Hub, b: Hub, r: RunId, body: Body) {
    && r in a.reg.streams && a.reg.streams[r] in a.wire.log
    && var m := NextOf(a, r, body);
       && b.wire.log == a.wire.log[m.stream := a.wire.log[m.stream] + [m]]
       && Reaches(a, b, r, m)
  }

  /** Nothing is published. */
  ghost predicate Silent(a: Hub, b: Hub) {
    b.wire == a.wire && b.reg.subscribers == a.reg.subscribers
  }

  /** The run is live as before, and its history holds one message more, up to its limit. */
  ghost predicate StaysLive(a: Hub, b: Hub, r: RunId) {
    && b.reg.subscribers == a.reg.subscribers && b.reg.streams == a.reg.streams && b.reg.retained == a.reg.retained
    && b.reg.terminal == a.reg.terminal && b.wire.closing == a.wire.closing
    && b.reg.history.Keys == a.reg.history.Keys + {r}
    && (forall x :: x in a.reg.history && x != r ==> b.reg.history[x] == a.reg.history[x])
    && var kept := if r in a.reg.history then |a.reg.history[r]| else 0;
       |b.reg.history[r]| == if kept < a.limits.historyMax then kept + 1 else a.limits.historyMax
  }

  /** The run is taken out of the order, which stays as it was for the others. */
  ghost predicate TakenOut(before: seq<RunId>, after: seq<RunId>, r: RunId) {
    || (r !in before && after == before)
    || (r !in after && exists x, y {:trigger x + y} :: before == x + [r] + y && after == x + y)
  }

  /** The run's replay data is gone and, when nobody listens, everything about it. */
  ghost predicate Released(a: Registry, b: Registry, r: RunId, terminal: map<RunId, Message>, seqs: map<RunId, nat>) {
    && b.subscribers == a.subscribers && b.history == a.history - {r} && TakenOut(a.retained, b.retained, r)
    && if r in a.subscribers && a.subscribers[r] != {} then
         b.streams == a.streams && b.seqs == seqs && b.terminal == terminal
       else b.streams == a.streams - {r} && b.seqs == seqs - {r} && b.terminal == terminal - {r}
  }

  /** The message closes the run's stream. */
  ghost predicate Closes(a: Hub, b: Hub, r: RunId, m: Message) {
    && b.wire.closing == a.wire.closing[m.stream := m]
    && Released(a.reg, b.reg, r, a.reg.terminal[r := m], a.reg.seqs[r := m.seqNo])
  }

  /** The run's replay data is given up without a message. */
  ghost predicate Drops(a: Hub, b: Hub, r: RunId) {
    Silent(a, b) && Released(a.reg, b.reg, r, a.reg.terminal, a.reg.seqs)
  }

  /** The checkpoint is published whole, and closes the stream when it is the last one. */
  ghost predicate ShowsWhole(a: Hub, b: Hub, r: RunId, snapshot: Snapshot, ends: bool) {
    && Publishes(a, b, r, Checkpoint(snapshot))
    && if ends then Closes(a, b, r, NextOf(a, r, Checkpoint(snapshot))) else StaysLive(a, b, r)
  }

  /** What publishing a checkpoint comes to. */
  ghost predicate ShowsSnapshot(a: Hub, b: Hub, r: RunId, snapshot: Snapshot) {
    var ends := snapshot.status.Some? && snapshot.status.value != "RUNNING";
    if r in a.reg.terminal then Drops(a, b, r)
    else if r in a.reg.retained then ShowsWhole(a, b, r, snapshot, ends)
    else if ends then Drops(a, b, r)
    else b == a
  }

  /** What publishing a piece of a step's text comes to. */
  ghost predicate ShowsDelta(a: Hub, b: Hub, r: RunId, stage: string, step: string, channel: string, delta: string) {
    if delta != "" && r in a.reg.retained then
      Publishes(a, b, r, TraceDelta(stage, step, channel, delta)) && StaysLive(a, b, r)
    else b == a
  }

  /** What finishing a run comes to: it is closed by a last checkpoint, unless it has none or was closed before. */
  ghost predicate Finishes(a: Hub, b: Hub, r: RunId, snapshot: Option<Snapshot>, final: Option<Message>) {
    if r in a.reg.terminal then
      && final == Some(a.reg.terminal[r])
      && Drops(a, b, r)
    else if snapshot.Some? && r in a.reg.streams then
      && Publishes(a, b, r, Checkpoint(snapshot.value))
      && final == Some(NextOf(a, r, Checkpoint(snapshot.value)))
      && Closes(a, b, r, final.value)
    else final == None && Drops(a, b, r)
  }

  /** The first comes before the second. */
  predicate Precedes(runs: seq<RunId>, x: RunId, y: RunId) {
    exists i, j :: 0 <= i < j < |runs| && runs[i] == x && runs[j] == y
  }

  /** Some runs are dropped; nothing comes in, and the others keep their order. */
  ghost predicate Thinned(before: seq<RunId>, after: seq<RunId>) {
    && (forall x :: x in after ==> x in before)
    && (forall x, y :: Precedes(after, x, y) ==> Precedes(before, x, y))
  }

  /** The run is the latest in use; those dropped for it had no listener, and only too many are dropped. */
  ghost predicate InUse(a: Registry, b: Registry, r: RunId, runMax: int) {
    && EndsWithRun(b.retained, r)
    && Thinned(a.retained, b.retained[..|b.retained| - 1])
    && forall x :: x in a.retained && x !in b.retained ==>
         !(x in a.subscribers && a.subscribers[x] != {})
         && |a.retained| + (if r in a.retained then 0 else 1) > runMax
  }

  predicate EndsWithRun(runs: seq<RunId>, r: RunId) {
    runs != [] && runs[|runs| - 1] == r
  }

  /** The run has one listener more, and it is now the latest in use. */
  ghost predicate Listed(a: Registry, b: Registry, r: RunId, q: QueueId, runMax: int) {
    && b.subscribers == a.subscribers[r := (if r in a.subscribers then a.subscribers[r] else {}) + {q}]
    && r in b.streams && r in b.seqs
    && (r in a.terminal ==> b.retained == a.retained)
    && (r !in a.terminal ==> InUse(a, b, r, runMax))
    && (r in a.history ==> r in b.history && b.history[r] == a.history[r])
  }

  /** There is one new, empty queue; the run keeps its stream, or gets one with an empty log. */
  ghost predicate Wired(a: Hub, b: Hub, r: RunId, q: QueueId)
    requires r in b.reg.streams
  {
    && q !in a.wire.queues && b.wire.queues == a.wire.queues[q := []]
    && if r in a.reg.streams then b.reg.streams[r] == a.reg.streams[r] && b.wire.log == a.wire.log
       else b.reg.streams[r] !in a.wire.log && b.wire.log == a.wire.log[b.reg.streams[r] := []]
  }

  /** What subscribing comes to. */
  ghost predicate Joins(a: Hub, b: Hub, r: RunId, q: QueueId) {
    Listed(a.reg, b.reg, r, q, a.limits.runMax) && Wired(a, b, r, q)
  }

  /** What unsubscribing comes to: this queue listens no more, and a run that nobody listens to may be forgotten. */
  ghost predicate Leaves(a: Hub, b: Hub, r: RunId, q: QueueId, clearIfEmpty: bool) {
    && b.wire == a.wire
    && if r !in a.reg.subscribers then b == a
       else
         var rest := a.reg.subscribers[r] - {q};
         if rest != {} then b.reg == a.reg.(subscribers := a.reg.subscribers[r := rest])
         else
           && b.reg.subscribers == a.reg.subscribers - {r}
           && var full := |a.reg.retained| > a.limits.runMax;
              if r in a.reg.retained && !clearIfEmpty && !full then b.reg == a.reg.(subscribers := b.reg.subscribers)
              else
                && r !in b.reg.streams && r !in b.reg.history && r !in b.reg.terminal && r !in b.reg.seqs
                && TakenOut(a.reg.retained, b.reg.retained, r)
  }

  // ---------------------------------------------------------------- each step does that

  lemma {:induction false} TakenOutBehind(first: RunId, before: seq<RunId>, after: seq<RunId>, r: RunId)
    requires TakenOut(before, after, r) && first != r
    ensures TakenOut([first] + before, [first] + after, r)
  {
    if r in before {
      var x, y {:trigger x + y} :| before == x + [r] + y && after == x + y;
      var fx := [first] + x;
      assert fx + y == [first] + after;
      assert fx + [r] + y == [first] + before;
    }
  }

  lemma {:induction false} RemoveTakesOut(runs: seq<RunId>, r: RunId)
    requires Distinct(runs)
    ensures TakenOut(runs, Remove(runs, r), r)
  {
    RemoveIs(runs, r);
    if runs != [] && r in runs {
      if runs[0] == r {
        RemoveAbsent(runs[1..], r);
        assert runs == [] + [r] + runs[1..] && Remove(runs, r) == [] + runs[1..];
      } else {
        RemoveTakesOut(runs[1..], r);
        TakenOutBehind(runs[0], runs[1..], Remove(runs[1..], r), r);
        assert runs == [runs[0]] + runs[1..];
      }
    } else {
      RemoveAbsent(runs, r);
    }
  }

  lemma {:induction false} RemoveAbsent(runs: seq<RunId>, r: RunId)
    requires r !in runs
    ensures Remove(runs, r) == runs
  {
    if runs != [] {
      RemoveAbsent(runs[1..], r);
    }
  }

  lemma PutIsLast(pending: seq<Message>, m: Message, queueMax: int)
    requires queueMax > 0 ==> |pending| <= queueMax
    ensures GotLast(pending, Put(pending, m, queueMax), m, queueMax)
  {
  }

  lemma EmitPublishes(h: Hub, r: RunId, body: Body)
    requires Inv(h) && r in h.reg.streams
    ensures Publishes(h, Emit(h, r, body), r, body)
    ensures NextMessage(h.reg, r, body) == NextOf(h, r, body)
  {
    var m := NextMessage(h.reg, r, body);
    forall q | q in h.wire.queues
      ensures if Listens(h, r, q) then
                GotLast(h.wire.queues[q], Emit(h, r, body).wire.queues[q], m, h.limits.queueMax)
              else Emit(h, r, body).wire.queues[q] == h.wire.queues[q]
    {
      assert Faithful(h.wire.log, h.wire.watch[q], h.wire.queues[q], h.limits.queueMax);
      PutIsLast(h.wire.queues[q], m, h.limits.queueMax);
    }
  }

  lemma EmitStaysLive(h: Hub, r: RunId, body: Body)
    requires Inv(h) && r in h.reg.streams
    ensures StaysLive(h, Emit(h, r, body), r)
  {
    EmitRecords(h, r, body);
    RecordRemembers(h.reg, r, NextMessage(h.reg, r, body), h.limits.historyMax);
  }

  lemma RecordRemembers(reg: Registry, r: RunId, m: Message, historyMax: nat)
    requires r in reg.history ==> |reg.history[r]| <= historyMax
    ensures var b, kept := Record(reg, r, m, historyMax), if r in reg.history then |reg.history[r]| else 0;
            && b.history.Keys == reg.history.Keys + {r}
            && (forall x :: x in reg.history && x != r ==> b.history[x] == reg.history[x])
            && |b.history[r]| == if kept < historyMax then kept + 1 else historyMax
  {
  }

  lemma ForgetReleases(reg: Registry, r: RunId)
    requires Distinct(reg.retained)
    ensures Released(reg, ClearReplay(reg, r), r, reg.terminal, reg.seqs)
  {
    RemoveTakesOut(reg.retained, r);
  }

  lemma ReleasedAfter(a: Registry, c: Registry, b: Registry, r: RunId)
    requires Released(c, b, r, c.terminal, c.seqs)
    requires c.subscribers == a.subscribers && c.streams == a.streams && c.retained == a.retained
    requires c.history - {r} == a.history - {r}
    ensures Released(a, b, r, c.terminal, c.seqs)
  {
  }

  lemma EmitRecords(h: Hub, r: RunId, body: Body)
    requires r in h.reg.streams
    ensures var e, m := Emit(h, r, body), NextMessage(h.reg, r, body);
            && e.reg.subscribers == h.reg.subscribers && e.reg.streams == h.reg.streams
            && e.reg.retained == h.reg.retained && e.reg.terminal == h.reg.terminal
            && e.reg.history - {r} == h.reg.history - {r} && e.reg.seqs == h.reg.seqs[r := m.seqNo]
            && e.wire.closing == h.wire.closing
  {
  }

  lemma SamePublished(a: Hub, e: Hub, b: Hub, r: RunId, body: Body)
    requires Publishes(a, e, r, body) && b.wire.log == e.wire.log && b.wire.queues == e.wire.queues
    ensures Publishes(a, b, r, body)
  {
  }

  lemma EmitLastCloses(h: Hub, r: RunId, body: Body)
    requires Inv(h) && r in h.reg.streams
    ensures Publishes(h, EmitLast(h, r, body), r, body)
    ensures Closes(h, EmitLast(h, r, body), r, NextOf(h, r, body))
  {
    var e := Emit(h, r, body);
    var c := Close(e, r, NextMessage(h.reg, r, body));
    EmitPublishes(h, r, body);
    EmitRecords(h, r, body);
    SamePublished(h, e, EmitLast(h, r, body), r, body);
    ForgetReleases(c.reg, r);
    ReleasedAfter(h.reg, c.reg, ClearReplay(c.reg, r), r);
  }

  lemma DeltaShows(h: Hub, r: RunId, stage: string, step: string, channel: string, delta: string)
    requires Inv(h)
    ensures ShowsDelta(h, Apply(h, PublishDelta(r, stage, step, channel, delta)), r, stage, step, channel, delta)
  {
    if delta != "" && r in h.reg.retained {
      EmitPublishes(h, r, TraceDelta(stage, step, channel, delta));
      EmitStaysLive(h, r, TraceDelta(stage, step, channel, delta));
    }
  }

  lemma ForgetDrops(h: Hub, r: RunId)
    requires Distinct(h.reg.retained)
    ensures Drops(h, Forget(h, r), r)
  {
    ForgetReleases(h.reg, r);
  }

  lemma CheckpointShows(h: Hub, r: RunId, snapshot: Snapshot, ends: bool)
    requires Inv(h) && r !in h.reg.terminal && r in h.reg.retained
    ensures var body := Checkpoint(snapshot);
            ShowsWhole(h, if ends then EmitLast(h, r, body) else Emit(h, r, body), r, snapshot, ends)
  {
    EmitPublishes(h, r, Checkpoint(snapshot));
    if ends {
      EmitLastCloses(h, r, Checkpoint(snapshot));
    } else {
      EmitStaysLive(h, r, Checkpoint(snapshot));
    }
  }

  lemma SnapshotIs(h: Hub, r: RunId, snapshot: Snapshot)
    requires r in h.reg.retained ==> r in h.reg.streams
    ensures Apply(h, PublishSnapshot(r, snapshot))
         == var body := Checkpoint(snapshot);
            if r in h.reg.terminal || (r !in h.reg.retained && IsTerminal(body)) then Forget(h, r)
            else if r !in h.reg.retained then h
            else if IsTerminal(body) then EmitLast(h, r, body) else Emit(h, r, body)
  {
  }

  lemma SnapshotShows(h: Hub, r: RunId, snapshot: Snapshot)
    requires Inv(h)
    ensures ShowsSnapshot(h, Apply(h, PublishSnapshot(r, snapshot)), r, snapshot)
  {
    SnapshotIs(h, r, snapshot);
    ForgetDrops(h, r);
    if r !in h.reg.terminal && r in h.reg.retained {
      CheckpointShows(h, r, snapshot, IsTerminal(Checkpoint(snapshot)));
    }
  }

  lemma FinishShows(h: Hub, r: RunId, snapshot: Option<Snapshot>)
    requires Inv(h)
    ensures Finishes(h, Apply(h, Finish(r, snapshot)), r, snapshot,
                     if r in h.reg.terminal then Some(h.reg.terminal[r])
                     else if snapshot.Some? && r in h.reg.streams then
                       Some(NextMessage(h.reg, r, Checkpoint(snapshot.value)))
                     else None)
  {
    if r !in h.reg.terminal && snapshot.Some? && r in h.reg.streams {
      EmitPublishes(h, r, Checkpoint(snapshot.value));
      EmitLastCloses(h, r, Checkpoint(snapshot.value));
    } else {
      ForgetDrops(h, r);
    }
  }

  lemma LeaveShows(h: Hub, r: RunId, q: QueueId, clearIfEmpty: bool)
    requires Inv(h)
    ensures Leaves(h, Apply(h, Unsubscribe(r, q, clearIfEmpty)), r, q, clearIfEmpty)
  {
    RemoveTakesOut(h.reg.retained, r);
    if r in h.reg.subscribers && h.reg.subscribers[r] - {q} == {} {
      LastLeaves(h.reg, r, q, clearIfEmpty, h.limits.runMax);
    }
  }

  lemma LastLeaves(reg: Registry, r: RunId, q: QueueId, clearIfEmpty: bool, runMax: int)
    requires HubInvariant.Coherent(reg, {}) && r in reg.subscribers && reg.subscribers[r] - {q} == {}
    requires TakenOut(reg.retained, Remove(reg.retained, r), r)
    ensures var after, full := Leave(reg, r, q, clearIfEmpty, runMax), |reg.retained| > runMax;
            && after.subscribers == reg.subscribers - {r}
            && if r in reg.retained && !clearIfEmpty && !full then after == reg.(subscribers := after.subscribers)
               else
                 && r !in after.streams && r !in after.history && r !in after.terminal && r !in after.seqs
                 && TakenOut(reg.retained, after.retained, r)
  {
  }

  // ---------------------------------------------------------------- subscribing

  lemma {:induction false} RemoveThins(runs: seq<RunId>, r: RunId)
    requires Distinct(runs)
    ensures Thinned(runs, Remove(runs, r)) && (forall x :: x in Remove(runs, r) <==> x in runs && x != r)
  {
    RemoveIs(runs, r);
    if runs != [] {
      RemoveThins(runs[1..], r);
      var rest := Remove(runs[1..], r);
      forall x, y | Precedes(Remove(runs, r), x, y) ensures Precedes(runs, x, y) {
        var i, j :| 0 <= i < j < |Remove(runs, r)| && Remove(runs, r)[i] == x && Remove(runs, r)[j] == y;
        if runs[0] != r && i == 0 {
          assert y in rest && y in runs[1..];
          var k :| 0 <= k < |runs[1..]| && runs[1..][k] == y;
          assert runs[0] == x && runs[k + 1] == y;
        } else {
          var n := if runs[0] == r then 0 else 1;
          assert rest[i - n] == x && rest[j - n] == y && Precedes(rest, x, y);
          PrecedesLater(runs, x, y);
        }
      }
    }
  }

  lemma PrecedesLater(runs: seq<RunId>, x: RunId, y: RunId)
    requires runs != [] && Precedes(runs[1..], x, y)
    ensures Precedes(runs, x, y)
  {
    var i, j :| 0 <= i < j < |runs[1..]| && runs[1..][i] == x && runs[1..][j] == y;
    assert runs[i + 1] == x && runs[j + 1] == y;
  }

  lemma {:induction false} RemoveKeepsLast(runs: seq<RunId>, r: RunId)
    requires runs != [] && runs[|runs| - 1] != r
    ensures Remove(runs, r) != [] && Remove(runs, r)[|Remove(runs, r)| - 1] == runs[|runs| - 1]
  {
    if |runs| > 1 {
      RemoveKeepsLast(runs[1..], r);
    }
  }

  /** Eviction drops idle runs only, never the one in use, and only when too many are kept. */
  lemma {:induction false} EvictThins(reg: Registry, candidates: seq<RunId>, keep: RunId, runMax: int)
    requires Distinct(reg.retained)
    ensures var after := Evict(reg, candidates, keep, runMax);
            && Distinct(after.retained) && Thinned(reg.retained, after.retained)
            && (EndsWithRun(reg.retained, keep) ==> EndsWithRun(after.retained, keep))
            && (forall x :: x in reg.retained && x !in after.retained ==>
                  !Subscribed(reg, x) && |reg.retained| > runMax)
    decreases |candidates|
  {
    if candidates != [] && |reg.retained| > runMax {
      var c := candidates[0];
      if c != keep && !Subscribed(reg, c) {
        RemoveThins(reg.retained, c);
        RemoveIs(reg.retained, c);
        if EndsWithRun(reg.retained, keep) {
          RemoveKeepsLast(reg.retained, c);
        }
        EvictThins(ClearReplay(reg, c), candidates[1..], keep, runMax);
      } else {
        EvictThins(reg, candidates[1..], keep, runMax);
      }
    }
  }

  /** What is known about the run in use. */
  predicate SameAbout(a: Registry, b: Registry, r: RunId) {
    && b.subscribers == a.subscribers
    && (r in b.streams <==> r in a.streams) && Get(b.streams, r, 0) == Get(a.streams, r, 0)
    && (r in b.history <==> r in a.history) && Get(b.history, r, []) == Get(a.history, r, [])
  }

  lemma {:induction false} EvictSpares(reg: Registry, candidates: seq<RunId>, keep: RunId, runMax: int)
    ensures SameAbout(reg, Evict(reg, candidates, keep, runMax), keep)
    decreases |candidates|
  {
    if candidates != [] && |reg.retained| > runMax {
      var c := candidates[0];
      EvictSpares(if c != keep && !Subscribed(reg, c) then ClearReplay(reg, c) else reg, candidates[1..], keep, runMax);
    }
  }

  /** With the run moved to the end, what came before it is thinned from what was there. */
  lemma MovedThins(before: seq<RunId>, r: RunId, after: seq<RunId>)
    requires Distinct(before) && Distinct(after) && EndsWithRun(after, r)
    requires Thinned(Remove(before, r) + [r], after)
    ensures Thinned(before, after[..|after| - 1])
  {
    var front := after[..|after| - 1];
    RemoveThins(before, r);
    forall x | x in front ensures x in before {
      var i :| 0 <= i < |front| && front[i] == x;
      assert after[i] == x && x != r;
      assert x in Remove(before, r) + [r];
    }
    forall x, y | Precedes(front, x, y) ensures Precedes(before, x, y) {
      var i, j :| 0 <= i < j < |front| && front[i] == x && front[j] == y;
      assert after[i] == x && after[j] == y && y != r && Precedes(after, x, y);
      NotTheLast(Remove(before, r), r, x, y);
    }
  }

  lemma NotTheLast(runs: seq<RunId>, r: RunId, x: RunId, y: RunId)
    requires Precedes(runs + [r], x, y) && y != r
    ensures Precedes(runs, x, y)
  {
    var i, j :| 0 <= i < j < |runs + [r]| && (runs + [r])[i] == x && (runs + [r])[j] == y;
    assert runs[i] == x && runs[j] == y;
  }

  lemma TrackUses(reg: Registry, r: RunId, newId: StreamId, runMax: int)
    requires Distinct(reg.retained) && r !in reg.terminal
    ensures InUse(reg, Track(reg, r, newId, runMax), r, runMax)
  {
    var moved := MoveToEnd(Name(reg, r, newId), r);
    RemoveIs(reg.retained, r);
    RemoveAbsentOr(reg.retained, r);
    EvictThins(moved, moved.retained, r, runMax);
    MovedThins(reg.retained, r, Evict(moved, moved.retained, r, runMax).retained);
  }

  lemma TrackKeeps(reg: Registry, r: RunId, newId: StreamId, runMax: int)
    ensures var after := Track(reg, r, newId, runMax);
            && SameAbout(Name(reg, r, newId), after, r) && r in after.streams
            && (r in reg.terminal ==> after.retained == reg.retained)
  {
    if r !in reg.terminal {
      var moved := MoveToEnd(Name(reg, r, newId), r);
      EvictSpares(moved, moved.retained, r, runMax);
    }
  }

  lemma RemoveAbsentOr(runs: seq<RunId>, r: RunId)
    requires Distinct(runs)
    ensures r !in runs ==> Remove(runs, r) == runs
  {
    if r !in runs {
      RemoveAbsent(runs, r);
    }
  }

  /** A new listener of the run itself changes nothing about that. */
  lemma InUseAnyway(a: Registry, joined: Registry, b: Registry, r: RunId, runMax: int)
    requires InUse(joined, b, r, runMax) && joined.retained == a.retained
    requires forall x :: x in a.subscribers && x != r ==>
               x in joined.subscribers && joined.subscribers[x] == a.subscribers[x]
    ensures InUse(a, b, r, runMax)
  {
    assert b.retained[|b.retained| - 1] == r && r in b.retained;
  }

  lemma JoinedRegistry(reg: Registry, r: RunId, q: QueueId, newId: StreamId, runMax: int)
    requires Distinct(reg.retained)
    ensures var after := StartSeq(Track(AddSubscriber(reg, r, q), r, newId, runMax), r);
            Listed(reg, after, r, q, runMax) && after.streams[r] == Get(reg.streams, r, newId)
  {
    var joined := AddSubscriber(reg, r, q);
    TrackKeeps(joined, r, newId, runMax);
    if r !in reg.terminal {
      TrackUses(joined, r, newId, runMax);
      InUseAnyway(reg, joined, StartSeq(Track(joined, r, newId, runMax), r), r, runMax);
    }
  }

  lemma JoinedWire(h: Hub, r: RunId)
    requires Logged(h.wire) && Watched(h.wire, h.limits.queueMax)
    requires var b := Apply(h, Subscribe(r));
             r in b.reg.streams && b.reg.streams[r] == Get(h.reg.streams, r, h.wire.nextStream)
    ensures Wired(h, Apply(h, Subscribe(r)), r, h.wire.nextQueue)
  {
    assert h.wire.nextQueue !in h.wire.queues && h.wire.nextStream !in h.wire.log;
  }

  lemma SubscribeShows(h: Hub, r: RunId)
    requires Inv(h)
    ensures Joins(h, Apply(h, Subscribe(r)), r, h.wire.nextQueue)
  {
    JoinedRegistry(h.reg, r, h.wire.nextQueue, h.wire.nextStream, h.limits.runMax);
    JoinedWire(h, r);
  }
}
