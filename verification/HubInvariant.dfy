/**
 * What every step of the hub keeps: the maps agree about which runs are live, every counter is the length of its
 * stream's log, histories are suffixes of logs, queues account for every message they were due, and a stream that was
 * closed ends in the message that closed it and is frozen.
 */
module HubInvariant {
  import opened Text
  import opened HubModel

  /** Which runs each map speaks of; `loose` holds the runs in the middle of being changed. */
  ghost predicate Coherent(reg: Registry, loose: set<RunId>) {
    && Distinct(reg.retained)
    && (forall r :: r in reg.seqs ==> r in reg.streams)
    && (forall r :: r in reg.subscribers ==> reg.subscribers[r] != {} && r in reg.streams)
    && (forall r :: r in reg.retained ==> r in reg.streams)
    && (forall r :: r in reg.streams && r !in loose ==> r in reg.retained || r in reg.subscribers)
    && (forall r :: r in reg.history && r !in loose ==> r in reg.retained)
    && (forall r :: r in reg.terminal ==> r in reg.streams)
    && (forall r :: r in reg.terminal && r !in loose ==> r in reg.subscribers && r !in reg.retained)
  }

  /** Every live run has a counter. */
  ghost predicate Counted(reg: Registry) {
    forall r :: r in reg.streams ==> r in reg.seqs
  }

  /** Few enough runs are retained, or none of them is idle. */
  ghost predicate Bounded(reg: Registry, runMax: int, loose: set<RunId>) {
    |reg.retained| <= runMax || forall r :: r in reg.retained && r !in loose ==> r in reg.subscribers
  }

  /** Messages of a stream are numbered 1, 2, 3, ... and name the stream and its run. */
  predicate Numbered(messages: seq<Message>, stream: StreamId, r: RunId) {
    forall i :: 0 <= i < |messages| ==>
      messages[i].seqNo == i + 1 && messages[i].stream == stream && messages[i].run == r
  }

  ghost predicate Logged(wire: Wire) {
    && (forall s: StreamId :: s in wire.log <==> s < wire.nextStream)
    && (forall s :: s in wire.log ==> s in wire.owner && Numbered(wire.log[s], s, wire.owner[s]))
    && (forall s :: s in wire.owner ==> s in wire.log)
  }

  /** Every live run has a stream of its own, and its counter is the length of that stream's log. */
  ghost predicate Linked(reg: Registry, wire: Wire) {
    && (forall r :: r in reg.streams ==> reg.streams[r] in wire.log && Get(wire.owner, reg.streams[r], r + 1) == r)
    && (forall r :: r in reg.streams && r in reg.seqs ==> reg.seqs[r] == |Get(wire.log, reg.streams[r], [])|)
  }

  ghost predicate Remembered(reg: Registry, wire: Wire, historyMax: nat) {
    forall r :: r in reg.history ==>
      r in reg.streams && |reg.history[r]| <= historyMax
      && IsSuffix(reg.history[r], Get(wire.log, reg.streams[r], []))
  }

  /** What has left a queue followed by what is in it. */
  function Received(w: Watch, pending: seq<Message>): seq<Message> {
    Messages(w.left) + pending
  }

  /** The part of its stream's log a queue is about. */
  function Due(log: map<StreamId, seq<Message>>, w: Watch): seq<Message> {
    var published := Get(log, w.stream, []);
    if w.joined <= |published| then published[w.joined..] else []
  }

  predicate Faithful(log: map<StreamId, seq<Message>>, w: Watch, pending: seq<Message>, queueMax: int) {
    && w.stream in log && w.joined <= |log[w.stream]|
    && Received(w, pending) <= Due(log, w)
    && (queueMax > 0 ==> |pending| <= queueMax)
  }

  ghost predicate Watched(wire: Wire, queueMax: int) {
    && (forall q :: q in wire.queues <==> q in wire.watch)
    && (forall q :: q in wire.queues ==> q < wire.nextQueue)
    && (forall q :: q in wire.watch && q in wire.queues ==> Faithful(wire.log, wire.watch[q], wire.queues[q], queueMax))
  }

  predicate UpToDate(reg: Registry, wire: Wire, q: QueueId, r: RunId) {
    && r in reg.streams && q in wire.watch && q in wire.queues
    && wire.watch[q].run == r && wire.watch[q].stream == reg.streams[r]
    && Received(wire.watch[q], wire.queues[q]) == Due(wire.log, wire.watch[q])
  }

  /** Subscribed queues miss nothing: what they received is all that is due. */
  ghost predicate Current(reg: Registry, wire: Wire) {
    forall r, q :: r in reg.subscribers && q in reg.subscribers[r] ==> UpToDate(reg, wire, q, r)
  }

  /** A closed stream ends in the message that closed it. */
  ghost predicate Closed(wire: Wire) {
    forall s :: s in wire.closing ==>
      s in wire.log && wire.log[s] != [] && wire.log[s][|wire.log[s]| - 1] == wire.closing[s]
  }

  ghost predicate Ended(reg: Registry, wire: Wire) {
    forall r :: r in reg.streams ==>
      && (r in reg.terminal <==> reg.streams[r] in wire.closing)
      && (r in reg.terminal && reg.streams[r] in wire.closing ==> reg.terminal[r] == wire.closing[reg.streams[r]])
  }

  ghost predicate WireInv(wire: Wire, queueMax: int) {
    Logged(wire) && Watched(wire, queueMax) && Closed(wire)
  }

  /** What ties the registry to the wire. */
  ghost predicate Tied(reg: Registry, wire: Wire, historyMax: nat) {
    Linked(reg, wire) && Remembered(reg, wire, historyMax) && Current(reg, wire) && Ended(reg, wire)
  }

  ghost predicate Sound(h: Hub, loose: set<RunId>) {
    && Coherent(h.reg, loose) && Counted(h.reg) && Bounded(h.reg, h.limits.runMax, loose)
    && WireInv(h.wire, h.limits.queueMax) && Tied(h.reg, h.wire, h.limits.historyMax)
  }

  ghost predicate Inv(h: Hub) {
    Sound(h, {})
  }

  // ---------------------------------------------------------------- what no step takes back

  predicate LeftLater(a: Watch, b: Watch) {
    a.run == b.run && a.stream == b.stream && a.joined == b.joined && a.left <= b.left
  }

  ghost predicate Evolves(a: Wire, b: Wire) {
    && a.nextStream <= b.nextStream && a.nextQueue <= b.nextQueue
    && LogsGrow(a.log, b.log) && LogsEnd(a, b) && Sub(a.closing, b.closing) && Sub(a.owner, b.owner)
    && WatchesGrow(a.watch, b.watch)
  }

  ghost predicate LogsGrow(a: map<StreamId, seq<Message>>, b: map<StreamId, seq<Message>>) {
    forall s :: s in a ==> s in b && a[s] <= b[s]
  }

  /** Nothing is added to a closed stream. */
  ghost predicate LogsEnd(a: Wire, b: Wire) {
    forall s :: s in a.closing && s in a.log ==> s in b.log && a.log[s] == b.log[s]
  }

  ghost predicate WatchesGrow(a: map<QueueId, Watch>, b: map<QueueId, Watch>) {
    forall q :: q in a ==> q in b && LeftLater(a[q], b[q])
  }

  lemma EvolvesOn(a: Wire, b: Wire, c: Wire)
    requires Evolves(a, b) && Evolves(b, c)
    ensures Evolves(a, c)
  {
  }

  // ---------------------------------------------------------------- forgetting keeps the invariant

  ghost predicate Sub<K, V>(a: map<K, V>, b: map<K, V>) {
    forall k :: k in a ==> k in b && a[k] == b[k]
  }

  /** b only forgets things about runs that a knew. */
  ghost predicate Forgets(a: Registry, b: Registry) {
    && Sub(b.streams, a.streams) && Sub(b.seqs, a.seqs) && Sub(b.history, a.history) && Sub(b.terminal, a.terminal)
    && (forall r :: r in b.streams && r in a.terminal ==> r in b.terminal)
    && (forall r :: r in b.history ==> r in b.streams)
    && (forall r :: r in b.subscribers ==> r in a.subscribers && r in b.streams && b.subscribers[r] <= a.subscribers[r])
  }

  lemma ForgettingKeepsTies(a: Registry, b: Registry, wire: Wire, historyMax: nat)
    requires Tied(a, wire, historyMax) && Forgets(a, b)
    ensures Tied(b, wire, historyMax)
  {
    forall x, q | x in b.subscribers && q in b.subscribers[x] ensures UpToDate(b, wire, q, x) {
      assert UpToDate(a, wire, q, x);
    }
  }

  lemma ClearReplayCoherent(reg: Registry, r: RunId)
    requires Coherent(reg, {r})
    ensures Coherent(ClearReplay(reg, r), {})
    ensures Counted(reg) ==> Counted(ClearReplay(reg, r))
  {
    RemoveIs(reg.retained, r);
  }

  lemma ClearReplayBounded(reg: Registry, runMax: int, r: RunId)
    requires Coherent(reg, {r}) && Bounded(reg, runMax, {r})
    ensures Bounded(ClearReplay(reg, r), runMax, {})
  {
    RemoveIs(reg.retained, r);
  }

  lemma ClearReplayForgets(reg: Registry, r: RunId)
    requires Coherent(reg, {r}) && (forall x :: x in reg.history ==> x in reg.streams)
    ensures Forgets(reg, ClearReplay(reg, r))
  {
  }

  lemma ForgetSound(h: Hub, r: RunId)
    requires Sound(h, {r})
    ensures Inv(Forget(h, r))
  {
    ClearReplayCoherent(h.reg, r);
    ClearReplayBounded(h.reg, h.limits.runMax, r);
    ClearReplayForgets(h.reg, r);
    ForgettingKeepsTies(h.reg, ClearReplay(h.reg, r), h.wire, h.limits.historyMax);
  }

  // ---------------------------------------------------------------- publishing one message

  lemma RecordCoherent(reg: Registry, r: RunId, m: Message, historyMax: nat)
    requires Coherent(reg, {}) && Counted(reg) && r in reg.streams
    ensures Counted(Record(reg, r, m, historyMax))
    ensures Coherent(Record(reg, r, m, historyMax), {r})
    ensures r in reg.retained ==> Coherent(Record(reg, r, m, historyMax), {})
  {
  }

  lemma BroadcastLogged(wire: Wire, targets: set<QueueId>, m: Message, queueMax: int)
    requires Logged(wire) && m.stream in wire.log && m.seqNo == |wire.log[m.stream]| + 1
    requires m.run == Get(wire.owner, m.stream, m.run + 1)
    ensures Logged(Broadcast(wire, targets, m, queueMax))
  {
  }

  /** Putting a message keeps the account of a queue complete. */
  lemma PutReceived(w: Watch, pending: seq<Message>, m: Message, queueMax: int)
    ensures Messages(PutWatch(w, pending, queueMax).left) + Put(pending, m, queueMax)
         == Messages(w.left) + pending + [m]
  {
    var n := Overflow(|pending|, queueMax);
    MessagesConcat(w.left, DropAll(pending[..n]));
    assert pending == pending[..n] + pending[n..];
  }

  /** A queue's account after a message was put into it. */
  lemma PutFaithful(log: map<StreamId, seq<Message>>, w: Watch, pending: seq<Message>, m: Message, queueMax: int)
    requires m.stream in log && w.stream == m.stream && w.joined <= |log[m.stream]|
    requires Received(w, pending) == Due(log, w)
    ensures var more := log[m.stream := log[m.stream] + [m]];
            var w2, p2 := PutWatch(w, pending, queueMax), Put(pending, m, queueMax);
            Received(w2, p2) == Due(more, w2) && Faithful(more, w2, p2, queueMax)
  {
    PutReceived(w, pending, m, queueMax);
    assert (log[m.stream] + [m])[w.joined..] == log[m.stream][w.joined..] + [m];
  }

  /** A queue's account after a message was published that was not put into it. */
  lemma PassedBy(log: map<StreamId, seq<Message>>, w: Watch, pending: seq<Message>, m: Message, queueMax: int)
    requires m.stream in log && Faithful(log, w, pending, queueMax)
    ensures var more := log[m.stream := log[m.stream] + [m]];
            && Faithful(more, w, pending, queueMax)
            && (w.stream != m.stream ==> Due(more, w) == Due(log, w))
  {
    if w.stream == m.stream {
      assert (log[m.stream] + [m])[w.joined..] == log[m.stream][w.joined..] + [m];
    }
  }

  /** The targets are the subscribers of the run that owns the message's stream. */
  ghost predicate Addressed(reg: Registry, wire: Wire, r: RunId, m: Message) {
    && r in reg.streams && m.stream == reg.streams[r] && m.stream in wire.log
    && m.seqNo == |wire.log[m.stream]| + 1 && m.run == r && Get(wire.owner, m.stream, r + 1) == r
  }

  lemma NextIsAddressed(reg: Registry, wire: Wire, r: RunId, body: Body)
    requires Counted(reg) && Linked(reg, wire) && r in reg.streams
    ensures Addressed(reg, wire, r, NextMessage(reg, r, body))
  {
  }

  lemma BroadcastWatched(reg: Registry, wire: Wire, r: RunId, m: Message, queueMax: int)
    requires Addressed(reg, wire, r, m) && Watched(wire, queueMax) && Current(reg, wire)
    ensures Watched(Broadcast(wire, Targets(reg, r), m, queueMax), queueMax)
  {
    var b := Broadcast(wire, Targets(reg, r), m, queueMax);
    forall q | q in b.watch && q in b.queues ensures Faithful(b.log, b.watch[q], b.queues[q], queueMax) {
      assert Faithful(wire.log, wire.watch[q], wire.queues[q], queueMax);
      if q in Targets(reg, r) {
        assert UpToDate(reg, wire, q, r);
        PutFaithful(wire.log, wire.watch[q], wire.queues[q], m, queueMax);
      } else {
        PassedBy(wire.log, wire.watch[q], wire.queues[q], m, queueMax);
      }
    }
  }

  lemma BroadcastClosed(wire: Wire, targets: set<QueueId>, m: Message, queueMax: int)
    requires Closed(wire) && m.stream !in wire.closing
    ensures Closed(Broadcast(wire, targets, m, queueMax))
  {
  }

  lemma BroadcastEvolves(wire: Wire, targets: set<QueueId>, m: Message, queueMax: int)
    requires m.stream in wire.log && m.stream !in wire.closing
    ensures Evolves(wire, Broadcast(wire, targets, m, queueMax))
  {
  }

  lemma EmitLinked(reg: Registry, wire: Wire, r: RunId, m: Message, historyMax: nat, queueMax: int)
    requires Addressed(reg, wire, r, m) && Linked(reg, wire)
    ensures Linked(Record(reg, r, m, historyMax), Broadcast(wire, Targets(reg, r), m, queueMax))
  {
  }

  lemma EmitRemembered(reg: Registry, wire: Wire, r: RunId, m: Message, historyMax: nat, queueMax: int)
    requires Addressed(reg, wire, r, m) && Linked(reg, wire) && Remembered(reg, wire, historyMax)
    ensures Remembered(Record(reg, r, m, historyMax), Broadcast(wire, Targets(reg, r), m, queueMax), historyMax)
  {
    var e, b := Record(reg, r, m, historyMax), Broadcast(wire, Targets(reg, r), m, queueMax);
    SuffixPush(Get(reg.history, r, []), wire.log[m.stream], m, historyMax);
    forall x | x in e.history
      ensures x in e.streams && |e.history[x]| <= historyMax && IsSuffix(e.history[x], Get(b.log, e.streams[x], []))
    {
      if x != r {
        assert x in reg.history && reg.streams[x] != reg.streams[r];
      }
    }
  }

  lemma EmitCurrent(reg: Registry, wire: Wire, r: RunId, m: Message, historyMax: nat, queueMax: int)
    requires Addressed(reg, wire, r, m) && Linked(reg, wire) && Watched(wire, queueMax) && Current(reg, wire)
    ensures Current(Record(reg, r, m, historyMax), Broadcast(wire, Targets(reg, r), m, queueMax))
  {
    var e, b := Record(reg, r, m, historyMax), Broadcast(wire, Targets(reg, r), m, queueMax);
    forall x, q | x in e.subscribers && q in e.subscribers[x] ensures UpToDate(e, b, q, x) {
      assert UpToDate(reg, wire, q, x) && Faithful(wire.log, wire.watch[q], wire.queues[q], queueMax);
      if q in Targets(reg, r) {
        assert UpToDate(reg, wire, q, r);
        PutFaithful(wire.log, wire.watch[q], wire.queues[q], m, queueMax);
      } else {
        PassedBy(wire.log, wire.watch[q], wire.queues[q], m, queueMax);
      }
    }
  }

  lemma EmitSound(h: Hub, r: RunId, body: Body)
    requires Inv(h) && r in h.reg.streams && r !in h.reg.terminal
    ensures Sound(Emit(h, r, body), {r}) && Evolves(h.wire, Emit(h, r, body).wire)
    ensures r in h.reg.retained ==> Inv(Emit(h, r, body))
    ensures Addressed(h.reg, h.wire, r, NextMessage(h.reg, r, body))
  {
    var m := NextMessage(h.reg, r, body);
    NextIsAddressed(h.reg, h.wire, r, body);
    RecordCoherent(h.reg, r, m, h.limits.historyMax);
    assert m.stream !in h.wire.closing;
    var targets := Targets(h.reg, r);
    BroadcastLogged(h.wire, targets, m, h.limits.queueMax);
    BroadcastWatched(h.reg, h.wire, r, m, h.limits.queueMax);
    BroadcastClosed(h.wire, targets, m, h.limits.queueMax);
    BroadcastEvolves(h.wire, targets, m, h.limits.queueMax);
    EmitLinked(h.reg, h.wire, r, m, h.limits.historyMax, h.limits.queueMax);
    EmitRemembered(h.reg, h.wire, r, m, h.limits.historyMax, h.limits.queueMax);
    EmitCurrent(h.reg, h.wire, r, m, h.limits.historyMax, h.limits.queueMax);
  }

  lemma CloseWireSound(wire: Wire, m: Message, queueMax: int)
    requires WireInv(wire, queueMax) && m.stream in wire.log && m.stream !in wire.closing
    requires wire.log[m.stream] != [] && m == wire.log[m.stream][|wire.log[m.stream]| - 1]
    ensures WireInv(CloseWire(wire, m), queueMax) && Evolves(wire, CloseWire(wire, m))
  {
    var c := CloseWire(wire, m);
    assert Watched(c, queueMax);
    CloseWireEvolves(wire, m);
  }

  lemma CloseWireEvolves(wire: Wire, m: Message)
    requires m.stream !in wire.closing
    ensures Evolves(wire, CloseWire(wire, m))
  {
  }

  lemma CloseTied(reg: Registry, wire: Wire, r: RunId, m: Message, historyMax: nat)
    requires Tied(reg, wire, historyMax) && r in reg.streams && m.stream == reg.streams[r]
    ensures Tied(CloseReg(reg, r, m), CloseWire(wire, m), historyMax)
  {
    var e, c := CloseReg(reg, r, m), CloseWire(wire, m);
    forall x, q | x in e.subscribers && q in e.subscribers[x] ensures UpToDate(e, c, q, x) {
      assert UpToDate(reg, wire, q, x);
    }
    assert Remembered(e, c, historyMax);
  }

  /** Recording the message just published as the one that closes its stream. */
  lemma CloseSound(h: Hub, r: RunId, m: Message)
    requires Sound(h, {r}) && r in h.reg.streams && r !in h.reg.terminal && m.stream == h.reg.streams[r]
    requires m.stream in h.wire.log && h.wire.log[m.stream] != []
    requires m == h.wire.log[m.stream][|h.wire.log[m.stream]| - 1]
    ensures Sound(Close(h, r, m), {r}) && Evolves(h.wire, Close(h, r, m).wire)
  {
    CloseWireSound(h.wire, m, h.limits.queueMax);
    CloseTied(h.reg, h.wire, r, m, h.limits.historyMax);
    assert Coherent(CloseReg(h.reg, r, m), {r});
  }

  lemma EmitLastSound(h: Hub, r: RunId, body: Body)
    requires Inv(h) && r in h.reg.streams && r !in h.reg.terminal
    ensures Inv(EmitLast(h, r, body)) && Evolves(h.wire, EmitLast(h, r, body).wire)
  {
    var m, e := NextMessage(h.reg, r, body), Emit(h, r, body);
    EmitSound(h, r, body);
    CloseSound(e, r, m);
    ForgetSound(Close(e, r, m), r);
    EvolvesOn(h.wire, e.wire, Close(e, r, m).wire);
  }

  // ---------------------------------------------------------------- joining

  lemma {:induction false} EvictSound(reg: Registry, candidates: seq<RunId>, keep: RunId, wire: Wire, limits: Limits)
    requires Coherent(reg, {keep}) && Tied(reg, wire, limits.historyMax) && keep in reg.subscribers
    requires keep !in reg.terminal && keep in reg.retained
    requires forall r :: r in reg.retained && !Subscribed(reg, r) ==> r in candidates
    requires forall x :: x in reg.streams && x != keep ==> x in reg.seqs
    ensures var e := Evict(reg, candidates, keep, limits.runMax);
            && Coherent(e, {keep}) && Tied(e, wire, limits.historyMax) && Bounded(e, limits.runMax, {})
            && e.subscribers == reg.subscribers && keep in e.streams && e.streams[keep] == reg.streams[keep]
            && keep in e.retained && keep !in e.terminal
            && Get(e.seqs, keep, 0) == Get(reg.seqs, keep, 0)
            && forall x :: x in e.streams && x != keep ==> x in e.seqs
    decreases |candidates|
  {
    if candidates != [] && |reg.retained| > limits.runMax {
      var c := candidates[0];
      assert forall r :: r in candidates ==> r == c || r in candidates[1..];
      if c != keep && !Subscribed(reg, c) {
        EvictOne(reg, c, keep, wire, limits);
        EvictSound(ClearReplay(reg, c), candidates[1..], keep, wire, limits);
      } else {
        EvictSound(reg, candidates[1..], keep, wire, limits);
      }
    }
  }

  lemma EvictOne(reg: Registry, c: RunId, keep: RunId, wire: Wire, limits: Limits)
    requires Coherent(reg, {keep}) && Tied(reg, wire, limits.historyMax) && keep in reg.subscribers
    requires keep !in reg.terminal && keep in reg.retained
    requires c != keep && !Subscribed(reg, c)
    requires forall x :: x in reg.streams && x != keep ==> x in reg.seqs
    ensures var e := ClearReplay(reg, c);
            && Coherent(e, {keep}) && Tied(e, wire, limits.historyMax)
            && e.subscribers == reg.subscribers && keep in e.streams && e.streams[keep] == reg.streams[keep]
            && keep in e.retained && keep !in e.terminal
            && Get(e.seqs, keep, 0) == Get(reg.seqs, keep, 0)
            && (forall x :: x in e.streams && x != keep ==> x in e.seqs)
            && forall r :: r in e.retained <==> r in reg.retained && r != c
  {
    RemoveIs(reg.retained, c);
    EvictOneForgets(reg, c, keep);
    ForgettingKeepsTies(reg, ClearReplay(reg, c), wire, limits.historyMax);
  }

  lemma EvictOneForgets(reg: Registry, c: RunId, keep: RunId)
    requires Coherent(reg, {keep}) && (forall x :: x in reg.history ==> x in reg.streams)
    requires keep in reg.subscribers && c != keep && !Subscribed(reg, c)
    ensures Forgets(reg, ClearReplay(reg, c))
  {
  }

  lemma OpenStreamSound(wire: Wire, r: RunId, queueMax: int)
    requires WireInv(wire, queueMax)
    ensures WireInv(OpenStream(wire, r), queueMax) && Evolves(wire, OpenStream(wire, r))
  {
    OpenStreamWatched(wire, r, queueMax);
    OpenStreamLogged(wire, r);
    assert Closed(OpenStream(wire, r));
  }

  lemma OpenStreamLogged(wire: Wire, r: RunId)
    requires Logged(wire)
    ensures Logged(OpenStream(wire, r)) && Evolves(wire, OpenStream(wire, r))
  {
  }

  lemma OpenStreamWatched(wire: Wire, r: RunId, queueMax: int)
    requires Logged(wire) && Watched(wire, queueMax)
    ensures Watched(OpenStream(wire, r), queueMax)
  {
    var o := OpenStream(wire, r);
    forall q | q in o.watch && q in o.queues ensures Faithful(o.log, o.watch[q], o.queues[q], queueMax) {
      assert Faithful(wire.log, wire.watch[q], wire.queues[q], queueMax);
    }
  }

  lemma NameTied(reg: Registry, wire: Wire, r: RunId, historyMax: nat, queueMax: int)
    requires Tied(reg, wire, historyMax) && WireInv(wire, queueMax) && Coherent(reg, {}) && r !in reg.streams
    ensures Tied(Name(reg, r, wire.nextStream), OpenStream(wire, r), historyMax)
  {
    var n, o := Name(reg, r, wire.nextStream), OpenStream(wire, r);
    NameCurrent(reg, wire, r);
    assert wire.nextStream !in wire.closing;
    assert Ended(n, o);
    NameLinked(reg, wire, r);
  }

  lemma NameLinked(reg: Registry, wire: Wire, r: RunId)
    requires Linked(reg, wire) && Logged(wire) && Coherent(reg, {}) && r !in reg.streams
    ensures Linked(Name(reg, r, wire.nextStream), OpenStream(wire, r))
  {
  }

  lemma NameCurrent(reg: Registry, wire: Wire, r: RunId)
    requires Linked(reg, wire) && Current(reg, wire) && Logged(wire) && Coherent(reg, {}) && r !in reg.streams
    ensures Current(Name(reg, r, wire.nextStream), OpenStream(wire, r))
  {
    var n, o := Name(reg, r, wire.nextStream), OpenStream(wire, r);
    forall x, q | x in n.subscribers && q in n.subscribers[x] ensures UpToDate(n, o, q, x) {
      assert UpToDate(reg, wire, q, x);
    }
  }

  lemma AddQueueSound(wire: Wire, r: RunId, stream: StreamId, joined: nat, queueMax: int)
    requires WireInv(wire, queueMax) && stream in wire.log && joined == |wire.log[stream]|
    ensures WireInv(AddQueue(wire, r, stream, joined), queueMax) && Evolves(wire, AddQueue(wire, r, stream, joined))
  {
    AddQueueWatched(wire, r, stream, joined, queueMax);
    assert Logged(AddQueue(wire, r, stream, joined));
    assert Closed(AddQueue(wire, r, stream, joined));
    AddQueueEvolves(wire, r, stream, joined, queueMax);
  }

  lemma AddQueueEvolves(wire: Wire, r: RunId, stream: StreamId, joined: nat, queueMax: int)
    requires Watched(wire, queueMax)
    ensures Evolves(wire, AddQueue(wire, r, stream, joined))
  {
  }

  lemma AddQueueWatched(wire: Wire, r: RunId, stream: StreamId, joined: nat, queueMax: int)
    requires Watched(wire, queueMax) && stream in wire.log && joined == |wire.log[stream]|
    ensures Watched(AddQueue(wire, r, stream, joined), queueMax)
  {
    var w := AddQueue(wire, r, stream, joined);
    assert Messages([]) == [];
    forall q | q in w.watch && q in w.queues ensures Faithful(w.log, w.watch[q], w.queues[q], queueMax) {
      assert q != wire.nextQueue ==> Faithful(wire.log, wire.watch[q], wire.queues[q], queueMax);
    }
  }

  lemma AddSubscriberTied(reg: Registry, wire: Wire, r: RunId, joined: nat, historyMax: nat, queueMax: int)
    requires Tied(reg, wire, historyMax) && WireInv(wire, queueMax) && r in reg.streams
    requires joined == |Get(wire.log, reg.streams[r], [])|
    ensures Tied(AddSubscriber(reg, r, wire.nextQueue), AddQueue(wire, r, reg.streams[r], joined), historyMax)
  {
    var a, w := AddSubscriber(reg, r, wire.nextQueue), AddQueue(wire, r, reg.streams[r], joined);
    assert Messages([]) == [];
    forall x, q | x in a.subscribers && q in a.subscribers[x] ensures UpToDate(a, w, q, x) {
      if q != wire.nextQueue {
        assert x in reg.subscribers && q in reg.subscribers[x];
        assert UpToDate(reg, wire, q, x);
      } else {
        assert x != r ==> UpToDate(reg, wire, q, x);
      }
    }
  }

  lemma JoinCoherent(reg: Registry, r: RunId, q: QueueId, newId: StreamId, runMax: int)
    requires Coherent(reg, {}) && Counted(reg) && Bounded(reg, runMax, {})
    ensures var named := AddSubscriber(Name(reg, r, newId), r, q);
            && Coherent(named, {r}) && Bounded(named, runMax, {})
            && (forall x :: x in named.streams && x != r ==> x in named.seqs)
  {
  }

  lemma JoinClosedCoherent(reg: Registry, r: RunId, q: QueueId)
    requires Coherent(reg, {}) && Counted(reg) && r in reg.terminal
    ensures Coherent(AddSubscriber(reg, r, q), {}) && Counted(AddSubscriber(reg, r, q))
  {
  }

  /** The state of a subscription before runs are evicted. */
  ghost predicate Joined(reg: Registry, wire: Wire, limits: Limits, r: RunId) {
    && Coherent(reg, {r}) && Bounded(reg, limits.runMax, {}) && r in reg.streams && r in reg.subscribers
    && Tied(reg, wire, limits.historyMax)
    && Get(reg.seqs, r, 0) == |Get(wire.log, reg.streams[r], [])|
    && (forall x :: x in reg.streams && x != r ==> x in reg.seqs)
  }

  /** The wire of a subscription: a run without a stream gets a new one, and the new queue joins it. */
  function JoinWire(h: Hub, r: RunId): Wire {
    AddQueue(if r in h.reg.streams then h.wire else OpenStream(h.wire, r), r,
             Get(h.reg.streams, r, h.wire.nextStream), Get(h.reg.seqs, r, 0))
  }

  function JoinRegistry(h: Hub, r: RunId): Registry {
    AddSubscriber(Name(h.reg, r, h.wire.nextStream), r, h.wire.nextQueue)
  }

  lemma JoinKnown(h: Hub, r: RunId)
    requires Inv(h) && r in h.reg.streams
    ensures Joined(JoinRegistry(h, r), JoinWire(h, r), h.limits, r)
    ensures WireInv(JoinWire(h, r), h.limits.queueMax) && Evolves(h.wire, JoinWire(h, r))
  {
    AddQueueSound(h.wire, r, h.reg.streams[r], h.reg.seqs[r], h.limits.queueMax);
    AddSubscriberTied(h.reg, h.wire, r, h.reg.seqs[r], h.limits.historyMax, h.limits.queueMax);
    JoinCoherent(h.reg, r, h.wire.nextQueue, h.wire.nextStream, h.limits.runMax);
  }

  lemma JoinUnknown(h: Hub, r: RunId)
    requires Inv(h) && r !in h.reg.streams
    ensures Joined(JoinRegistry(h, r), JoinWire(h, r), h.limits, r)
    ensures WireInv(JoinWire(h, r), h.limits.queueMax) && Evolves(h.wire, JoinWire(h, r))
  {
    var named, wire := Name(h.reg, r, h.wire.nextStream), OpenStream(h.wire, r);
    OpenStreamSound(h.wire, r, h.limits.queueMax);
    NameTied(h.reg, h.wire, r, h.limits.historyMax, h.limits.queueMax);
    AddQueueSound(wire, r, h.wire.nextStream, 0, h.limits.queueMax);
    AddSubscriberTied(named, wire, r, 0, h.limits.historyMax, h.limits.queueMax);
    EvolvesOn(h.wire, wire, JoinWire(h, r));
    JoinCoherent(h.reg, r, h.wire.nextQueue, h.wire.nextStream, h.limits.runMax);
  }

  /** The registry of a subscription after runs were evicted. */
  function Settle(named: Registry, r: RunId, runMax: int): Registry {
    StartSeq(if r in named.terminal then named else Evict(MoveToEnd(named, r), MoveToEnd(named, r).retained, r, runMax), r)
  }

  lemma SubscribeIs(h: Hub, r: RunId)
    requires Inv(h)
    ensures var joined := Settle(JoinRegistry(h, r), r, h.limits.runMax);
            ApplySubscribe(h, r).reg == joined && ApplySubscribe(h, r).limits == h.limits
    ensures var joined := Settle(JoinRegistry(h, r), r, h.limits.runMax);
            (r in joined.streams && joined.streams[r] == JoinRegistry(h, r).streams[r]
             && joined.seqs[r] == Get(h.reg.seqs, r, 0)) ==> ApplySubscribe(h, r).wire == JoinWire(h, r)
  {
    assert Name(AddSubscriber(h.reg, r, h.wire.nextQueue), r, h.wire.nextStream) == JoinRegistry(h, r);
  }

  lemma MoveToEndJoined(reg: Registry, wire: Wire, limits: Limits, r: RunId)
    requires Joined(reg, wire, limits, r) && r !in reg.terminal
    ensures Coherent(MoveToEnd(reg, r), {r}) && Tied(MoveToEnd(reg, r), wire, limits.historyMax)
  {
    RemoveIs(reg.retained, r);
    ForgettingKeepsTies(reg, MoveToEnd(reg, r), wire, limits.historyMax);
  }

  lemma SettleOpen(reg: Registry, wire: Wire, limits: Limits, r: RunId)
    requires Joined(reg, wire, limits, r) && r !in reg.terminal
    ensures var s := Settle(reg, r, limits.runMax);
            && Coherent(s, {}) && Counted(s) && Tied(s, wire, limits.historyMax) && Bounded(s, limits.runMax, {})
            && r in s.streams && s.streams[r] == reg.streams[r] && s.seqs[r] == Get(reg.seqs, r, 0)
            && s.subscribers == reg.subscribers && r in s.retained
  {
    var moved := MoveToEnd(reg, r);
    MoveToEndJoined(reg, wire, limits, r);
    EvictSound(moved, moved.retained, r, wire, limits);
    StartSeqSound(Evict(moved, moved.retained, r, limits.runMax), r, wire, limits);
  }

  lemma SettleClosed(reg: Registry, r: RunId, runMax: int)
    requires Coherent(reg, {}) && Counted(reg) && r in reg.terminal
    ensures Settle(reg, r, runMax) == reg
  {
    assert reg.seqs[r := reg.seqs[r]] == reg.seqs;
  }

  lemma SubscribeSound(h: Hub, r: RunId)
    requires Inv(h)
    ensures Inv(ApplySubscribe(h, r)) && Evolves(h.wire, ApplySubscribe(h, r).wire)
    ensures ApplySubscribe(h, r).wire == JoinWire(h, r) && Subscribed(ApplySubscribe(h, r).reg, r)
    ensures h.wire.nextQueue in ApplySubscribe(h, r).reg.subscribers[r]
  {
    SubscribeIs(h, r);
    if r in h.reg.streams {
      JoinKnown(h, r);
    } else {
      JoinUnknown(h, r);
    }
    if r in h.reg.terminal {
      JoinClosedCoherent(h.reg, r, h.wire.nextQueue);
      SettleClosed(JoinRegistry(h, r), r, h.limits.runMax);
    } else {
      SettleOpen(JoinRegistry(h, r), JoinWire(h, r), h.limits, r);
    }
  }

  lemma StartSeqSound(reg: Registry, r: RunId, wire: Wire, limits: Limits)
    requires Coherent(reg, {r}) && Tied(reg, wire, limits.historyMax) && Bounded(reg, limits.runMax, {})
    requires r in reg.retained && r in reg.streams && r !in reg.terminal
    requires Get(reg.seqs, r, 0) == |Get(wire.log, reg.streams[r], [])|
    requires forall x :: x in reg.streams && x != r ==> x in reg.seqs
    ensures var s := StartSeq(reg, r);
            Coherent(s, {}) && Counted(s) && Tied(s, wire, limits.historyMax) && Bounded(s, limits.runMax, {})
  {
    var s := StartSeq(reg, r);
    forall x, q | x in s.subscribers && q in s.subscribers[x] ensures UpToDate(s, wire, q, x) {
      assert UpToDate(reg, wire, q, x);
    }
  }

  // ---------------------------------------------------------------- leaving and reading

  function Shrink(reg: Registry, r: RunId, q: QueueId): Registry
    requires r in reg.subscribers
  {
    reg.(subscribers := reg.subscribers[r := reg.subscribers[r] - {q}])
  }

  lemma ShrinkSound(reg: Registry, r: RunId, q: QueueId, wire: Wire, limits: Limits)
    requires Coherent(reg, {}) && Counted(reg) && Bounded(reg, limits.runMax, {}) && Tied(reg, wire, limits.historyMax)
    requires r in reg.subscribers && reg.subscribers[r] - {q} != {}
    ensures var l := Shrink(reg, r, q);
            Coherent(l, {}) && Counted(l) && Bounded(l, limits.runMax, {}) && Tied(l, wire, limits.historyMax)
  {
    ShrinkForgets(reg, r, q);
    ForgettingKeepsTies(reg, Shrink(reg, r, q), wire, limits.historyMax);
  }

  lemma ShrinkForgets(reg: Registry, r: RunId, q: QueueId)
    requires Coherent(reg, {}) && (forall x :: x in reg.history ==> x in reg.streams)
    requires r in reg.subscribers && reg.subscribers[r] - {q} != {}
    ensures Forgets(reg, Shrink(reg, r, q))
  {
  }

  function Idle(reg: Registry, r: RunId): Registry {
    reg.(subscribers := reg.subscribers - {r})
  }

  lemma IdleSound(reg: Registry, r: RunId, wire: Wire, limits: Limits)
    requires Coherent(reg, {}) && Counted(reg) && Bounded(reg, limits.runMax, {}) && Tied(reg, wire, limits.historyMax)
    requires r in reg.subscribers
    ensures var l := Idle(reg, r);
            Coherent(l, {r}) && Counted(l) && Bounded(l, limits.runMax, {r}) && Tied(l, wire, limits.historyMax)
    ensures r in reg.history ==> r in reg.retained
    ensures r in reg.terminal ==> r !in reg.retained
  {
    ForgettingKeepsTies(reg, Idle(reg, r), wire, limits.historyMax);
  }

  lemma ClearGenerationSound(reg: Registry, r: RunId, wire: Wire, limits: Limits)
    requires Coherent(reg, {r}) && Counted(reg) && Bounded(reg, limits.runMax, {r}) && Tied(reg, wire, limits.historyMax)
    requires r !in reg.retained && r !in reg.subscribers && r !in reg.history
    ensures var l := ClearGeneration(reg, r);
            Coherent(l, {}) && Counted(l) && Bounded(l, limits.runMax, {}) && Tied(l, wire, limits.historyMax)
  {
    ClearGenerationForgets(reg, r);
    ForgettingKeepsTies(reg, ClearGeneration(reg, r), wire, limits.historyMax);
  }

  lemma ClearGenerationForgets(reg: Registry, r: RunId)
    requires Coherent(reg, {r}) && (forall x :: x in reg.history ==> x in reg.streams)
    requires r !in reg.subscribers && r !in reg.history
    ensures Forgets(reg, ClearGeneration(reg, r))
  {
  }

  lemma LeaveSound(h: Hub, r: RunId, q: QueueId, clearIfEmpty: bool)
    requires Inv(h)
    ensures Inv(Hub(h.limits, Leave(h.reg, r, q, clearIfEmpty, h.limits.runMax), h.wire))
  {
    if r in h.reg.subscribers {
      if h.reg.subscribers[r] - {q} != {} {
        ShrinkSound(h.reg, r, q, h.wire, h.limits);
      } else {
        var idle := Idle(h.reg, r);
        IdleSound(h.reg, r, h.wire, h.limits);
        if clearIfEmpty || (r in idle.retained && |idle.retained| > h.limits.runMax) {
          ForgetSound(Hub(h.limits, idle, h.wire), r);
        } else if r !in idle.retained {
          ClearGenerationSound(idle, r, h.wire, h.limits);
        }
      }
    }
  }

  lemma ReadReceived(w: Watch, pending: seq<Message>)
    requires pending != []
    ensures Received(w.(left := w.left + [Delivered(pending[0])]), pending[1..]) == Received(w, pending)
  {
    MessagesConcat(w.left, [Delivered(pending[0])]);
  }

  lemma ReadWatched(wire: Wire, q: QueueId, queueMax: int)
    requires Watched(wire, queueMax)
    ensures Watched(ReadWire(wire, q), queueMax)
  {
    var n := ReadWire(wire, q);
    if q in wire.queues && wire.queues[q] != [] {
      ReadReceived(wire.watch[q], wire.queues[q]);
    }
    forall x | x in n.watch && x in n.queues ensures Faithful(n.log, n.watch[x], n.queues[x], queueMax) {
      assert Faithful(wire.log, wire.watch[x], wire.queues[x], queueMax);
    }
  }

  lemma ReadEvolves(wire: Wire, q: QueueId)
    ensures Evolves(wire, ReadWire(wire, q))
  {
  }

  lemma ReadSound(h: Hub, q: QueueId)
    requires Inv(h)
    ensures Inv(Hub(h.limits, h.reg, ReadWire(h.wire, q))) && Evolves(h.wire, ReadWire(h.wire, q))
  {
    ReadWatched(h.wire, q, h.limits.queueMax);
    ReadCurrent(h.reg, h.wire, q);
    ReadEvolves(h.wire, q);
  }

  lemma ReadCurrent(reg: Registry, wire: Wire, q: QueueId)
    requires Current(reg, wire)
    ensures Current(reg, ReadWire(wire, q))
  {
    var n := ReadWire(wire, q);
    forall r, x | r in reg.subscribers && x in reg.subscribers[r] ensures UpToDate(reg, n, x, r) {
      assert UpToDate(reg, wire, x, r);
      if x == q && wire.queues[q] != [] {
        ReadReceived(wire.watch[q], wire.queues[q]);
      }
    }
  }

  // ---------------------------------------------------------------- every run of the hub

  lemma StepSound(h: Hub, step: Step)
    requires Inv(h)
    ensures Inv(Apply(h, step)) && Evolves(h.wire, Apply(h, step).wire)
  {
    match step
    case Subscribe(r) => SubscribeSound(h, r);
    case Unsubscribe(r, q, clear) => LeaveSound(h, r, q, clear);
    case Finish(r, final) => FinishSound(h, r, final);
    case PublishSnapshot(r, snapshot) => SnapshotSound(h, r, Checkpoint(snapshot));
    case PublishDelta(r, stage, name, channel, delta) => DeltaSound(h, r, TraceDelta(stage, name, channel, delta));
    case Read(q) => ReadSound(h, q);
  }

  lemma SteadyCoherent(reg: Registry, r: RunId, runMax: int)
    requires Coherent(reg, {}) && Bounded(reg, runMax, {})
    ensures Coherent(reg, {r}) && Bounded(reg, runMax, {r})
  {
  }

  lemma FinishSound(h: Hub, r: RunId, final: Option<Snapshot>)
    requires Inv(h)
    ensures Inv(ApplyFinish(h, r, final)) && Evolves(h.wire, ApplyFinish(h, r, final).wire)
  {
    SteadyCoherent(h.reg, r, h.limits.runMax);
    if r in h.reg.terminal || final.None? || r !in h.reg.streams {
      ForgetSound(h, r);
    } else {
      EmitLastSound(h, r, Checkpoint(final.value));
    }
  }

  lemma SnapshotSound(h: Hub, r: RunId, body: Body)
    requires Inv(h)
    ensures Inv(ApplySnapshot(h, r, body)) && Evolves(h.wire, ApplySnapshot(h, r, body).wire)
  {
    SteadyCoherent(h.reg, r, h.limits.runMax);
    if r !in h.reg.terminal && r in h.reg.retained && r in h.reg.streams {
      if IsTerminal(body) {
        EmitLastSound(h, r, body);
      } else {
        EmitSound(h, r, body);
      }
    } else {
      ForgetSound(h, r);
    }
  }

  lemma DeltaSound(h: Hub, r: RunId, body: Body)
    requires Inv(h)
    ensures Inv(ApplyDelta(h, r, body)) && Evolves(h.wire, ApplyDelta(h, r, body).wire)
  {
    if r in h.reg.retained && r in h.reg.streams {
      EmitSound(h, r, body);
    }
  }

  lemma LimitsKept(h: Hub, step: Step)
    ensures Apply(h, step).limits == h.limits
  {
  }

  lemma {:induction false} InvAlways(h: Hub, steps: seq<Step>)
    requires Inv(h)
    ensures Inv(ApplyAll(h, steps)) && Evolves(h.wire, ApplyAll(h, steps).wire)
    ensures ApplyAll(h, steps).limits == h.limits
  {
    if steps != [] {
      var before := ApplyAll(h, steps[..|steps| - 1]);
      InvAlways(h, steps[..|steps| - 1]);
      StepSound(before, steps[|steps| - 1]);
      LimitsKept(before, steps[|steps| - 1]);
      EvolvesOn(h.wire, before.wire, ApplyAll(h, steps).wire);
    }
  }

  lemma InvInitially(limits: Limits)
    ensures Inv(Empty(limits))
  {
    var empty := Empty(limits).wire;
    assert forall s: StreamId :: s in empty.log <==> s < empty.nextStream;
  }
}
