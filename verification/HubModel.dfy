/**
 * The stream hub as a state machine. Each lock-held method is one step, a consumer reading from its queue another.
 * The registry is what the hub remembers about runs. The wire is the queues it handed out, together with what an
 * observer would write down: everything ever published under a stream id, which message closed it, and for each queue
 * where it joined and how every message left it.
 */
module HubModel {
  import opened Text

  type RunId = int
  type StreamId = nat
  type QueueId = nat

  datatype Snapshot = Snapshot(status: Option<string>, content: string)

  datatype Body =
    | Checkpoint(snapshot: Snapshot)
    | TraceDelta(stage: string, step: string, channel: string, delta: string)

  datatype Message = Message(stream: StreamId, seqNo: nat, run: RunId, body: Body)

  /** How a message left a queue: read by its consumer, or dropped because the queue was full. */
  datatype Out = Delivered(message: Message) | Dropped(message: Message)

  datatype Watch = Watch(run: RunId, stream: StreamId, joined: nat, left: seq<Out>)

  datatype Limits = Limits(queueMax: int, historyMax: nat, runMax: int)

  datatype Registry = Registry(
    subscribers: map<RunId, set<QueueId>>,
    streams: map<RunId, StreamId>,
    seqs: map<RunId, nat>,
    history: map<RunId, seq<Message>>,
    retained: seq<RunId>,
    terminal: map<RunId, Message>)

  datatype Wire = Wire(
    queues: map<QueueId, seq<Message>>,
    watch: map<QueueId, Watch>,
    log: map<StreamId, seq<Message>>,
    owner: map<StreamId, RunId>,
    closing: map<StreamId, Message>,
    nextStream: StreamId,
    nextQueue: QueueId)

  datatype Hub = Hub(limits: Limits, reg: Registry, wire: Wire)

  function Get<K, V>(m: map<K, V>, k: K, default: V): V {
    if k in m then m[k] else default
  }

  // ---------------------------------------------------------------- sequences

  function Remove(runs: seq<RunId>, r: RunId): seq<RunId> {
    if runs == [] then [] else if runs[0] == r then Remove(runs[1..], r) else [runs[0]] + Remove(runs[1..], r)
  }

  predicate Distinct(runs: seq<RunId>) {
    forall i, j :: 0 <= i < j < |runs| ==> runs[i] != runs[j]
  }

  lemma {:induction false} RemoveIs(runs: seq<RunId>, r: RunId)
    ensures forall x :: x in Remove(runs, r) <==> x in runs && x != r
    ensures Distinct(runs) ==> Distinct(Remove(runs, r))
    ensures Distinct(runs) ==> |Remove(runs, r)| == if r in runs then |runs| - 1 else |runs|
  {
    if runs != [] {
      RemoveIs(runs[1..], r);
      if Distinct(runs) {
        assert Distinct(runs[1..]);
        assert runs[0] !in runs[1..];
      }
    }
  }

  /** The last n elements. */
  function Last<T>(s: seq<T>, n: nat): seq<T> {
    if |s| <= n then s else s[|s| - n..]
  }

  predicate IsSuffix<T(==)>(s: seq<T>, whole: seq<T>) {
    |s| <= |whole| && s == whole[|whole| - |s|..]
  }

  lemma SuffixPush<T>(s: seq<T>, whole: seq<T>, x: T, n: nat)
    requires IsSuffix(s, whole)
    ensures IsSuffix(Last(s + [x], n), whole + [x])
  {
  }

  function Messages(outs: seq<Out>): (ms: seq<Message>)
    ensures |ms| == |outs|
  {
    seq(|outs|, i requires 0 <= i < |outs| => outs[i].message)
  }

  function DropAll(ms: seq<Message>): (outs: seq<Out>)
    ensures Messages(outs) == ms
  {
    seq(|ms|, i requires 0 <= i < |ms| => Dropped(ms[i]))
  }

  lemma MessagesConcat(a: seq<Out>, b: seq<Out>)
    ensures Messages(a + b) == Messages(a) + Messages(b)
  {
  }

  // ---------------------------------------------------------------- the primitive updates

  predicate Subscribed(reg: Registry, r: RunId) {
    r in reg.subscribers && reg.subscribers[r] != {}
  }

  function ClearGeneration(reg: Registry, r: RunId): Registry {
    reg.(streams := reg.streams - {r}, seqs := reg.seqs - {r}, terminal := reg.terminal - {r})
  }

  function ClearReplay(reg: Registry, r: RunId): Registry {
    var cleared := reg.(history := reg.history - {r}, retained := Remove(reg.retained, r));
    if Subscribed(reg, r) then cleared else ClearGeneration(cleared, r)
  }

  /** How many of the oldest messages must go before one more can be put. */
  function Overflow(pending: nat, queueMax: int): (n: nat)
    ensures n <= pending
    ensures n > 0 <==> queueMax > 0 && pending >= queueMax
    ensures queueMax > 0 ==> pending - n < queueMax
  {
    if queueMax > 0 && pending >= queueMax then pending - queueMax + 1 else 0
  }

  function Put(pending: seq<Message>, m: Message, queueMax: int): seq<Message> {
    pending[Overflow(|pending|, queueMax)..] + [m]
  }

  function PutWatch(w: Watch, pending: seq<Message>, queueMax: int): Watch {
    w.(left := w.left + DropAll(pending[..Overflow(|pending|, queueMax)]))
  }

  function Targets(reg: Registry, r: RunId): set<QueueId> {
    Get(reg.subscribers, r, {})
  }

  function NextMessage(reg: Registry, r: RunId, body: Body): Message
    requires r in reg.streams
  {
    Message(reg.streams[r], Get(reg.seqs, r, 0) + 1, r, body)
  }

  /** The registry's side of `_next_seq_locked` and `_publish_locked`. */
  function Record(reg: Registry, r: RunId, m: Message, historyMax: nat): Registry {
    reg.(seqs := reg.seqs[r := m.seqNo],
         history := reg.history[r := Last(Get(reg.history, r, []) + [m], historyMax)])
  }

  function PutAll(queues: map<QueueId, seq<Message>>, targets: set<QueueId>, m: Message, queueMax: int)
    : map<QueueId, seq<Message>>
  {
    map q | q in queues :: if q in targets then Put(queues[q], m, queueMax) else queues[q]
  }

  function WatchAll(watch: map<QueueId, Watch>, queues: map<QueueId, seq<Message>>, targets: set<QueueId>, queueMax: int)
    : map<QueueId, Watch>
  {
    map q | q in watch :: if q in targets then PutWatch(watch[q], Get(queues, q, []), queueMax) else watch[q]
  }

  /** The queues' side of it. */
  function Broadcast(wire: Wire, targets: set<QueueId>, m: Message, queueMax: int): Wire {
    wire.(queues := PutAll(wire.queues, targets, m, queueMax),
          watch := WatchAll(wire.watch, wire.queues, targets, queueMax),
          log := wire.log[m.stream := Get(wire.log, m.stream, []) + [m]])
  }

  function Emit(h: Hub, r: RunId, body: Body): Hub
    requires r in h.reg.streams
  {
    var m := NextMessage(h.reg, r, body);
    Hub(h.limits, Record(h.reg, r, m, h.limits.historyMax),
        Broadcast(h.wire, Targets(h.reg, r), m, h.limits.queueMax))
  }

  function CloseReg(reg: Registry, r: RunId, m: Message): Registry {
    reg.(terminal := reg.terminal[r := m])
  }

  function CloseWire(wire: Wire, m: Message): Wire {
    wire.(closing := wire.closing[m.stream := m])
  }

  function Close(h: Hub, r: RunId, m: Message): Hub {
    Hub(h.limits, CloseReg(h.reg, r, m), CloseWire(h.wire, m))
  }

  /** The loop that drops idle runs, oldest first, until few enough are retained. */
  function Evict(reg: Registry, candidates: seq<RunId>, keep: RunId, runMax: int): Registry
    decreases |candidates|
  {
    if candidates == [] || |reg.retained| <= runMax then reg
    else
      var c := candidates[0];
      Evict(if c != keep && !Subscribed(reg, c) then ClearReplay(reg, c) else reg, candidates[1..], keep, runMax)
  }

  function MoveToEnd(reg: Registry, r: RunId): Registry {
    reg.(retained := Remove(reg.retained, r) + [r])
  }

  /** `newId` is the id a run gets when it has none. */
  function Track(reg: Registry, r: RunId, newId: StreamId, runMax: int): Registry {
    var named := Name(reg, r, newId);
    if r in reg.terminal then named
    else Evict(MoveToEnd(named, r), MoveToEnd(named, r).retained, r, runMax)
  }

  // ---------------------------------------------------------------- replay

  function NewerThan(messages: seq<Message>, after: int): seq<Message> {
    if messages == [] then []
    else if messages[0].seqNo > after then [messages[0]] + NewerThan(messages[1..], after)
    else NewerThan(messages[1..], after)
  }

  /** The messages carry exactly the numbers first, first + 1, ..., last. */
  predicate NumbersAre(messages: seq<Message>, first: int, last: int) {
    |messages| == (if last >= first then last - first + 1 else 0)
    && forall i :: 0 <= i < |messages| ==> messages[i].seqNo == first + i
  }

  function Replay(reg: Registry, r: RunId, stream: Option<StreamId>, after: Option<int>): seq<Message>
    requires r in reg.streams
  {
    var eventSeq := Get(reg.seqs, r, 0);
    if stream != Some(reg.streams[r]) || after.None? || after.value >= eventSeq then []
    else
      var replay := NewerThan(Get(reg.history, r, []), after.value);
      if replay != [] && NumbersAre(replay, after.value + 1, eventSeq) then replay else []
  }

  // ---------------------------------------------------------------- the steps

  datatype Step =
    | Subscribe(run: RunId)
    | Unsubscribe(run: RunId, queue: QueueId, clearIfEmpty: bool)
    | Finish(run: RunId, final: Option<Snapshot>)
    | PublishSnapshot(run: RunId, snapshot: Snapshot)
    | PublishDelta(run: RunId, stage: string, step: string, channel: string, delta: string)
    | Read(queue: QueueId)

  function AddSubscriber(reg: Registry, r: RunId, q: QueueId): Registry {
    reg.(subscribers := reg.subscribers[r := Targets(reg, r) + {q}])
  }

  function StartSeq(reg: Registry, r: RunId): Registry {
    reg.(seqs := reg.seqs[r := Get(reg.seqs, r, 0)])
  }

  function Name(reg: Registry, r: RunId, newId: StreamId): Registry {
    if r in reg.streams then reg else reg.(streams := reg.streams[r := newId])
  }

  function OpenStream(wire: Wire, r: RunId): Wire {
    wire.(log := wire.log[wire.nextStream := []], owner := wire.owner[wire.nextStream := r], nextStream := wire.nextStream + 1)
  }

  function AddQueue(wire: Wire, r: RunId, stream: StreamId, joined: nat): Wire {
    wire.(queues := wire.queues[wire.nextQueue := []],
          watch := wire.watch[wire.nextQueue := Watch(r, stream, joined, [])],
          nextQueue := wire.nextQueue + 1)
  }

  function ApplySubscribe(h: Hub, r: RunId): Hub {
    var joined := AddSubscriber(h.reg, r, h.wire.nextQueue);
    var reg := StartSeq(Track(joined, r, h.wire.nextStream, h.limits.runMax), r);
    var host := if r in h.reg.streams then h.wire else OpenStream(h.wire, r);
    Hub(h.limits, reg, AddQueue(host, r, Get(reg.streams, r, 0), reg.seqs[r]))
  }

  function Leave(reg: Registry, r: RunId, q: QueueId, clearIfEmpty: bool, runMax: int): Registry {
    if r !in reg.subscribers then reg
    else if reg.subscribers[r] - {q} != {} then reg.(subscribers := reg.subscribers[r := reg.subscribers[r] - {q}])
    else
      var idle := reg.(subscribers := reg.subscribers - {r});
      if clearIfEmpty || (r in idle.retained && |idle.retained| > runMax) then ClearReplay(idle, r)
      else if r !in idle.retained then ClearGeneration(idle, r)
      else idle
  }

  function Forget(h: Hub, r: RunId): Hub {
    Hub(h.limits, ClearReplay(h.reg, r), h.wire)
  }

  function ApplyFinish(h: Hub, r: RunId, final: Option<Snapshot>): Hub {
    if r in h.reg.terminal || final.None? || r !in h.reg.streams then Forget(h, r)
    else EmitLast(h, r, Checkpoint(final.value))
  }

  /** Publish a message, remember it as the one that closes the stream, and give up the replay data. */
  function EmitLast(h: Hub, r: RunId, body: Body): Hub
    requires r in h.reg.streams
  {
    Forget(Close(Emit(h, r, body), r, NextMessage(h.reg, r, body)), r)
  }

  predicate IsTerminal(body: Body) {
    body.Checkpoint? && body.snapshot.status.Some? && body.snapshot.status.value != "RUNNING"
  }

  function ApplySnapshot(h: Hub, r: RunId, body: Body): Hub {
    if r in h.reg.terminal then Forget(h, r)
    else if r in h.reg.retained && r in h.reg.streams then
      if IsTerminal(body) then EmitLast(h, r, body) else Emit(h, r, body)
    else if IsTerminal(body) then Forget(h, r)
    else h
  }

  function ApplyDelta(h: Hub, r: RunId, body: Body): Hub {
    if (body.TraceDelta? && body.delta == "") || r !in h.reg.retained || r !in h.reg.streams then h
    else Emit(h, r, body)
  }

  function ReadWire(wire: Wire, q: QueueId): Wire {
    if q !in wire.queues || wire.queues[q] == [] || q !in wire.watch then wire
    else
      wire.(queues := wire.queues[q := wire.queues[q][1..]],
            watch := wire.watch[q := wire.watch[q].(left := wire.watch[q].left + [Delivered(wire.queues[q][0])])])
  }

  function Apply(h: Hub, step: Step): Hub {
    match step
    case Subscribe(r) => ApplySubscribe(h, r)
    case Unsubscribe(r, q, clear) => Hub(h.limits, Leave(h.reg, r, q, clear, h.limits.runMax), h.wire)
    case Finish(r, final) => ApplyFinish(h, r, final)
    case PublishSnapshot(r, snapshot) => ApplySnapshot(h, r, Checkpoint(snapshot))
    case PublishDelta(r, stage, step, channel, delta) => ApplyDelta(h, r, TraceDelta(stage, step, channel, delta))
    case Read(q) => Hub(h.limits, h.reg, ReadWire(h.wire, q))
  }

  function ApplyAll(h: Hub, steps: seq<Step>): Hub {
    if steps == [] then h else Apply(ApplyAll(h, steps[..|steps| - 1]), steps[|steps| - 1])
  }

  function Empty(limits: Limits): Hub {
    Hub(limits, Registry(map[], map[], map[], map[], [], map[]), Wire(map[], map[], map[], map[], map[], 0, 0))
  }
}
