/**
 * A client of the hub across reconnects: it asks again for the stream it was following, after the last number it
 * got, as often as its connection breaks.
 */
module HubSessions {
  import opened Text
  import opened HubModel
  import opened HubInvariant
  import opened HubResults

  /**
   * `earlier` is what the client got under earlier subscriptions and as the replay of this one, `first` the number it
   * began after. `whole` says that no queue it gave up had dropped anything, and that every replay it needed was there.
   */
  datatype Client = Client(stream: StreamId, queue: QueueId, first: int, earlier: seq<Message>, whole: bool)

  ghost function Left(h: Hub, c: Client): seq<Out> {
    if c.queue in h.wire.watch then h.wire.watch[c.queue].left else []
  }

  /** Everything the client got of its stream. */
  ghost function Got(h: Hub, c: Client): seq<Message> {
    c.earlier + Reads(Left(h, c))
  }

  function LastNumber(got: seq<Message>, first: int): int {
    if got == [] then first else got[|got| - 1].seqNo
  }

  /** A client that starts on a stream with this replay. */
  function Started(s: Hub, q: QueueId, r: RunId, replay: seq<Message>): Client {
    Client(Get(s.reg.streams, r, 0), q, Get(s.reg.seqs, r, 0) - |replay|, replay, true)
  }

  /** The first subscription. */
  ghost function Connected(h: Hub, r: RunId, stream: Option<StreamId>, after: Option<int>): Client {
    var s := Apply(h, Subscribe(r));
    Started(s, h.wire.nextQueue, r, if r in s.reg.streams then Replay(s.reg, r, stream, after) else [])
  }

  /** The client subscribes again, asking for what follows the last message it got. */
  ghost function Reconnected(h: Hub, c: Client, r: RunId): Client {
    var s := Apply(h, Subscribe(r));
    var last := LastNumber(Got(h, c), c.first);
    if r !in s.reg.streams || s.reg.streams[r] != c.stream then
      // The run has a new stream: the old one is over, and the client starts afresh.
      Started(s, h.wire.nextQueue, r, [])
    else
      var replay := Replay(s.reg, r, Some(c.stream), Some(last));
      Client(c.stream, h.wire.nextQueue, c.first, Got(h, c) + replay,
             c.whole && NothingDropped(Left(h, c)) && last + |replay| == Get(s.reg.seqs, r, 0))
  }

  /** A client's history: what happens under each subscription before the next. */
  ghost function Session(h: Hub, r: RunId, stream: Option<StreamId>, after: Option<int>, legs: seq<seq<Step>>)
    : (Hub, Client)
  {
    if legs == [] then (Apply(h, Subscribe(r)), Connected(h, r, stream, after))
    else
      var (e, c) := Session(h, r, stream, after, legs[..|legs| - 1]);
      var broken := ApplyAll(e, legs[|legs| - 1]);
      (Apply(broken, Subscribe(r)), Reconnected(broken, c, r))
  }

  /** The message is the one its number names in the log, and its number is at most n. */
  predicate InLog(m: Message, log: seq<Message>, n: nat) {
    0 < m.seqNo <= n && m.seqNo <= |log| && m == log[m.seqNo - 1]
  }

  ghost predicate FromLog(messages: seq<Message>, log: seq<Message>, n: nat) {
    forall i {:trigger InLog(messages[i], log, n)} :: 0 <= i < |messages| ==> InLog(messages[i], log, n)
  }

  predicate After(messages: seq<Message>, n: int) {
    forall i :: 0 <= i < |messages| ==> n < messages[i].seqNo
  }

  predicate UpTo(messages: seq<Message>, n: int) {
    forall i :: 0 <= i < |messages| ==> messages[i].seqNo <= n
  }

  predicate InNumber(log: seq<Message>) {
    forall i :: 0 <= i < |log| ==> log[i].seqNo == i + 1
  }

  /** What a client has before it reads from its queue. */
  ghost predicate Holds(log: seq<Message>, first: int, earlier: seq<Message>, joined: nat, whole: bool) {
    && 0 <= first <= joined <= |log|
    && FromLog(earlier, log, joined) && Ascending(earlier)
    && After(earlier, first)
    && (whole ==> earlier == log[first..joined])
  }

  ghost predicate Follows(h: Hub, c: Client) {
    && Inv(h) && c.queue in h.wire.watch && c.queue in h.wire.queues
    && h.wire.watch[c.queue].stream == c.stream && c.stream in h.wire.log
    && Holds(h.wire.log[c.stream], c.first, c.earlier, h.wire.watch[c.queue].joined, c.whole)
  }

  /** What a client got, all in all. */
  ghost predicate GotInOrder(log: seq<Message>, first: int, got: seq<Message>, whole: bool) {
    && 0 <= first <= |log| && FromLog(got, log, |log|) && Ascending(got)
    && After(got, first)
    && (whole ==> got <= log[first..])
  }

  lemma LogGrows(early: seq<Message>, log: seq<Message>, first: int, earlier: seq<Message>, joined: nat, whole: bool)
    requires early <= log && Holds(early, first, earlier, joined, whole)
    ensures Holds(log, first, earlier, joined, whole)
  {
    FromLogLater(earlier, early, log, joined, joined);
    assert early[first..joined] == log[first..joined];
  }

  lemma StillFollows(h: Hub, c: Client, steps: seq<Step>)
    requires Follows(h, c)
    ensures Follows(ApplyAll(h, steps), c)
  {
    var e := ApplyAll(h, steps);
    InvAlways(h, steps);
    assert LeftLater(h.wire.watch[c.queue], e.wire.watch[c.queue]);
    LogGrows(h.wire.log[c.stream], e.wire.log[c.stream], c.first, c.earlier, h.wire.watch[c.queue].joined, c.whole);
  }

  lemma {:induction false} ReadWasLeft(left: seq<Out>, i: nat) returns (k: nat)
    requires i < |Reads(left)|
    ensures k < |left| && left[k].message == Reads(left)[i]
  {
    var n := |left| - 1;
    if i < |Reads(left[..n])| {
      k := ReadWasLeft(left[..n], i);
    } else {
      k := n;
    }
  }

  /** What was read from a queue that joined the log. */
  lemma ReadsAreLogged(log: seq<Message>, joined: nat, left: seq<Out>)
    requires joined <= |log| && Messages(left) <= log[joined..] && InNumber(log)
    ensures FromLog(Reads(left), log, |log|) && Ascending(Reads(left))
    ensures After(Reads(left), joined)
    ensures NothingDropped(left) ==> Reads(left) == Messages(left)
  {
    assert Messages(left) + [] == Messages(left);
    LeftNumbered(log, joined, left, []);
    ReadsInOrder(left, joined + 1);
    forall i | 0 <= i < |Reads(left)| ensures InLog(Reads(left)[i], log, |log|) {
      var k := ReadWasLeft(left, i);
      assert Messages(left)[k] == log[joined..][k];
    }
  }

  lemma Together(log: seq<Message>, first: int, earlier: seq<Message>, joined: nat, left: seq<Out>, whole: bool)
    requires Holds(log, first, earlier, joined, whole)
    requires Messages(left) <= log[joined..] && InNumber(log)
    ensures GotInOrder(log, first, earlier + Reads(left), whole && NothingDropped(left))
  {
    ReadsAreLogged(log, joined, left);
    FromLogLater(earlier, log, log, joined, |log|);
    FromLogIsUpTo(earlier, log, joined);
    Join(earlier, Reads(left), log, first, joined);
    if whole && NothingDropped(left) {
      assert log[first..] == log[first..joined] + log[joined..];
    }
  }

  lemma GotIsInOrder(h: Hub, c: Client)
    requires Follows(h, c)
    ensures GotInOrder(h.wire.log[c.stream], c.first, Got(h, c), c.whole && NothingDropped(Left(h, c)))
  {
    var w := h.wire.watch[c.queue];
    assert Faithful(h.wire.log, w, h.wire.queues[c.queue], h.limits.queueMax);
    NumberedFromOne(h.wire.log[c.stream], c.stream, h.wire.owner[c.stream]);
    assert Messages(w.left) <= Received(w, h.wire.queues[c.queue]);
    Together(h.wire.log[c.stream], c.first, c.earlier, w.joined, w.left, c.whole);
  }

  lemma FromLogLater(messages: seq<Message>, early: seq<Message>, log: seq<Message>, n: nat, m: nat)
    requires early <= log && FromLog(messages, early, n) && n <= m
    ensures FromLog(messages, log, m)
  {
    forall i | 0 <= i < |messages| ensures InLog(messages[i], log, m) {
      assert InLog(messages[i], early, n);
    }
  }

  lemma FromLogAppend(a: seq<Message>, b: seq<Message>, log: seq<Message>, n: nat)
    requires FromLog(a, log, n) && FromLog(b, log, n)
    ensures FromLog(a + b, log, n)
  {
    forall i | 0 <= i < |a + b| ensures InLog((a + b)[i], log, n) {
      assert i < |a| ==> InLog(a[i], log, n);
      assert i >= |a| ==> InLog(b[i - |a|], log, n);
    }
  }

  /** Two parts of what a client got, cut at a number. */
  lemma Join(a: seq<Message>, b: seq<Message>, log: seq<Message>, first: int, cut: int)
    requires FromLog(a, log, |log|) && FromLog(b, log, |log|) && Ascending(a) && Ascending(b)
    requires first <= cut && After(a, first) && UpTo(a, cut) && After(b, cut)
    ensures FromLog(a + b, log, |log|) && Ascending(a + b) && After(a + b, first)
  {
    FromLogAppend(a, b, log, |log|);
    AscendingAppend(a, b, cut);
  }

  lemma FromLogIsUpTo(messages: seq<Message>, log: seq<Message>, n: nat)
    requires FromLog(messages, log, n)
    ensures UpTo(messages, n)
  {
    forall i | 0 <= i < |messages| ensures messages[i].seqNo <= n {
      assert InLog(messages[i], log, n);
    }
  }

  /** A replay after `last` is in the log, in order, and all of it is later. */
  lemma TailIsLogged(log: seq<Message>, replay: seq<Message>, last: int)
    requires IsTail(log, replay, Some(last)) && InNumber(log)
    ensures FromLog(replay, log, |log|) && Ascending(replay)
    ensures After(replay, last)
  {
    forall i | 0 <= i < |replay|
      ensures InLog(replay[i], log, |log|) && replay[i].seqNo == |log| - |replay| + i + 1
    {
      assert replay[i] == log[|log| - |replay| + i];
    }
  }

  lemma LastIsHighest(log: seq<Message>, first: int, got: seq<Message>, whole: bool)
    requires GotInOrder(log, first, got, whole) && InNumber(log)
    ensures var last := LastNumber(got, first);
            && first <= last <= |log| && UpTo(got, last)
            && (whole ==> last == first + |got| && got == log[first..last])
  {
    if got != [] {
      assert InLog(got[|got| - 1], log, |log|);
      if whole {
        assert got[|got| - 1] == log[first..][|got| - 1];
      }
    }
  }

  lemma Appended(log: seq<Message>, first: int, last: int, replay: seq<Message>)
    requires 0 <= first <= last <= |log| && IsTail(log, replay, Some(last)) && last + |replay| == |log|
    ensures log[first..last] + replay == log[first..|log|]
  {
  }

  /** Asking after the last number continues where the client stopped. */
  lemma Resumed(early: seq<Message>, log: seq<Message>, first: int, got: seq<Message>, whole: bool, replay: seq<Message>)
    requires early <= log && GotInOrder(early, first, got, whole)
    requires InNumber(log)
    requires IsTail(log, replay, Some(LastNumber(got, first)))
    ensures Holds(log, first, got + replay, |log|, whole && LastNumber(got, first) + |replay| == |log|)
  {
    var last := LastNumber(got, first);
    assert forall i :: 0 <= i < |early| ==> early[i] == log[i];
    LastIsHighest(early, first, got, whole);
    FromLogLater(got, early, log, |early|, |log|);
    TailIsLogged(log, replay, last);
    Join(got, replay, log, first, last);
    if whole && last + |replay| == |log| {
      assert got == log[first..last];
      Appended(log, first, last, replay);
    }
  }

  // ---------------------------------------------------------------- subscribing

  lemma JoinedQueue(s: Hub, q: QueueId, r: RunId, replay: seq<Message>, after: Option<int>)
    requires Inv(s) && JustJoined(s, q, r, replay, after)
    ensures q in s.wire.queues && InNumber(s.wire.log[s.reg.streams[r]])
    ensures Get(s.reg.seqs, r, 0) == |s.wire.log[s.reg.streams[r]]|
  {
    NumberedFromOne(s.wire.log[s.reg.streams[r]], s.reg.streams[r], s.wire.owner[s.reg.streams[r]]);
    ReplayIsExact(s, r, None, None);
  }

  lemma TailIsHeld(log: seq<Message>, replay: seq<Message>, after: Option<int>)
    requires IsTail(log, replay, after) && InNumber(log)
    ensures Holds(log, |log| - |replay|, replay, |log|, true)
  {
    var last := |log| - |replay|;
    assert IsTail(log, replay, Some(last));
    TailIsLogged(log, replay, last);
  }

  lemma StartedFollows(s: Hub, q: QueueId, r: RunId, replay: seq<Message>, after: Option<int>)
    requires Inv(s) && JustJoined(s, q, r, replay, after)
    ensures Follows(s, Started(s, q, r, replay))
  {
    JoinedQueue(s, q, r, replay, after);
    TailIsHeld(s.wire.log[s.reg.streams[r]], replay, after);
  }

  lemma ConnectedFollows(h: Hub, r: RunId, stream: Option<StreamId>, after: Option<int>)
    requires Inv(h)
    ensures Follows(Apply(h, Subscribe(r)), Connected(h, r, stream, after))
  {
    var s := Apply(h, Subscribe(r));
    SubscribedAt(h, r, stream, after);
    StartedFollows(s, h.wire.nextQueue, r, Replay(s.reg, r, stream, after), after);
  }

  lemma ResumedFollows(h: Hub, s: Hub, c: Client, r: RunId, q: QueueId, replay: seq<Message>)
    requires Follows(h, c) && Inv(s) && Evolves(h.wire, s.wire)
    requires JustJoined(s, q, r, replay, Some(LastNumber(Got(h, c), c.first))) && s.reg.streams[r] == c.stream
    ensures Follows(s, Client(c.stream, q, c.first, Got(h, c) + replay,
                              c.whole && NothingDropped(Left(h, c))
                              && LastNumber(Got(h, c), c.first) + |replay| == Get(s.reg.seqs, r, 0)))
  {
    GotIsInOrder(h, c);
    JoinedQueue(s, q, r, replay, Some(LastNumber(Got(h, c), c.first)));
    assert h.wire.log[c.stream] <= s.wire.log[c.stream];
    Resumed(h.wire.log[c.stream], s.wire.log[c.stream], c.first, Got(h, c), c.whole && NothingDropped(Left(h, c)),
            replay);
  }

  lemma ReconnectedFollows(h: Hub, c: Client, r: RunId)
    requires Follows(h, c)
    ensures Follows(Apply(h, Subscribe(r)), Reconnected(h, c, r))
  {
    var s := Apply(h, Subscribe(r));
    var last := LastNumber(Got(h, c), c.first);
    SubscribedAt(h, r, Some(c.stream), Some(last));
    StepSound(h, Subscribe(r));
    if s.reg.streams[r] == c.stream {
      ResumedFollows(h, s, c, r, h.wire.nextQueue, Replay(s.reg, r, Some(c.stream), Some(last)));
    } else {
      SubscribedAt(h, r, None, None);
      StartedFollows(s, h.wire.nextQueue, r, [], None);
    }
  }

  lemma {:induction false} SessionFollows(h: Hub, r: RunId, stream: Option<StreamId>, after: Option<int>,
                                          legs: seq<seq<Step>>)
    requires Inv(h)
    ensures var (e, c) := Session(h, r, stream, after, legs); Follows(e, c)
  {
    if legs == [] {
      ConnectedFollows(h, r, stream, after);
    } else {
      var n := |legs| - 1;
      var (e, c) := Session(h, r, stream, after, legs[..n]);
      SessionFollows(h, r, stream, after, legs[..n]);
      StillFollows(e, c, legs[n]);
      ReconnectedFollows(ApplyAll(e, legs[n]), c, r);
    }
  }

  /**
   * However often a client reconnects, and whatever happens in between: everything it got of its stream, under all its
   * subscriptions together, is from the stream's log, in order and without a repetition, and it is a stretch of the
   * log without a gap unless a queue dropped a message or the history no longer reached back to where it had stopped.
   */
  lemma ExactlyOnceAcrossReconnects(h: Hub, r: RunId, stream: Option<StreamId>, after: Option<int>,
                                    legs: seq<seq<Step>>, later: seq<Step>)
    requires Inv(h)
    ensures var (s, c) := Session(h, r, stream, after, legs);
            var e := ApplyAll(s, later);
            c.stream in e.wire.log
            && GotInOrder(e.wire.log[c.stream], c.first, Got(e, c), c.whole && NothingDropped(Left(e, c)))
  {
    var (s, c) := Session(h, r, stream, after, legs);
    SessionFollows(h, r, stream, after, legs);
    StillFollows(s, c, later);
    GotIsInOrder(ApplyAll(s, later), c);
  }

  /** When a reconnect on the same stream loses nothing: the client has the latest message, or the replay is there. */
  lemma ReconnectIsWhole(h: Hub, c: Client, r: RunId)
    requires Follows(h, c)
    requires r in Apply(h, Subscribe(r)).reg.streams && Apply(h, Subscribe(r)).reg.streams[r] == c.stream
    requires c.whole && NothingDropped(Left(h, c))
    ensures var s, last := Apply(h, Subscribe(r)), LastNumber(Got(h, c), c.first);
            Reconnected(h, c, r).whole
            <==> last == Get(s.reg.seqs, r, 0) || CanResume(s.reg, r, Some(c.stream), Some(last))
  {
    var s, last := Apply(h, Subscribe(r)), LastNumber(Got(h, c), c.first);
    SubscribedAt(h, r, Some(c.stream), Some(last));
    ReplayIsExact(s, r, Some(c.stream), Some(last));
  }
}
