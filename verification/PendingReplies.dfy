/** Reply demultiplexing in the client (trql-client/src/pending.rs, didcomm.rs, tsp.rs). */
module PendingReplies {
  import opened Domain

  /** A reply document, as far as routing and classification look at it. */
  datatype Reply = Reply(threadId: Option<string>, slug: string, isResponse: bool, payload: Json)

  /** A one-shot channel: what was sent into it, and which of its ends still exist. */
  datatype Channel = Channel(slot: Option<Reply>, senderAlive: bool, receiverAlive: bool)

  /** The shared waiter map; channels are numbered in the order they were made. */
  datatype Board = Board(waiters: map<string, nat>, channels: seq<Channel>)

  function DropSender(b: Board, id: string): Board {
    if id in b.waiters && b.waiters[id] < |b.channels| then
      var n := b.waiters[id];
      b.(waiters := b.waiters - {id}, channels := b.channels[n := b.channels[n].(senderAlive := false)])
    else b.(waiters := b.waiters - {id})
  }

  /** `register`: replacing a waiter drops its sender. */
  function Registered(b: Board, id: string): Board {
    var cleared := DropSender(b, id);
    Board(cleared.waiters[id := |cleared.channels|], cleared.channels + [Channel(None, true, true)])
  }

  /** The first half of `route`: take the sender under the lock. */
  function Taken(b: Board, doc: Reply): (Board, Option<nat>) {
    if doc.threadId.Some? && doc.threadId.value in b.waiters then
      (b.(waiters := b.waiters - {doc.threadId.value}), Some(b.waiters[doc.threadId.value]))
    else (b, None)
  }

  /** The second half: sending uses the sender up, and succeeds while the receiver exists. */
  function Delivered(b: Board, n: nat, doc: Reply): Board
    requires n < |b.channels|
  {
    var c := b.channels[n];
    b.(channels := b.channels[n := Channel(if c.receiverAlive then Some(doc) else c.slot, false, c.receiverAlive)])
  }

  class Pending {
    var waiters: map<string, nat>
    var channels: seq<Channel>

    ghost predicate Valid()
      reads this
    {
      forall id :: id in waiters ==> waiters[id] < |channels|
    }

    ghost function View(): Board
      reads this
    {
      Board(waiters, channels)
    }

    constructor ()
      ensures Valid() && View() == Board(map[], [])
    {
      waiters := map[];
      channels := [];
    }

    method Register(id: string) returns (receiver: nat)
      requires Valid()
      modifies this
      ensures Valid() && View() == Registered(old(View()), id) && receiver == |old(channels)|
    {
      receiver := |channels|;
      if id in waiters {
        channels := channels[waiters[id] := channels[waiters[id]].(senderAlive := false)];
      }
      waiters := waiters[id := receiver];
      channels := channels + [Channel(None, true, true)];
      assert waiters == (old(waiters) - {id})[id := receiver];
    }

    method Abandon(id: string)
      requires Valid()
      modifies this
      ensures Valid() && View() == DropSender(old(View()), id)
    {
      if id in waiters {
        channels := channels[waiters[id] := channels[waiters[id]].(senderAlive := false)];
      }
      waiters := waiters - {id};
    }

    method Route(doc: Reply) returns (routed: bool)
      requires Valid()
      modifies this
      ensures Valid()
      ensures var (taken, n) := Taken(old(View()), doc);
        if n.None? then View() == old(View()) && !routed
        else View() == Delivered(taken, n.value, doc) && routed == taken.channels[n.value].receiverAlive
    {
      if doc.threadId.None? || doc.threadId.value !in waiters {
        return false;
      }
      var n := waiters[doc.threadId.value];
      waiters := waiters - {doc.threadId.value};
      var c := channels[n];
      channels := channels[n := Channel(if c.receiverAlive then Some(doc) else c.slot, false, c.receiverAlive)];
      routed := c.receiverAlive;
    }
  }

  // ------------------------------------------------ exchanges interleaved with the demux task

  datatype Ending = Answered(doc: Reply) | SendFailed | TimedOut | Closed

  /**
   * `exchange`, step by step. `Expired`: the timer has fired but the receiver still exists.
   * `Leaving`: an error is decided and `abandon` is still to come. `Left`: abandoned, not yet returned.
   */
  datatype Phase = Sending | Awaiting | Expired | Leaving(why: Ending) | Left(why: Ending) | Finished(result: Ending)

  datatype Exchange = Exchange(requestId: string, phase: Phase)

  /** The demux task: idle, between the halves of `route`, or about to acknowledge a routed frame. */
  datatype Demux = Idle | Holding(n: nat, doc: Reply) | AckDue(n: nat, doc: Reply)

  /** `sent` and `acked` record what the demux task has done, with the waiter it was done for. */
  datatype System = System(
    board: Board,
    exchanges: seq<Exchange>,
    demux: Demux,
    sent: seq<(nat, Reply)>,
    acked: seq<(nat, Reply)>)

  datatype Action =
    | Begin(id: string)
    | SendAccepted(i: nat)
    | SendRefused(i: nat)
    | ReplyReady(i: nat)
    | SenderLost(i: nat)
    | TimerFires(i: nat)
    | ReceiverDropped(i: nat)
    | Abandons(i: nat)
    | Returns(i: nat)
    | FrameArrives(doc: Reply)
    | Sends
    | Acks

  predicate At(s: System, i: nat, phase: Phase) {
    i < |s.exchanges| && s.exchanges[i].phase == phase
  }

  ghost predicate Enabled(s: System, a: Action) {
    && |s.exchanges| == |s.board.channels|
    && match a
       case Begin(_) => true
       case SendAccepted(i) => At(s, i, Sending)
       case SendRefused(i) => At(s, i, Sending)
       case ReplyReady(i) => At(s, i, Awaiting) && s.board.channels[i].slot.Some?
       case SenderLost(i) => At(s, i, Awaiting) && s.board.channels[i].slot.None? && !s.board.channels[i].senderAlive
       case TimerFires(i) => At(s, i, Awaiting) && s.board.channels[i].slot.None?
       case ReceiverDropped(i) => At(s, i, Expired)
       case Abandons(i) => i < |s.exchanges| && s.exchanges[i].phase.Leaving?
       case Returns(i) => i < |s.exchanges| && s.exchanges[i].phase.Left?
       case FrameArrives(_) => s.demux.Idle?
       case Sends => s.demux.Holding? && s.demux.n < |s.board.channels|
       case Acks => s.demux.AckDue?
  }

  function Moved(s: System, i: nat, phase: Phase): System
    requires i < |s.exchanges|
  {
    s.(exchanges := s.exchanges[i := s.exchanges[i].(phase := phase)])
  }

  function WithoutReceiver(b: Board, i: nat): Board
    requires i < |b.channels|
  {
    b.(channels := b.channels[i := b.channels[i].(receiverAlive := false)])
  }

  ghost function Next(s: System, a: Action): System
    requires Enabled(s, a)
  {
    match a
    case Begin(id) => s.(board := Registered(s.board, id), exchanges := s.exchanges + [Exchange(id, Sending)])
    case SendAccepted(i) => Moved(s, i, Awaiting)
    case SendRefused(i) => Moved(s, i, Leaving(SendFailed))
    case ReplyReady(i) =>
      Moved(s.(board := WithoutReceiver(s.board, i)), i, Finished(Answered(s.board.channels[i].slot.value)))
    case SenderLost(i) => Moved(s.(board := WithoutReceiver(s.board, i)), i, Leaving(Closed))
    case TimerFires(i) => Moved(s, i, Expired)
    case ReceiverDropped(i) => Moved(s.(board := WithoutReceiver(s.board, i)), i, Leaving(TimedOut))
    case Abandons(i) =>
      Moved(s.(board := DropSender(s.board, s.exchanges[i].requestId)), i, Left(s.exchanges[i].phase.why))
    case Returns(i) => Moved(s.(board := WithoutReceiver(s.board, i)), i, Finished(s.exchanges[i].phase.why))
    case FrameArrives(doc) =>
      var (board', n) := Taken(s.board, doc);
      s.(board := board', demux := if n.Some? then Holding(n.value, doc) else Idle)
    case Sends =>
      var Holding(n, doc) := s.demux;
      if s.board.channels[n].receiverAlive then
        s.(board := Delivered(s.board, n, doc), demux := AckDue(n, doc), sent := s.sent + [(n, doc)])
      else s.(board := Delivered(s.board, n, doc), demux := Idle)
    case Acks => s.(demux := Idle, acked := s.acked + [(s.demux.n, s.demux.doc)])
  }

  const START := System(Board(map[], []), [], Idle, [], [])

  ghost predicate Run(s: System, actions: seq<Action>)
    decreases |actions|
  {
    actions != [] ==> Enabled(s, actions[0]) && Run(Next(s, actions[0]), actions[1..])
  }

  ghost function Final(s: System, actions: seq<Action>): System
    requires Run(s, actions)
    decreases |actions|
  {
    if actions == [] then s else Final(Next(s, actions[0]), actions[1..])
  }

  // ------------------------------------------------ what holds in every run

  predicate Unfinished(p: Phase) {
    p.Sending? || p.Awaiting? || p.Expired? || p.Leaving?
  }

  /** A sender still waiting to be used for exchange `n`. */
  ghost predicate Unused(s: System, n: nat) {
    n < |s.exchanges| && n < |s.board.channels|
    && s.board.channels[n].senderAlive && s.board.channels[n].slot.None?
  }

  /** A registered waiter belongs to an unfinished exchange with that request id. */
  ghost predicate WaiterSound(s: System, id: string)
    requires id in s.board.waiters
  {
    var n := s.board.waiters[id];
    Unused(s, n) && s.exchanges[n].requestId == id && Unfinished(s.exchanges[n].phase)
  }

  ghost predicate WaitersSound(s: System) {
    forall id :: id in s.board.waiters ==> WaiterSound(s, id)
  }

  ghost predicate DemuxSound(s: System) {
    match s.demux
    case Idle => true
    case Holding(n, doc) =>
      && Unused(s, n) && doc.threadId == Some(s.exchanges[n].requestId)
      && forall id :: id in s.board.waiters ==> s.board.waiters[id] != n
    case AckDue(n, doc) => (n, doc) in s.sent
  }

  predicate Listening(p: Phase) {
    p.Sending? || p.Awaiting? || p.Expired?
  }

  /** What a channel holds was sent into it, once, and belongs to its exchange. */
  ghost predicate ChannelSound(s: System, n: nat)
    requires n < |s.exchanges| && n < |s.board.channels|
  {
    var c, e := s.board.channels[n], s.exchanges[n];
    && (c.slot.Some? ==> !c.senderAlive && c.slot.value.threadId == Some(e.requestId) && (n, c.slot.value) in s.sent)
    && (e.phase.Finished? && e.phase.result.Answered? ==> c.slot == Some(e.phase.result.doc))
    && (e.phase.Leaving? || e.phase.Left? ==> !e.phase.why.Answered?)
    && (Listening(e.phase) ==> c.receiverAlive)
    && ((e.phase.Leaving? && !e.phase.why.SendFailed?) || e.phase.Finished? ==> !c.receiverAlive)
  }

  ghost predicate ChannelsSound(s: System) {
    |s.exchanges| == |s.board.channels| && forall n :: 0 <= n < |s.exchanges| ==> ChannelSound(s, n)
  }

  ghost predicate LogSound(s: System) {
    && (forall i :: 0 <= i < |s.sent| ==>
          s.sent[i].0 < |s.board.channels| && s.board.channels[s.sent[i].0].slot == Some(s.sent[i].1))
    && (forall i, j :: 0 <= i < j < |s.sent| ==> s.sent[i].0 != s.sent[j].0)
    && (forall x :: x in s.acked ==> x in s.sent)
  }

  ghost predicate Inv(s: System) {
    ChannelsSound(s) && WaitersSound(s) && DemuxSound(s) && LogSound(s)
  }

  /** Steps of the demux task. */
  predicate OfDemux(a: Action) {
    a.FrameArrives? || a.Sends? || a.Acks?
  }

  /** Steps that take a sender out of the map. */
  predicate OfMap(a: Action) {
    a.Begin? || a.Abandons?
  }

  lemma ChannelStepOfDemux(s: System, a: Action, n: nat)
    requires DemuxSound(s) && Enabled(s, a) && OfDemux(a) && n < |s.exchanges| && ChannelSound(s, n)
    ensures n < |Next(s, a).exchanges| && n < |Next(s, a).board.channels| && ChannelSound(Next(s, a), n)
  {
  }

  lemma ChannelStepOfMap(s: System, a: Action, n: nat)
    requires Enabled(s, a) && OfMap(a) && n < |s.exchanges| && ChannelSound(s, n)
    ensures n < |Next(s, a).exchanges| && n < |Next(s, a).board.channels| && ChannelSound(Next(s, a), n)
  {
  }

  lemma ChannelStep(s: System, a: Action, n: nat)
    requires DemuxSound(s) && Enabled(s, a) && n < |s.exchanges| && ChannelSound(s, n)
    ensures n < |Next(s, a).exchanges| && n < |Next(s, a).board.channels| && ChannelSound(Next(s, a), n)
  {
    if OfDemux(a) {
      ChannelStepOfDemux(s, a, n);
    } else if OfMap(a) {
      ChannelStepOfMap(s, a, n);
    } else {
      ChannelStepOfExchange(s, a, n);
    }
  }

  lemma ChannelStepOfExchange(s: System, a: Action, n: nat)
    requires Enabled(s, a) && !OfDemux(a) && !OfMap(a) && n < |s.exchanges| && ChannelSound(s, n)
    ensures n < |Next(s, a).exchanges| && n < |Next(s, a).board.channels| && ChannelSound(Next(s, a), n)
  {
  }

  lemma ChannelsStep(s: System, a: Action)
    requires Inv(s) && Enabled(s, a)
    ensures ChannelsSound(Next(s, a))
  {
    var s' := Next(s, a);
    forall n | 0 <= n < |s'.exchanges|
      ensures ChannelSound(s', n)
    {
      if n < |s.exchanges| {
        ChannelStep(s, a, n);
      }
    }
  }

  lemma WaiterStep(s: System, a: Action, id: string)
    requires WaitersSound(s) && Enabled(s, a) && id in Next(s, a).board.waiters
    requires s.demux.Holding? ==> DemuxSound(s)
    ensures WaiterSound(Next(s, a), id)
  {
    if id in s.board.waiters {
      assert WaiterSound(s, id);
    }
  }

  lemma WaitersStep(s: System, a: Action)
    requires Inv(s) && Enabled(s, a)
    ensures WaitersSound(Next(s, a))
  {
    forall id | id in Next(s, a).board.waiters
      ensures WaiterSound(Next(s, a), id)
    {
      WaiterStep(s, a, id);
    }
  }

  lemma DemuxStep(s: System, a: Action)
    requires Inv(s) && Enabled(s, a)
    ensures DemuxSound(Next(s, a))
  {
  }

  lemma LogStep(s: System, a: Action)
    requires Inv(s) && Enabled(s, a)
    ensures LogSound(Next(s, a))
  {
  }

  lemma InvStep(s: System, a: Action)
    requires Inv(s) && Enabled(s, a)
    ensures Inv(Next(s, a))
  {
    ChannelsStep(s, a);
    WaitersStep(s, a);
    DemuxStep(s, a);
    LogStep(s, a);
  }

  lemma {:induction false} InvRun(s: System, actions: seq<Action>)
    requires Inv(s) && Run(s, actions)
    ensures Inv(Final(s, actions))
    decreases |actions|
  {
    if actions != [] {
      InvStep(s, actions[0]);
      InvRun(Next(s, actions[0]), actions[1..]);
    }
  }

  /**
   * In every interleaving: an answered exchange got the one document ever sent to it and that
   * document carries its request id; an acknowledged frame's document entered the channel of the
   * exchange it names; and no entry outlives its exchange.
   */
  lemma RepliesReachTheirWaiters(actions: seq<Action>)
    requires Run(START, actions)
    ensures var s := Final(START, actions);
      && |s.exchanges| == |s.board.channels|
      && (forall n, doc :: 0 <= n < |s.exchanges| && At(s, n, Finished(Answered(doc))) ==>
            doc.threadId == Some(s.exchanges[n].requestId) && (n, doc) in s.sent)
      && (forall i, j :: 0 <= i < j < |s.sent| ==> s.sent[i].0 != s.sent[j].0)
      && (forall x :: x in s.acked ==>
            && x in s.sent && x.0 < |s.exchanges|
            && s.board.channels[x.0].slot == Some(x.1) && x.1.threadId == Some(s.exchanges[x.0].requestId))
      && (forall id :: id in s.board.waiters ==> exists n ::
            0 <= n < |s.exchanges| && s.exchanges[n].requestId == id && Unfinished(s.exchanges[n].phase))
  {
    InvRun(START, actions);
    var s := Final(START, actions);
    forall n, doc | 0 <= n < |s.exchanges| && At(s, n, Finished(Answered(doc)))
      ensures doc.threadId == Some(s.exchanges[n].requestId) && (n, doc) in s.sent
    {
      assert ChannelSound(s, n);
    }
    forall x | x in s.acked
      ensures x in s.sent && x.0 < |s.exchanges|
        && s.board.channels[x.0].slot == Some(x.1) && x.1.threadId == Some(s.exchanges[x.0].requestId)
    {
      assert ChannelSound(s, x.0);
    }
  }

  // ------------------------------------------------ with fresh request ids

  ghost predicate IdUsed(s: System, id: string) {
    exists n :: 0 <= n < |s.exchanges| && s.exchanges[n].requestId == id
  }

  /** Every exchange of the run begins under an id no earlier one used. */
  ghost predicate FreshIds(s: System, actions: seq<Action>)
    requires Run(s, actions)
    decreases |actions|
  {
    actions != [] ==>
      (actions[0].Begin? ==> !IdUsed(s, actions[0].id)) && FreshIds(Next(s, actions[0]), actions[1..])
  }

  /** The receiver still listens, and has its reply or somebody who can still send it one. */
  ghost predicate Owned(s: System, n: nat)
    requires n < |s.exchanges| && n < |s.board.channels|
  {
    var c, e := s.board.channels[n], s.exchanges[n];
    Listening(e.phase) ==>
      && c.receiverAlive
      && (c.slot.Some?
          || (e.requestId in s.board.waiters && s.board.waiters[e.requestId] == n)
          || (s.demux.Holding? && s.demux.n == n))
  }

  predicate NotClosed(p: Phase) {
    (p.Leaving? || p.Left? ==> !p.why.Closed?) && (p.Finished? ==> !p.result.Closed?)
  }

  ghost predicate FreshInv(s: System) {
    && Inv(s)
    && (forall n :: 0 <= n < |s.exchanges| ==> Owned(s, n) && NotClosed(s.exchanges[n].phase))
    && (forall n, m :: 0 <= n < m < |s.exchanges| ==> s.exchanges[n].requestId != s.exchanges[m].requestId)
  }

  /** A live exchange's sender is alive, so its channel cannot close under it. */
  lemma CannotClose(s: System, i: nat)
    requires FreshInv(s)
    ensures !Enabled(s, SenderLost(i))
  {
    if At(s, i, Awaiting) {
      assert Owned(s, i);
    }
  }

  lemma OwnedStepOfMap(s: System, a: Action, n: nat)
    requires FreshInv(s) && Enabled(s, a) && OfMap(a) && n < |Next(s, a).exchanges|
    requires a.Begin? ==> !IdUsed(s, a.id)
    ensures |Next(s, a).exchanges| == |Next(s, a).board.channels|
    ensures Owned(Next(s, a), n) && NotClosed(Next(s, a).exchanges[n].phase)
  {
    if n < |s.exchanges| {
      assert Owned(s, n) && NotClosed(s.exchanges[n].phase);
    }
  }

  lemma OwnedStep(s: System, a: Action, n: nat)
    requires FreshInv(s) && Enabled(s, a) && n < |Next(s, a).exchanges|
    requires a.Begin? ==> !IdUsed(s, a.id)
    ensures |Next(s, a).exchanges| == |Next(s, a).board.channels|
    ensures Owned(Next(s, a), n) && NotClosed(Next(s, a).exchanges[n].phase)
  {
    if OfMap(a) {
      OwnedStepOfMap(s, a, n);
    } else {
      assert Owned(s, n) && NotClosed(s.exchanges[n].phase);
      if a.SenderLost? {
        CannotClose(s, a.i);
      }
    }
  }

  lemma FreshStep(s: System, a: Action)
    requires FreshInv(s) && Enabled(s, a)
    requires a.Begin? ==> !IdUsed(s, a.id)
    ensures FreshInv(Next(s, a))
  {
    InvStep(s, a);
    forall n | 0 <= n < |Next(s, a).exchanges|
      ensures Owned(Next(s, a), n) && NotClosed(Next(s, a).exchanges[n].phase)
    {
      OwnedStep(s, a, n);
    }
  }

  lemma {:induction false} FreshRun(s: System, actions: seq<Action>)
    requires FreshInv(s) && Run(s, actions) && FreshIds(s, actions)
    ensures FreshInv(Final(s, actions))
    decreases |actions|
  {
    if actions != [] {
      FreshStep(s, actions[0]);
      FreshRun(Next(s, actions[0]), actions[1..]);
    }
  }

  /** An exchange that was sent a document and has returned: it answered that document, or it had given up. */
  predicate KeptOrGivenUp(p: Phase, doc: Reply) {
    p.Finished? ==> p.result in {Answered(doc), TimedOut, SendFailed}
  }

  /**
   * With fresh ids the closed-channel error is unreachable, and a document that was sent is what
   * its exchange answers unless that exchange has given up: timed out, or could not send.
   */
  lemma FreshIdsNeverClose(actions: seq<Action>)
    requires Run(START, actions) && FreshIds(START, actions)
    ensures var s := Final(START, actions);
      && (forall n :: 0 <= n < |s.exchanges| ==> !Enabled(s, SenderLost(n)) && NotClosed(s.exchanges[n].phase))
      && (forall x :: x in s.sent ==> x.0 < |s.exchanges| && KeptOrGivenUp(s.exchanges[x.0].phase, x.1))
  {
    FreshRun(START, actions);
    var s := Final(START, actions);
    forall n | 0 <= n < |s.exchanges|
      ensures !Enabled(s, SenderLost(n)) && NotClosed(s.exchanges[n].phase)
    {
      CannotClose(s, n);
    }
    forall x | x in s.sent
      ensures KeptOrGivenUp(s.exchanges[x.0].phase, x.1)
    {
      assert ChannelSound(s, x.0) && NotClosed(s.exchanges[x.0].phase);
    }
  }

  /** When every exchange has returned, nothing is left waiting. */
  lemma QuiescentBoardIsEmpty(actions: seq<Action>)
    requires Run(START, actions)
    requires forall n :: 0 <= n < |Final(START, actions).exchanges| ==> Final(START, actions).exchanges[n].phase.Finished?
    ensures Final(START, actions).board.waiters == map[]
  {
    InvRun(START, actions);
  }

  // ------------------------------------------------ two runs that bound those results

  lemma SentTooLate(s: System, n: nat, doc: Reply)
    requires |s.exchanges| == |s.board.channels| && At(s, n, Expired) && s.demux == Holding(n, doc)
    requires s.board.channels[n].receiverAlive
    ensures var actions := [Sends] + ([ReceiverDropped(n)] + [Acks]);
      && Run(s, actions)
      && (n, doc) in Final(s, actions).acked
      && At(Final(s, actions), n, Leaving(TimedOut))
  {
    var s1 := Next(s, Sends);
    assert s1.demux == AckDue(n, doc);
    var s2 := Next(s1, ReceiverDropped(n));
    Unroll(s2, Acks, []);
    Unroll(s1, ReceiverDropped(n), [Acks]);
    Unroll(s, Sends, [ReceiverDropped(n)] + [Acks]);
  }

  /**
   * A reply sent between the timer and the receiver's end is acknowledged and seen by nobody: from
   * any state with exchange `n` registered and awaiting its reply, and the demux task idle, five steps do it.
   */
  lemma AckedReplyCanBeLost(s: System, n: nat, doc: Reply)
    requires |s.exchanges| == |s.board.channels| && At(s, n, Awaiting) && s.demux.Idle?
    requires doc.threadId == Some(s.exchanges[n].requestId) && s.board.channels[n] == Channel(None, true, true)
    requires s.exchanges[n].requestId in s.board.waiters && s.board.waiters[s.exchanges[n].requestId] == n
    ensures var actions := [FrameArrives(doc), TimerFires(n), Sends, ReceiverDropped(n), Acks];
      && Run(s, actions)
      && (n, doc) in Final(s, actions).acked
      && At(Final(s, actions), n, Leaving(TimedOut))
  {
    var s1 := Next(s, FrameArrives(doc));
    var s2 := Next(s1, TimerFires(n));
    var late := [Sends] + ([ReceiverDropped(n)] + [Acks]);
    SentTooLate(s2, n, doc);
    Unroll(s1, TimerFires(n), late);
    Unroll(s, FrameArrives(doc), [TimerFires(n)] + late);
    assert [FrameArrives(doc), TimerFires(n), Sends, ReceiverDropped(n), Acks]
      == [FrameArrives(doc)] + ([TimerFires(n)] + late);
  }

  lemma Unroll(s: System, a: Action, rest: seq<Action>)
    requires Enabled(s, a) && Run(Next(s, a), rest)
    ensures Run(s, [a] + rest) && Final(s, [a] + rest) == Final(Next(s, a), rest)
  {
    assert ([a] + rest)[1..] == rest;
  }

  /** Such a state comes about: the first two steps of any exchange lead to one. */
  lemma AnyExchangeAwaits(id: string)
    ensures var actions := [Begin(id)] + [SendAccepted(0)];
      && Run(START, actions) && FreshIds(START, actions)
      && var s := Final(START, actions);
         && |s.exchanges| == |s.board.channels| == 1 && At(s, 0, Awaiting) && s.demux.Idle?
         && s.exchanges[0].requestId == id && s.board.channels[0] == Channel(None, true, true)
         && id in s.board.waiters && s.board.waiters[id] == 0
  {
    var s1 := Next(START, Begin(id));
    assert s1.board.waiters == map[id := 0];
    assert ([Begin(id)] + [SendAccepted(0)])[1..] == [SendAccepted(0)];
    assert [SendAccepted(0)][1..] == [];
    Unroll(s1, SendAccepted(0), []);
    Unroll(START, Begin(id), [SendAccepted(0)]);
  }

  // ------------------------------------------------ which sent replies are answers

  lemma {:induction false} RunConcat(s: System, a: seq<Action>, b: seq<Action>)
    requires Run(s, a + b)
    ensures Run(s, a) && Run(Final(s, a), b) && Final(s, a + b) == Final(Final(s, a), b)
    decreases |a|
  {
    if a == [] {
      assert a + b == b;
    } else {
      assert (a + b)[1..] == a[1..] + b;
      RunConcat(Next(s, a[0]), a[1..], b);
    }
  }

  /** The exchange awaits with the document in its channel, or has answered it. */
  predicate Kept(s: System, n: nat, doc: Reply) {
    n < |s.exchanges| && n < |s.board.channels| && s.board.channels[n].slot == Some(doc)
    && s.exchanges[n].phase in {Awaiting, Finished(Answered(doc))}
  }

  /** The exchange can no longer answer anything. */
  predicate GivenUp(s: System, n: nat) {
    n < |s.exchanges| &&
    match s.exchanges[n].phase
    case Expired => true
    case Leaving(why) => !why.Answered?
    case Left(why) => !why.Answered?
    case Finished(result) => !result.Answered?
    case _ => false
  }

  lemma {:induction false} KeptRun(s: System, actions: seq<Action>, n: nat, doc: Reply)
    requires Inv(s) && Run(s, actions) && Kept(s, n, doc)
    ensures Kept(Final(s, actions), n, doc)
    decreases |actions|
  {
    if actions != [] {
      assert ChannelSound(s, n);
      KeptStep(s, actions[0], n, doc);
      InvStep(s, actions[0]);
      KeptRun(Next(s, actions[0]), actions[1..], n, doc);
    }
  }

  lemma KeptStep(s: System, a: Action, n: nat, doc: Reply)
    requires WaitersSound(s) && DemuxSound(s) && Enabled(s, a) && Kept(s, n, doc)
    ensures Kept(Next(s, a), n, doc)
  {
  }

  lemma {:induction false} GivenUpRun(s: System, actions: seq<Action>, n: nat)
    requires Run(s, actions) && GivenUp(s, n)
    ensures GivenUp(Final(s, actions), n)
    decreases |actions|
  {
    if actions != [] {
      GivenUpRun(Next(s, actions[0]), actions[1..], n);
    }
  }

  /** While the request is still being sent, the reply already in its channel is decided by how that ends. */
  lemma {:induction false} SendingRun(s: System, actions: seq<Action>, n: nat, doc: Reply)
    requires Inv(s) && Run(s, actions)
    requires At(s, n, Sending) && s.board.channels[n].slot == Some(doc)
    requires n < |Final(s, actions).exchanges| && Final(s, actions).exchanges[n].phase.Finished?
    ensures At(Final(s, actions), n, Finished(Answered(doc))) <==> SendAccepted(n) in actions
    decreases |actions|
  {
    var a, rest := actions[0], actions[1..];
    assert actions == [a] + rest;
    InvStep(s, a);
    if a == SendAccepted(n) {
      KeptRun(Next(s, a), rest, n, doc);
    } else if a == SendRefused(n) {
      GivenUpRun(Next(s, a), rest, n);
      OnlySentOnce(Next(s, a), rest, n);
    } else {
      SendingStays(s, a, n, doc);
      SendingRun(Next(s, a), rest, n, doc);
    }
  }

  lemma SendingStays(s: System, a: Action, n: nat, doc: Reply)
    requires WaitersSound(s) && DemuxSound(s) && Enabled(s, a) && At(s, n, Sending) && s.board.channels[n].slot == Some(doc)
    requires a != SendAccepted(n) && a != SendRefused(n)
    ensures At(Next(s, a), n, Sending) && n < |Next(s, a).board.channels| && Next(s, a).board.channels[n].slot == Some(doc)
  {
  }

  lemma {:induction false} OnlySentOnce(s: System, actions: seq<Action>, n: nat)
    requires Run(s, actions) && GivenUp(s, n)
    ensures SendAccepted(n) !in actions
    decreases |actions|
  {
    if actions != [] {
      OnlySentOnce(Next(s, actions[0]), actions[1..], n);
      assert actions == [actions[0]] + actions[1..];
    }
  }

  /**
   * In every run, a reply the demux task sends is what its exchange finally answers exactly when at
   * that step the exchange was awaiting, or was still sending and its send was accepted later.
   */
  lemma SentReplyIsAnswerIff(before: seq<Action>, after: seq<Action>, n: nat, doc: Reply)
    requires Run(START, before + ([Sends] + after))
    requires Run(START, before) && Final(START, before).demux == Holding(n, doc)
    requires var t := Final(START, before + ([Sends] + after)); n < |t.exchanges| && t.exchanges[n].phase.Finished?
    ensures var s := Final(START, before);
      At(Final(START, before + ([Sends] + after)), n, Finished(Answered(doc))) <==>
        At(s, n, Awaiting) || (At(s, n, Sending) && SendAccepted(n) in after)
  {
    RunConcat(START, before, [Sends] + after);
    InvRun(START, before);
    var s := Final(START, before);
    assert ([Sends] + after)[1..] == after;
    SentFromHere(s, after, n, doc);
  }

  lemma SentFromHere(s: System, after: seq<Action>, n: nat, doc: Reply)
    requires Inv(s) && s.demux == Holding(n, doc) && Enabled(s, Sends) && Run(Next(s, Sends), after)
    requires var t := Final(Next(s, Sends), after); n < |t.exchanges| && t.exchanges[n].phase.Finished?
    ensures At(Final(Next(s, Sends), after), n, Finished(Answered(doc))) <==>
      At(s, n, Awaiting) || (At(s, n, Sending) && SendAccepted(n) in after)
  {
    var s1 := Next(s, Sends);
    InvStep(s, Sends);
    assert ChannelSound(s, n);
    if At(s, n, Awaiting) {
      KeptRun(s1, after, n, doc);
    } else if At(s, n, Sending) {
      SendingRun(s1, after, n, doc);
    } else {
      GivenUpRun(s1, after, n);
    }
  }

  // ------------------------------------------------ which channels close

  predicate HasEntry(s: System, n: nat) {
    n < |s.exchanges| && s.exchanges[n].requestId in s.board.waiters && s.board.waiters[s.exchanges[n].requestId] == n
  }

  /** The step replaces or removes exchange `n`'s entry on behalf of another exchange with the same id. */
  predicate Displaces(s: System, a: Action, n: nat) {
    HasEntry(s, n) &&
    match a
    case Begin(id) => id == s.exchanges[n].requestId
    case Abandons(i) => i != n && i < |s.exchanges| && s.exchanges[i].requestId == s.exchanges[n].requestId
    case _ => false
  }

  ghost predicate DisplacedIn(s: System, actions: seq<Action>, n: nat)
    requires Run(s, actions)
    decreases |actions|
  {
    actions != [] && (Displaces(s, actions[0], n) || DisplacedIn(Next(s, actions[0]), actions[1..], n))
  }

  /** A listening exchange without a reply has a sender left exactly when it was not displaced. */
  ghost predicate LostExactly(s: System, n: nat, displaced: bool) {
    if n >= |s.exchanges| then !displaced
    else
      n < |s.board.channels| &&
      (Listening(s.exchanges[n].phase) && s.board.channels[n].slot.None? ==>
         if displaced then !s.board.channels[n].senderAlive
         else HasEntry(s, n) || (s.demux.Holding? && s.demux.n == n))
  }

  lemma LostStays(s: System, a: Action, n: nat)
    requires WaitersSound(s) && DemuxSound(s) && Enabled(s, a) && n < |s.exchanges| && ChannelSound(s, n)
    requires LostExactly(s, n, true)
    ensures LostExactly(Next(s, a), n, true)
  {
  }

  lemma KeptUnlessDisplacedByMap(s: System, a: Action, n: nat)
    requires WaitersSound(s) && DemuxSound(s) && Enabled(s, a) && OfMap(a) && n < |s.exchanges| && ChannelSound(s, n)
    requires LostExactly(s, n, false)
    ensures LostExactly(Next(s, a), n, Displaces(s, a, n))
  {
  }

  lemma KeptUnlessDisplaced(s: System, a: Action, n: nat)
    requires WaitersSound(s) && DemuxSound(s) && Enabled(s, a) && n < |s.exchanges| && ChannelSound(s, n)
    requires LostExactly(s, n, false)
    ensures LostExactly(Next(s, a), n, Displaces(s, a, n))
  {
    if OfMap(a) {
      KeptUnlessDisplacedByMap(s, a, n);
    }
  }

  lemma LostStep(s: System, a: Action, n: nat, displaced: bool)
    requires WaitersSound(s) && DemuxSound(s) && Enabled(s, a) && LostExactly(s, n, displaced)
    requires n < |s.exchanges| ==> ChannelSound(s, n)
    ensures LostExactly(Next(s, a), n, displaced || Displaces(s, a, n))
  {
    if n < |s.exchanges| {
      if displaced {
        LostStays(s, a, n);
      } else {
        KeptUnlessDisplaced(s, a, n);
      }
    }
  }

  lemma {:induction false} LostRun(s: System, actions: seq<Action>, n: nat, displaced: bool)
    requires Inv(s) && Run(s, actions) && LostExactly(s, n, displaced)
    ensures Inv(Final(s, actions)) && LostExactly(Final(s, actions), n, displaced || DisplacedIn(s, actions, n))
    decreases |actions|
  {
    if actions != [] {
      InvStep(s, actions[0]);
      LostStep(s, actions[0], n, displaced);
      LostRun(Next(s, actions[0]), actions[1..], n, displaced || Displaces(s, actions[0], n));
    }
  }

  /**
   * An exchange still awaiting its reply finds its channel closed exactly when another exchange
   * under the same id began, or gave up, while it was registered.
   */
  lemma ClosesIffDisplaced(actions: seq<Action>, n: nat)
    requires Run(START, actions)
    requires var s := Final(START, actions);
      At(s, n, Awaiting) && n < |s.board.channels| && s.board.channels[n].slot.None?
    ensures Enabled(Final(START, actions), SenderLost(n)) <==> DisplacedIn(START, actions, n)
  {
    LostRun(START, actions, n, false);
  }

  /** Freshness is needed: two exchanges under one id, and the first finds its channel closed. */
  lemma SharedIdCloses()
    ensures var actions := [Begin("r"), Begin("r"), SendAccepted(0)];
      Run(START, actions) && Enabled(Final(START, actions), SenderLost(0))
  {
    var actions := [Begin("r"), Begin("r"), SendAccepted(0)];
    var s1 := Next(START, Begin("r"));
    var s2 := Next(s1, Begin("r"));
    var s3 := Next(s2, SendAccepted(0));
    assert actions[1..] == [Begin("r"), SendAccepted(0)];
    assert actions[1..][1..] == [SendAccepted(0)];
    assert actions[1..][1..][1..] == [];
    assert Run(s3, []) && Final(s3, []) == s3;
    assert Run(s2, [SendAccepted(0)]) && Final(s2, [SendAccepted(0)]) == s3;
    assert Run(s1, [Begin("r"), SendAccepted(0)]) && Final(s1, [Begin("r"), SendAccepted(0)]) == s3;
  }

  // ------------------------------------------------ one exchange alone

  lemma {:induction false} RunThen(s: System, before: seq<Action>, a: Action) returns (actions: seq<Action>)
    requires Run(s, before) && Enabled(Final(s, before), a)
    ensures actions == before + [a] && Run(s, actions) && Final(s, actions) == Next(Final(s, before), a)
    decreases |before|
  {
    actions := before + [a];
    if before == [] {
      var after := Next(s, a);
      assert actions[1..] == [] && Run(after, []) && Final(after, []) == after;
    } else {
      assert actions[1..] == before[1..] + [a];
      var rest := RunThen(Next(s, before[0]), before[1..], a);
    }
  }

  /** Between exchanges, with no frame being routed. */
  ghost predicate Still(s: System) {
    s.demux.Idle? && |s.exchanges| == |s.board.channels| && forall id :: id in s.board.waiters ==> s.board.waiters[id] < |s.exchanges|
  }

  /** A request that is sent: registered, and awaiting with an open channel of its own. */
  lemma SentExchange(s: System, id: string) returns (actions: seq<Action>)
    requires Still(s)
    ensures Run(s, actions)
    ensures var t, n := Final(s, actions), |s.exchanges|;
      && Still(t) && |t.exchanges| == n + 1 && t.exchanges[n] == Exchange(id, Awaiting)
      && t.board.channels[n] == Channel(None, true, true) && t.board.waiters == s.board.waiters[id := n]
      && t.sent == s.sent && t.acked == s.acked
  {
    actions := RunThen(s, [], Begin(id));
    actions := RunThen(s, actions, SendAccepted(|s.exchanges|));
  }

  /** A reply on its thread is handed over, acknowledged and returned, and its entry is gone. */
  lemma AnsweredExchange(s: System, id: string, doc: Reply) returns (actions: seq<Action>)
    requires Still(s) && doc.threadId == Some(id)
    ensures Run(s, actions)
    ensures var t, n := Final(s, actions), |s.exchanges|;
      && Still(t) && |t.exchanges| == n + 1 && t.exchanges[n] == Exchange(id, Finished(Answered(doc)))
      && t.board.waiters == s.board.waiters - {id} && t.sent == s.sent + [(n, doc)] && t.acked == s.acked + [(n, doc)]
  {
    actions := SentExchange(s, id);
    actions := RunThen(s, actions, FrameArrives(doc));
    actions := RunThen(s, actions, Sends);
    actions := RunThen(s, actions, Acks);
    actions := RunThen(s, actions, ReplyReady(|s.exchanges|));
  }

  /** A reply on nobody's thread goes nowhere and is not acknowledged. */
  lemma UnroutedFrame(s: System, doc: Reply)
    requires Still(s) && (doc.threadId.None? || doc.threadId.value !in s.board.waiters)
    ensures Enabled(s, FrameArrives(doc)) && Next(s, FrameArrives(doc)) == s
  {
  }

  /** An exchange that fails abandons its entry and returns why; nothing is left of it. */
  lemma FailingExchange(s: System, n: nat, why: Ending) returns (actions: seq<Action>)
    requires Still(s) && n < |s.exchanges| && s.exchanges[n].phase == Leaving(why)
    ensures Run(s, actions)
    ensures var t := Final(s, actions);
      && Still(t) && t.exchanges == s.exchanges[n := Exchange(s.exchanges[n].requestId, Finished(why))]
      && t.board.waiters == s.board.waiters - {s.exchanges[n].requestId} && !t.board.channels[n].receiverAlive
      && t.sent == s.sent && t.acked == s.acked
  {
    actions := RunThen(s, [], Abandons(n));
    actions := RunThen(s, actions, Returns(n));
  }

  /** What makes one fail: a refused send, a timer with nothing received, a channel lost to another exchange. */
  lemma FailureBegins(s: System, n: nat)
    requires Still(s) && n < |s.exchanges| && s.board.channels[n].slot.None?
    ensures s.exchanges[n].phase == Sending ==>
      Enabled(s, SendRefused(n)) && Next(s, SendRefused(n)).exchanges[n].phase == Leaving(SendFailed)
    ensures s.exchanges[n].phase == Awaiting ==>
      && Enabled(s, TimerFires(n)) && Enabled(Next(s, TimerFires(n)), ReceiverDropped(n))
      && Next(Next(s, TimerFires(n)), ReceiverDropped(n)).exchanges[n].phase == Leaving(TimedOut)
      && !Next(Next(s, TimerFires(n)), ReceiverDropped(n)).board.channels[n].receiverAlive
    ensures s.exchanges[n].phase == Awaiting && !s.board.channels[n].senderAlive ==>
      && Enabled(s, SenderLost(n)) && Next(s, SenderLost(n)).exchanges[n].phase == Leaving(Closed)
      && !Next(s, SenderLost(n)).board.channels[n].receiverAlive
  {
  }

  /** A reply that finds its receiver gone uses up the sender and is neither kept, counted as sent, nor acknowledged. */
  lemma LateReplyIsDropped(s: System, n: nat, doc: Reply)
    requires s.demux == Holding(n, doc) && |s.exchanges| == |s.board.channels| && n < |s.board.channels|
    requires !s.board.channels[n].receiverAlive
    ensures Enabled(s, Sends)
    ensures var t := Next(s, Sends);
      && t.demux == Idle && t.sent == s.sent && t.acked == s.acked && t.exchanges == s.exchanges
      && t.board == s.board.(channels := s.board.channels[n := s.board.channels[n].(senderAlive := false)])
  {
  }

  // ------------------------------------------------ what the client makes of a reply

  const ERROR_SLUG := "trust-task-error"

  datatype Verdict<Payload> =
    | Response(payload: Payload)
    | Refused(error: Json)
    | Uncorrelated
    | ErrorUnreadable
    | UnexpectedType
    | PayloadUnreadable

  /** `send_query` after the exchange: correlation first, then errors, then the expected response type. */
  function Classify<Payload>(id: string, slug: string, parse: Json -> Option<Payload>,
                             errorParses: Json -> bool, r: Reply): Verdict<Payload>
  {
    if r.threadId != Some(id) then Uncorrelated
    else if r.slug == ERROR_SLUG then
      if errorParses(r.payload) then Refused(r.payload) else ErrorUnreadable
    else if !(r.isResponse && r.slug == slug) then UnexpectedType
    else
      match parse(r.payload)
      case Some(p) => Response(p)
      case None => PayloadUnreadable
  }

  /** Only a correlated response of the requested type is ever read as one. */
  lemma ResponseIff<Payload>(id: string, slug: string, parse: Json -> Option<Payload>,
                             errorParses: Json -> bool, r: Reply, p: Payload)
    ensures Classify(id, slug, parse, errorParses, r) == Response(p) <==>
      r.threadId == Some(id) && r.isResponse && r.slug == slug && slug != ERROR_SLUG && parse(r.payload) == Some(p)
  {
  }

  /** Everything else is told apart too: foreign replies first, then errors, then other types, then unreadable payloads. */
  lemma ClassifiedIff<Payload>(id: string, slug: string, parse: Json -> Option<Payload>,
                               errorParses: Json -> bool, r: Reply, e: Json)
    ensures var verdict := Classify(id, slug, parse, errorParses, r);
      var ours := r.threadId == Some(id);
      && (verdict == Uncorrelated <==> !ours)
      && (verdict == Refused(e) <==> ours && r.slug == "trust-task-error" && e == r.payload && errorParses(e))
      && (verdict == ErrorUnreadable <==> ours && r.slug == "trust-task-error" && !errorParses(r.payload))
      && (verdict == UnexpectedType <==> ours && r.slug != "trust-task-error" && (!r.isResponse || r.slug != slug))
      && (verdict == PayloadUnreadable <==>
            ours && r.slug != "trust-task-error" && r.isResponse && r.slug == slug && parse(r.payload).None?)
  {
  }

  /** Over the mediator transports the client never sees somebody else's reply. */
  lemma UncorrelatedIsUnreachable<Payload>(actions: seq<Action>, n: nat, doc: Reply, slug: string,
                                           parse: Json -> Option<Payload>, errorParses: Json -> bool)
    requires Run(START, actions) && At(Final(START, actions), n, Finished(Answered(doc)))
    ensures Classify(Final(START, actions).exchanges[n].requestId, slug, parse, errorParses, doc) != Uncorrelated
  {
    RepliesReachTheirWaiters(actions);
  }
}
