/**
 * A daemon that keeps reconnecting to the event channel of its session with the last number it received. The channel
 * has a hub of its own, which counts from zero, and takes a connection that names no number as one that has seen none.
 */
module EventStream {
  import opened Options
  import opened EventHub

  /**
   * `wire`: frames written for the client and not yet received, in order. `received`: everything handled so far.
   * `start` and `mark`: how much had been published, and received, at the last reset; before the first, nothing.
   */
  datatype System = System(life: Life, connected: bool, wire: seq<Envelope>, lastEventId: Option<int>,
                           received: seq<Envelope>, start: nat, mark: nat)

  datatype Action = Publish(kind: string, data: string) | Deliver | Drop | Connect

  ghost predicate Init(s: System) {
    s.life.initial == 0 && s.life.history == [] && !s.connected && s.wire == [] && s.lastEventId == None
    && s.received == [] && s.start == 0 && s.mark == 0
  }

  predicate IsReset(e: Envelope) { e.kind == RESET }

  ghost predicate Enabled(s: System, a: Action) {
    match a
    case Publish(kind, _) => kind != RESET
    case Deliver => s.connected && s.wire != []
    case Drop => s.connected
    case Connect => !s.connected
  }

  /** What the channel subscribes a connection from. */
  function Since(s: System): int { if s.lastEventId.Some? then s.lastEventId.value else 0 }

  /**
   * Publishing writes to a connected client; delivering hands over the next frame, and a reset makes the client
   * hang up; a drop loses whatever is on the wire; connecting subscribes from the last number received.
   */
  ghost function Next(s: System, a: Action): System
    requires Enabled(s, a)
  {
    match a
    case Publish(kind, data) =>
      var e := Envelope(Current(s.life) + 1, kind, data);
      s.(life := s.life.(history := s.life.history + [e]), wire := if s.connected then s.wire + [e] else [])
    case Deliver =>
      var e := s.wire[0];
      if IsReset(e) then
        s.(connected := false, wire := [], lastEventId := Some(e.seqNo), received := s.received + [e],
           start := if e.seqNo >= 0 then e.seqNo else 0, mark := |s.received| + 1)
      else
        s.(wire := s.wire[1..], lastEventId := Some(e.seqNo), received := s.received + [e])
    case Drop => s.(connected := false, wire := [])
    case Connect => s.(connected := true, wire := Opening(s.life, Some(Since(s))))
  }

  /** What the client has been handed since its last reset, or since ever. */
  ghost function Handed(s: System): seq<Envelope>
    requires s.mark <= |s.received|
  {
    s.received[s.mark..]
  }

  // -------------------------------------------------------------- invariant

  ghost predicate NoResets(events: seq<Envelope>) {
    forall i :: 0 <= i < |events| ==> !IsReset(events[i])
  }

  /** Handed over so far: consecutive events of the history from the last reset on. */
  ghost predicate InOrder(s: System) {
    && s.mark <= |s.received| && s.start + |Handed(s)| <= |s.life.history|
    && Handed(s) == s.life.history[s.start..s.start + |Handed(s)|]
  }

  /** The mark is at the last reset, and the number to resume from that of the last frame. */
  ghost predicate Resumable(s: System)
    requires s.mark <= |s.received|
  {
    && (if s.mark == 0 then s.start == 0 else IsReset(s.received[s.mark - 1]) && s.received[s.mark - 1].seqNo == s.start)
    && (s.lastEventId == None ==> s.received == [])
    && Since(s) == s.start + |Handed(s)|
  }

  /** On the wire: exactly what the client misses, or a reset and what was published after it. */
  ghost predicate OnTheWire(s: System)
    requires InOrder(s)
  {
    if !s.connected then s.wire == []
    else
      var missed := s.life.history[s.start + |Handed(s)|..];
      s.wire == missed
      || (s.wire != [] && IsReset(s.wire[0])
          && s.start + |Handed(s)| < s.wire[0].seqNo <= |s.life.history|
          && s.wire[1..] == s.life.history[s.wire[0].seqNo..])
  }

  /** The number of the frame before the i-th received. */
  function Before(received: seq<Envelope>, i: nat): int
    requires i <= |received|
  {
    if i == 0 then 0 else received[i - 1].seqNo
  }

  /** Either the event published right after number `before`, or a reset that jumps ahead. */
  predicate Follows(e: Envelope, before: int, history: seq<Envelope>) {
    && 0 <= before < e.seqNo <= |history|
    && (IsReset(e) || (e.seqNo == before + 1 && e == history[before]))
  }

  /** Every frame ever received follows the one before it. */
  ghost predicate Chained(received: seq<Envelope>, history: seq<Envelope>) {
    forall i :: 0 <= i < |received| ==> Follows(received[i], Before(received, i), history)
  }

  ghost predicate Inv(s: System) {
    && s.life.initial == 0 && Numbered(s.life) && NoResets(s.life.history)
    && InOrder(s) && Resumable(s) && OnTheWire(s)
  }

  lemma InitInv(s: System)
    requires Init(s)
    ensures Inv(s) && Chained(s.received, s.life.history)
  {
  }

  lemma SuffixGrows(history: seq<Envelope>, e: Envelope, k: nat)
    requires k <= |history|
    ensures (history + [e])[k..] == history[k..] + [e]
  {
  }

  lemma SliceStays(history: seq<Envelope>, e: Envelope, i: nat, j: nat)
    requires i <= j <= |history|
    ensures (history + [e])[i..j] == history[i..j]
  {
  }

  lemma HeadIsEvent(history: seq<Envelope>, wire: seq<Envelope>, n: nat)
    requires NoResets(history) && n <= |history| && wire != []
    ensures wire == history[n..] ==> n < |history| && wire[0] == history[n] && !IsReset(wire[0])
  {
  }

  lemma HistoryGrows(life: Life, e: Envelope)
    requires Numbered(life) && NoResets(life.history) && e.seqNo == Current(life) + 1 && !IsReset(e)
    ensures Numbered(life.(history := life.history + [e])) && NoResets(life.history + [e])
  {
  }

  lemma PublishInOrder(s: System, kind: string, data: string)
    requires InOrder(s) && Resumable(s) && kind != RESET
    ensures var t := Next(s, Publish(kind, data));
      InOrder(t) && Resumable(t) && Handed(t) == Handed(s)
  {
    SliceStays(s.life.history, Envelope(Current(s.life) + 1, kind, data), s.start, s.start + |Handed(s)|);
  }

  lemma PublishOnTheWire(s: System, kind: string, data: string)
    requires InOrder(s) && OnTheWire(s) && kind != RESET
    requires InOrder(Next(s, Publish(kind, data))) && Handed(Next(s, Publish(kind, data))) == Handed(s)
    ensures OnTheWire(Next(s, Publish(kind, data)))
  {
    var t, e := Next(s, Publish(kind, data)), Envelope(Current(s.life) + 1, kind, data);
    var n := s.start + |Handed(s)|;
    SuffixGrows(s.life.history, e, n);
    if s.connected && s.wire != s.life.history[n..] {
      SuffixGrows(s.life.history, e, s.wire[0].seqNo);
      assert t.wire[0] == s.wire[0] && t.wire[1..] == s.wire[1..] + [e];
    }
  }

  lemma PublishNumbered(s: System, kind: string, data: string)
    requires s.life.initial == 0 && Numbered(s.life) && NoResets(s.life.history) && kind != RESET
    ensures var life := Next(s, Publish(kind, data)).life;
      life.initial == 0 && Numbered(life) && NoResets(life.history)
  {
    HistoryGrows(s.life, Envelope(Current(s.life) + 1, kind, data));
  }

  lemma PublishKept(s: System, kind: string, data: string)
    requires Inv(s) && kind != RESET
    ensures Inv(Next(s, Publish(kind, data)))
  {
    PublishNumbered(s, kind, data);
    PublishInOrder(s, kind, data);
    PublishOnTheWire(s, kind, data);
  }

  lemma DeliverKept(s: System)
    requires Inv(s) && Enabled(s, Deliver)
    ensures Inv(Next(s, Deliver))
  {
    var t, e, n := Next(s, Deliver), s.wire[0], s.start + |Handed(s)|;
    HeadIsEvent(s.life.history, s.wire, n);
    if IsReset(e) {
      assert Handed(t) == [];
    } else {
      assert Handed(t) == Handed(s) + [e];
      assert s.life.history[s.start..n + 1] == s.life.history[s.start..n] + [e];
      assert t.wire == s.life.history[n + 1..];
    }
  }

  lemma ConnectKept(s: System)
    requires Inv(s) && Enabled(s, Connect)
    ensures Inv(Next(s, Connect))
  {
    var t := Next(s, Connect);
    assert Handed(t) == Handed(s);
    if HasGap(s.life, Since(s)) {
      assert s.life.history[|s.life.history|..] == [];
      assert t.wire[1..] == [];
    } else {
      assert After(s.life, Since(s)) == s.life.history[Since(s)..];
    }
  }

  /** A frame next on the wire comes right after the last one received, or is a reset that jumps ahead. */
  lemma WireFollows(s: System)
    requires Inv(s) && Enabled(s, Deliver)
    ensures Follows(s.wire[0], Since(s), s.life.history)
  {
    HeadIsEvent(s.life.history, s.wire, Since(s));
  }

  lemma LastIsSince(s: System)
    requires Inv(s)
    ensures Before(s.received, |s.received|) == Since(s)
  {
    if s.mark < |s.received| {
      var i := |Handed(s)| - 1;
      assert Handed(s)[i] == s.received[|s.received| - 1];
      assert s.life.history[s.start..s.start + |Handed(s)|][i] == s.life.history[s.start + i];
    }
  }

  lemma ChainGrows(received: seq<Envelope>, history: seq<Envelope>, e: Envelope)
    requires Chained(received, history) && Follows(e, Before(received, |received|), history)
    ensures Chained(received + [e], history)
  {
    forall i | 0 <= i < |received| ensures Before(received + [e], i) == Before(received, i) { }
  }

  lemma HistoryChains(received: seq<Envelope>, history: seq<Envelope>, e: Envelope)
    requires Chained(received, history)
    ensures Chained(received, history + [e])
  {
    forall i | 0 <= i < |received| ensures Follows(received[i], Before(received, i), history + [e]) {
      assert Follows(received[i], Before(received, i), history);
    }
  }

  lemma ChainedKept(s: System, a: Action)
    requires Inv(s) && Chained(s.received, s.life.history) && Enabled(s, a)
    ensures Chained(Next(s, a).received, Next(s, a).life.history)
  {
    match a
    case Publish(kind, data) => HistoryChains(s.received, s.life.history, Envelope(Current(s.life) + 1, kind, data));
    case Deliver =>
      WireFollows(s);
      LastIsSince(s);
      ChainGrows(s.received, s.life.history, s.wire[0]);
    case Drop =>
    case Connect =>
  }

  lemma DropKept(s: System)
    requires Inv(s) && Enabled(s, Drop)
    ensures Inv(Next(s, Drop))
  {
    assert Handed(Next(s, Drop)) == Handed(s);
  }

  lemma InvKept(s: System, a: Action)
    requires Inv(s) && Enabled(s, a)
    ensures Inv(Next(s, a))
  {
    match a
    case Publish(kind, data) => PublishKept(s, kind, data);
    case Deliver => DeliverKept(s);
    case Drop => DropKept(s);
    case Connect => ConnectKept(s);
  }

  // -------------------------------------------------------------- whole runs

  ghost predicate Run(s: System, actions: seq<Action>, t: System)
    decreases |actions|
  {
    if actions == [] then s == t
    else
      var n := |actions| - 1;
      exists u :: Run(s, actions[..n], u) && Enabled(u, actions[n]) && t == Next(u, actions[n])
  }

  lemma {:induction false} RunInv(s: System, actions: seq<Action>, t: System)
    requires Init(s) && Run(s, actions, t)
    ensures Inv(t) && Chained(t.received, t.life.history) && t.life.initial == s.life.initial && t.life.bufferSize == s.life.bufferSize
    decreases |actions|
  {
    if actions == [] {
      InitInv(s);
    } else {
      var n := |actions| - 1;
      var u :| Run(s, actions[..n], u) && Enabled(u, actions[n]) && t == Next(u, actions[n]);
      RunInv(s, actions[..n], u);
      ChainedKept(u, actions[n]);
      InvKept(u, actions[n]);
    }
  }

  lemma RunIsInv(s: System, actions: seq<Action>, t: System)
    requires Init(s) && Run(s, actions, t)
    ensures Inv(t)
  {
    RunInv(s, actions, t);
  }

  lemma HandedInOrder(t: System)
    requires Inv(t)
    ensures forall i :: 0 <= i < |Handed(t)| ==> !IsReset(Handed(t)[i]) && Handed(t)[i].seqNo == t.start + i + 1
    ensures t.mark > 0 ==> IsReset(t.received[t.mark - 1]) && t.received[t.mark - 1].seqNo == t.start
    ensures t.mark == 0 ==> t.start == 0
  {
    forall i | 0 <= i < |Handed(t)| ensures !IsReset(Handed(t)[i]) && Handed(t)[i].seqNo == t.start + i + 1 {
      assert t.life.history[t.start..t.start + |Handed(t)|][i] == t.life.history[t.start + i];
    }
  }

  /**
   * Exactly once, over all interleavings of events, losses and reconnects: what the client has been handed since
   * its last reset is the history from there on, in order and without repetition, and nothing else.
   */
  lemma ExactlyOnce(s: System, actions: seq<Action>, t: System)
    requires Init(s) && Run(s, actions, t)
    ensures t.mark <= |t.received| && t.start + |Handed(t)| <= |t.life.history|
    ensures Handed(t) == t.life.history[t.start..t.start + |Handed(t)|]
    ensures forall i :: 0 <= i < |Handed(t)| ==> !IsReset(Handed(t)[i]) && Handed(t)[i].seqNo == t.start + i + 1
    ensures t.mark > 0 ==> IsReset(t.received[t.mark - 1]) && t.received[t.mark - 1].seqNo == t.start
    ensures t.mark == 0 ==> t.start == 0
  {
    RunIsInv(s, actions, t);
    HandedInOrder(t);
  }

  /** Until the first reset the client is handed the history from its first event on, whatever it lost on the way. */
  lemma FromTheFirstEvent(s: System, actions: seq<Action>, t: System)
    requires Init(s) && Run(s, actions, t) && NoResets(t.received)
    ensures |t.received| <= |t.life.history| && t.received == t.life.history[..|t.received|]
  {
    ExactlyOnce(s, actions, t);
    assert t.mark == 0 && Handed(t) == t.received;
  }

  /** Over the whole run: an event comes right after its predecessor, so only a reset can pass over events. */
  lemma OnlyResetsSkip(s: System, actions: seq<Action>, t: System, i: nat)
    requires Init(s) && Run(s, actions, t) && i < |t.received|
    ensures Follows(t.received[i], Before(t.received, i), t.life.history)
  {
    RunInv(s, actions, t);
  }

  /** Nothing is missing once the wire of a connected client has run dry. */
  lemma CaughtUp(s: System, actions: seq<Action>, t: System)
    requires Init(s) && Run(s, actions, t) && t.connected && t.wire == []
    ensures t.mark <= |t.received| && t.start <= |t.life.history| && Handed(t) == t.life.history[t.start..]
    ensures NoResets(t.received) ==> t.received == t.life.history
  {
    RunIsInv(s, actions, t);
    if NoResets(t.received) { FromTheFirstEvent(s, actions, t); }
  }

  /** Connecting without a gap, the first time included, hands over all that is missed, provided the connection lasts. */
  lemma ReconnectCatchesUp(s: System)
    requires Inv(s) && !s.connected && !HasGap(s.life, Since(s))
    ensures var t := Next(s, Connect);
      NoResets(t.wire) && Handed(s) + t.wire == s.life.history[s.start..]
  {
    ConnectKept(s);
    assert After(s.life, Since(s)) == s.life.history[Since(s)..];
  }

  /** A reset comes when, and only when, an event the client misses has rolled out of the buffer. */
  lemma ResetExactly(s: System)
    requires Inv(s) && !s.connected
    ensures var t := Next(s, Connect);
      (t.wire != [] && IsReset(t.wire[0])) <==> s.start + |Handed(s)| < Rolled(s.life)
  {
    var since := Since(s);
    if Buffered(s.life) != [] { assert Buffered(s.life)[0] == s.life.history[Rolled(s.life)]; }
    if !HasGap(s.life, since) && After(s.life, since) != [] {
      assert After(s.life, since)[0] == s.life.history[since];
    }
  }
}
