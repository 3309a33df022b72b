/** The event hub: a ring buffer of numbered events, replay for reconnecting clients, and reset across gaps. */
module EventHub {
  import opened Options

  datatype Envelope = Envelope(seqNo: int, kind: string, data: string)

  const RESET := "stream.reset"

  // --------------------------------------------------------- what a hub holds

  /** One life of a hub: the number it started from, all it has published since, and the size of its buffer. */
  datatype Life = Life(initial: int, history: seq<Envelope>, bufferSize: nat)

  function Current(life: Life): int { life.initial + |life.history| }

  ghost predicate Numbered(life: Life) {
    forall i :: 0 <= i < |life.history| ==> life.history[i].seqNo == life.initial + i + 1
  }

  /** How many of the first events have rolled out of the buffer. */
  function Rolled(life: Life): nat {
    if |life.history| <= life.bufferSize then 0 else |life.history| - life.bufferSize
  }

  function Buffered(life: Life): seq<Envelope> { life.history[Rolled(life)..] }

  ghost predicate InBuffer(life: Life, n: int) {
    exists e :: e in Buffered(life) && e.seqNo == n
  }

  /** `hasGap`, as the hub decides it from its number and its oldest buffered event. */
  predicate HasGap(life: Life, since: int) {
    if since > Current(life) then true
    else if since == Current(life) then false
    else if Buffered(life) == [] then true
    else since < Buffered(life)[0].seqNo - 1
  }

  lemma BufferedNumbers(life: Life, n: int)
    requires Numbered(life)
    ensures InBuffer(life, n) <==> life.initial + Rolled(life) < n <= Current(life)
  {
    if life.initial + Rolled(life) < n <= Current(life) {
      var e := life.history[n - life.initial - 1];
      assert e == Buffered(life)[n - life.initial - 1 - Rolled(life)];
    }
    if InBuffer(life, n) {
      var e :| e in Buffered(life) && e.seqNo == n;
      var i :| 0 <= i < |Buffered(life)| && Buffered(life)[i] == e;
      assert life.history[i + Rolled(life)] == e;
    }
  }

  /** There is no gap exactly when the hub is not behind the client and still holds every event after `since`. */
  lemma GapExact(life: Life, since: int)
    requires Numbered(life)
    ensures !HasGap(life, since) <==>
      since <= Current(life) && forall n :: since < n <= Current(life) ==> InBuffer(life, n)
  {
    forall n ensures InBuffer(life, n) <==> life.initial + Rolled(life) < n <= Current(life) {
      BufferedNumbers(life, n);
    }
    if since < Current(life) {
      assert InBuffer(life, since + 1) <==> life.initial + Rolled(life) < since + 1;
      if Buffered(life) != [] { assert Buffered(life)[0] == life.history[Rolled(life)]; }
    }
  }

  /** The events numbered above `since`. */
  function After(life: Life, since: int): seq<Envelope> {
    if since <= life.initial then life.history
    else if since >= Current(life) then []
    else life.history[since - life.initial..]
  }

  // ------------------------------------------------------------ the hub itself

  class Subscriber {
    var frames: seq<Envelope>

    constructor ()
      ensures frames == []
    {
      frames := [];
    }

    method Write(envelope: Envelope)
      modifies this
      ensures frames == old(frames) + [envelope]
    {
      frames := frames + [envelope];
    }
  }

  class Hub {
    const bufferSize: nat
    var current: int
    var buffer: seq<Envelope>
    var subscribers: set<Subscriber>
    ghost var life: Life

    ghost predicate Valid()
      reads this
    {
      && Numbered(life) && life.bufferSize == bufferSize
      && current == Current(life) && buffer == Buffered(life)
    }

    constructor (bufferSize: nat, initial: int)
      ensures Valid() && life == Life(initial, [], bufferSize) && subscribers == {}
    {
      this.bufferSize := bufferSize;
      current, buffer, subscribers := initial, [], {};
      life := Life(initial, [], bufferSize);
    }

    /** Numbers the event, rolls the buffer, and writes to every subscriber. */
    method Publish(kind: string, data: string) returns (envelope: Envelope)
      requires Valid()
      modifies this`current, this`buffer, this`life, subscribers
      ensures Valid()
      ensures envelope == Envelope(old(current) + 1, kind, data)
      ensures life == old(life).(history := old(life).history + [envelope])
      ensures forall s :: s in subscribers ==> s.frames == old(s.frames) + [envelope]
    {
      current := current + 1;
      envelope := Envelope(current, kind, data);
      PushRolls(life, envelope);
      buffer := buffer + [envelope];
      if |buffer| > bufferSize { buffer := buffer[1..]; }
      life := life.(history := life.history + [envelope]);
      var left := subscribers;
      while left != {}
        invariant left <= subscribers == old(subscribers)
        invariant Valid() && life == old(life).(history := old(life).history + [envelope])
        invariant forall s :: s in left ==> s.frames == old(s.frames)
        invariant forall s :: s in subscribers - left ==> s.frames == old(s.frames) + [envelope]
      {
        var s :| s in left;
        s.Write(envelope);
        left := left - {s};
      }
    }

    method OldestBufferedSeq() returns (oldest: Option<int>)
      requires Valid()
      ensures oldest == if Buffered(life) == [] then None else Some(Buffered(life)[0].seqNo)
    {
      oldest := if |buffer| > 0 then Some(buffer[0].seqNo) else None;
    }

    method DetectGap(since: int) returns (gap: bool)
      requires Valid()
      ensures gap == HasGap(life, since)
    {
      if since > current { return true; }
      if since == current { return false; }
      var oldest := OldestBufferedSeq();
      if oldest.None? { return since < current; }
      return since < oldest.value - 1;
    }

    /** `buffer.filter(...)`; without a gap that is every event after `since`. */
    method ReplaySince(since: int) returns (events: seq<Envelope>)
      requires Valid()
      ensures !HasGap(life, since) ==> events == After(life, since)
    {
      events := [];
      for i := 0 to |buffer|
        invariant events == Above(buffer[..i], since)
      {
        assert buffer[..i + 1][..i] == buffer[..i];
        if buffer[i].seqNo > since { events := events + [buffer[i]]; }
      }
      assert buffer[..|buffer|] == buffer;
      if !HasGap(life, since) { ReplayComplete(life, since); }
    }

    /** With a number to resume from, a replay or a reset first; live events from then on. */
    method Subscribe(sub: Subscriber, since: Option<int>)
      requires Valid()
      modifies this`subscribers, sub
      ensures Valid() && life == old(life) && subscribers == old(subscribers) + {sub}
      ensures sub.frames == old(sub.frames) + Opening(life, since)
    {
      if since.Some? {
        var gap := DetectGap(since.value);
        if gap {
          sub.Write(Envelope(current, RESET, "{}"));
        } else {
          var events := ReplaySince(since.value);
          for i := 0 to |events|
            invariant sub.frames == old(sub.frames) + events[..i]
            invariant Valid() && life == old(life) && subscribers == old(subscribers)
          {
            sub.Write(events[i]);
          }
        }
      }
      subscribers := subscribers + {sub};
    }

    method Unsubscribe(sub: Subscriber)
      requires Valid()
      modifies this`subscribers
      ensures Valid() && subscribers == old(subscribers) - {sub}
    {
      subscribers := subscribers - {sub};
    }
  }

  /** The frames a subscriber gets before anything is published. */
  function Opening(life: Life, since: Option<int>): seq<Envelope> {
    if since.None? then []
    else if HasGap(life, since.value) then [Envelope(Current(life), RESET, "{}")]
    else After(life, since.value)
  }

  function Above(events: seq<Envelope>, since: int): seq<Envelope> {
    if events == [] then []
    else
      var n := |events| - 1;
      Above(events[..n], since) + if events[n].seqNo > since then [events[n]] else []
  }

  lemma PushRolls(life: Life, envelope: Envelope)
    requires Numbered(life) && envelope.seqNo == Current(life) + 1
    ensures var next := life.(history := life.history + [envelope]);
      && Numbered(next) && Current(next) == Current(life) + 1
      && var pushed := Buffered(life) + [envelope];
         Buffered(next) == if |pushed| > life.bufferSize then pushed[1..] else pushed
  {
  }

  /** How many of `n` consecutive numbers from `first` on are not above `since`. */
  function NotAbove(first: int, n: nat, since: int): (k: nat)
    ensures k <= n
  {
    if since < first then 0 else if since - first + 1 > n then n else since - first + 1
  }

  /** Filtering consecutive numbers keeps a suffix. */
  lemma {:induction false} AboveSuffix(events: seq<Envelope>, first: int, since: int)
    requires forall i :: 0 <= i < |events| ==> events[i].seqNo == first + i
    ensures Above(events, since) == events[NotAbove(first, |events|, since)..]
  {
    if events != [] {
      var n := |events| - 1;
      AboveSuffix(events[..n], first, since);
      var k := NotAbove(first, n, since);
      if since < first + n {
        assert events[k..] == events[..n][k..] + [events[n]];
      } else {
        assert k == n && events[..n][n..] == [];
      }
    }
  }

  lemma ReplayComplete(life: Life, since: int)
    requires Numbered(life) && !HasGap(life, since)
    ensures Above(Buffered(life), since) == After(life, since)
  {
    var b := Buffered(life);
    forall i | 0 <= i < |b| ensures b[i].seqNo == life.initial + Rolled(life) + 1 + i {
      assert b[i] == life.history[Rolled(life) + i];
    }
    AboveSuffix(b, life.initial + Rolled(life) + 1, since);
    if b != [] { assert b[0] == life.history[Rolled(life)]; }
  }

  // ---------------------------------------------------------------- restarts

  /** Where a restarted server starts counting, from the watermark it finds. */
  function InitialSeq(watermark: int, bufferSize: nat): int {
    if watermark > 0 then watermark + bufferSize else 0
  }

  ghost predicate AlwaysReset(initial: int, bufferSize: nat, since: int) {
    forall history :: Numbered(Life(initial, history, bufferSize)) ==> HasGap(Life(initial, history, bufferSize), since)
  }

  ghost predicate EverybodyReset(initial: int, bufferSize: nat, oldSeq: int) {
    forall since :: since <= oldSeq ==> AlwaysReset(initial, bufferSize, since)
  }

  lemma BelowIsReset(initial: int, bufferSize: nat, since: int)
    requires since < initial
    ensures AlwaysReset(initial, bufferSize, since)
  {
    forall history | Numbered(Life(initial, history, bufferSize)) ensures HasGap(Life(initial, history, bufferSize), since) {
      var life := Life(initial, history, bufferSize);
      if Buffered(life) != [] { assert Buffered(life)[0] == history[Rolled(life)]; }
    }
  }

  function Count(initial: int, n: nat): (history: seq<Envelope>)
    ensures |history| == n && forall i :: 0 <= i < n ==> history[i].seqNo == initial + i + 1
  {
    seq(n, i requires 0 <= i < n => Envelope(initial + i + 1, "", ""))
  }

  /** Every number of the old life is answered by a reset, ever after, if and only if the new life starts above them all. */
  lemma RestartResets(initial: int, bufferSize: nat, oldSeq: int)
    ensures EverybodyReset(initial, bufferSize, oldSeq) <==> oldSeq < initial
  {
    if oldSeq < initial {
      forall since | since <= oldSeq ensures AlwaysReset(initial, bufferSize, since) {
        BelowIsReset(initial, bufferSize, since);
      }
    } else {
      var life := Life(initial, Count(initial, oldSeq - initial), bufferSize);
      assert Numbered(life) && !HasGap(life, oldSeq);
      assert !AlwaysReset(initial, bufferSize, oldSeq);
    }
  }

  /** In terms of the watermark: it must be positive and lag by less than the buffer, or the old life was silent. */
  lemma WatermarkLag(watermark: int, oldSeq: int, bufferSize: nat)
    requires 0 <= watermark <= oldSeq
    ensures EverybodyReset(InitialSeq(watermark, bufferSize), bufferSize, oldSeq)
      <==> watermark > 0 && oldSeq - watermark < bufferSize
  {
    RestartResets(InitialSeq(watermark, bufferSize), bufferSize, oldSeq);
  }

  /** What is lost otherwise: a client of the old life is handed nothing, though the new life has published. */
  lemma LaggingWatermarkLosesEvents(initial: int, bufferSize: nat, oldSeq: int)
    requires oldSeq > initial
    ensures exists history ::
              |history| > 0 && Numbered(Life(initial, history, bufferSize))
              && Opening(Life(initial, history, bufferSize), Some(oldSeq)) == []
  {
    var life := Life(initial, Count(initial, oldSeq - initial), bufferSize);
    assert |life.history| > 0 && Numbered(life) && Opening(life, Some(oldSeq)) == [];
  }
}
