/** Which messages a digest takes, and how they are cut into chunks. */
module DigestRange {
  import opened Options

  datatype Message = Message(id: string, seqNo: nat, size: nat)

  datatype Error = Invalid

  // ----------------------------------------------------------------- chunks

  datatype Chunk = Chunk(fromMessageId: string, toMessageId: string, messageCount: nat, charCount: nat, messages: seq<Message>)

  function Sum(messages: seq<Message>): nat {
    if messages == [] then 0 else Sum(messages[..|messages| - 1]) + messages[|messages| - 1].size
  }

  function MakeChunk(messages: seq<Message>, charCount: nat): Chunk
    requires messages != []
  {
    Chunk(messages[0].id, messages[|messages| - 1].id, |messages|, charCount, messages)
  }

  type Cut = seq<seq<Message>>

  function Flatten(cut: Cut): seq<Message> {
    if cut == [] then [] else Flatten(cut[..|cut| - 1]) + cut[|cut| - 1]
  }

  /** A chunk within the limit, or with a single message in it. */
  predicate Fits(chunk: seq<Message>, maxChars: nat) {
    chunk != [] && (Sum(chunk) <= maxChars || |chunk| == 1)
  }

  ghost predicate AllFit(cut: Cut, maxChars: nat) {
    forall k :: 0 <= k < |cut| ==> Fits(cut[k], maxChars)
  }

  ghost predicate Partition(cut: Cut, messages: seq<Message>, maxChars: nat) {
    Flatten(cut) == messages && AllFit(cut, maxChars)
  }

  /** How many messages the first `k` chunks hold. */
  function Offset(cut: Cut, k: nat): nat
    requires k <= |cut|
  {
    if k == 0 then 0 else Offset(cut, k - 1) + |cut[k - 1]|
  }

  /** A chunk could not have taken the message after it: it was full, or that message would have overfilled it. */
  predicate Closed(chunk: seq<Message>, next: Message, maxChars: nat) {
    Sum(chunk) >= maxChars || Sum(chunk) + next.size > maxChars
  }

  ghost predicate ClosedAt(cut: Cut, k: nat, messages: seq<Message>, maxChars: nat)
    requires k < |cut|
  {
    Offset(cut, k + 1) < |messages| ==> Closed(cut[k], messages[Offset(cut, k + 1)], maxChars)
  }

  /** A chunk takes nothing once it is full. */
  predicate Prompt(chunk: seq<Message>, maxChars: nat) {
    chunk != [] && (|chunk| > 1 ==> Sum(chunk[..|chunk| - 1]) < maxChars)
  }

  ghost predicate Greedy(cut: Cut, messages: seq<Message>, maxChars: nat) {
    forall k :: 0 <= k < |cut| ==> ClosedAt(cut, k, messages, maxChars) && Prompt(cut[k], maxChars)
  }

  /** The chunks are those of the cut, each with the ends, the number and the size of its own messages. */
  ghost predicate Described(chunks: seq<Chunk>, cut: Cut) {
    |chunks| == |cut| && forall k :: 0 <= k < |cut| ==>
      cut[k] != [] && chunks[k] == MakeChunk(cut[k], Sum(cut[k]))
  }

  lemma {:induction false} OffsetPrefix(cut: Cut, c: seq<Message>, k: nat)
    requires k <= |cut|
    ensures Offset(cut + [c], k) == Offset(cut, k)
  {
    if k > 0 { OffsetPrefix(cut, c, k - 1); }
  }

  lemma {:induction false} OffsetEnd(cut: Cut)
    ensures Offset(cut, |cut|) == |Flatten(cut)|
  {
    if cut != [] {
      var n := |cut| - 1;
      OffsetEnd(cut[..n]);
      assert cut[..n] + [cut[n]] == cut;
      OffsetPrefix(cut[..n], cut[n], n);
    }
  }

  /** Closing one more chunk keeps everything closed before it. */
  lemma CloseKeeps(cut: Cut, c: seq<Message>, messages: seq<Message>, maxChars: nat)
    requires AllFit(cut, maxChars) && Greedy(cut, messages, maxChars) && Fits(c, maxChars) && Prompt(c, maxChars)
    requires var end := |Flatten(cut)| + |c|;
      end < |messages| ==> Closed(c, messages[end], maxChars)
    ensures AllFit(cut + [c], maxChars) && Greedy(cut + [c], messages, maxChars)
    ensures Flatten(cut + [c]) == Flatten(cut) + c
  {
    var more := cut + [c];
    OffsetEnd(cut);
    assert more[..|cut|] == cut;
    forall k | 0 <= k < |more| ensures ClosedAt(more, k, messages, maxChars) && Prompt(more[k], maxChars) {
      OffsetPrefix(cut, c, k);
      if k < |cut| {
        OffsetPrefix(cut, c, k + 1);
        assert ClosedAt(cut, k, messages, maxChars) && Prompt(cut[k], maxChars);
      }
    }
  }

  /** What is closed is final. */
  ghost predicate Sealed(cut: Cut, messages: seq<Message>, maxChars: nat) {
    AllFit(cut, maxChars) && Greedy(cut, messages, maxChars)
  }

  /** What is open follows what is closed. */
  ghost predicate Covers(cut: Cut, current: seq<Message>, done: nat, messages: seq<Message>) {
    done <= |messages| && Flatten(cut) + current == messages[..done]
  }

  /** The open chunk, with its size at hand. */
  ghost predicate Counted(current: seq<Message>, charCount: nat, maxChars: nat) {
    charCount == Sum(current) && (current != [] ==> Fits(current, maxChars) && Prompt(current, maxChars))
  }

  lemma CloseSealed(cut: Cut, current: seq<Message>, done: nat, messages: seq<Message>, maxChars: nat)
    requires Sealed(cut, messages, maxChars) && Covers(cut, current, done, messages)
    requires Fits(current, maxChars) && Prompt(current, maxChars)
    requires done < |messages| ==> Closed(current, messages[done], maxChars)
    ensures Sealed(cut + [current], messages, maxChars)
  {
    assert |Flatten(cut)| + |current| == done;
    CloseKeeps(cut, current, messages, maxChars);
  }

  lemma CloseCovers(cut: Cut, current: seq<Message>, done: nat, messages: seq<Message>)
    requires Covers(cut, current, done, messages)
    ensures Covers(cut + [current], [], done, messages)
  {
    assert (cut + [current])[..|cut|] == cut;
    assert Flatten(cut + [current]) + [] == Flatten(cut) + current;
  }

  lemma OpenCovers(cut: Cut, current: seq<Message>, done: nat, messages: seq<Message>)
    requires Covers(cut, current, done, messages) && done < |messages|
    ensures Covers(cut, current + [messages[done]], done + 1, messages)
  {
    assert messages[..done + 1] == messages[..done] + [messages[done]];
    assert Flatten(cut) + (current + [messages[done]]) == messages[..done] + [messages[done]];
  }

  lemma OpenCounted(current: seq<Message>, charCount: nat, next: Message, maxChars: nat)
    requires Counted(current, charCount, maxChars)
    requires current != [] ==> charCount < maxChars && charCount + next.size <= maxChars
    ensures Counted(current + [next], charCount + next.size, maxChars)
  {
    assert (current + [next])[..|current|] == current;
  }

  /** Closes the open chunk, when there is one. */
  method Push(chunks: seq<Chunk>, current: seq<Message>, charCount: nat, ghost cut: Cut, ghost done: nat,
        ghost messages: seq<Message>, ghost maxChars: nat)
    returns (more: seq<Chunk>, ghost next: Cut)
    requires Described(chunks, cut) && Sealed(cut, messages, maxChars)
    requires Covers(cut, current, done, messages) && Counted(current, charCount, maxChars)
    requires current != [] && done < |messages| ==> Closed(current, messages[done], maxChars)
    ensures Described(more, next) && Sealed(next, messages, maxChars) && Covers(next, [], done, messages)
  {
    if current == [] { return chunks, cut; }
    CloseSealed(cut, current, done, messages, maxChars);
    CloseCovers(cut, current, done, messages);
    DescribedMore(chunks, cut, current);
    more, next := chunks + [MakeChunk(current, charCount)], cut + [current];
  }

  lemma DescribedMore(chunks: seq<Chunk>, cut: Cut, current: seq<Message>)
    requires Described(chunks, cut) && current != []
    ensures Described(chunks + [MakeChunk(current, Sum(current))], cut + [current])
  {
  }

  /** Makes room: the open chunk is closed when the next message would overfill it. */
  method MakeRoom(chunks: seq<Chunk>, current: seq<Message>, charCount: nat, ghost cut: Cut, done: nat,
        messages: seq<Message>, maxChars: nat)
    returns (more: seq<Chunk>, open: seq<Message>, count: nat, ghost next: Cut)
    requires Described(chunks, cut) && Sealed(cut, messages, maxChars) && done < |messages|
    requires Covers(cut, current, done, messages) && Counted(current, charCount, maxChars)
    requires current != [] ==> charCount < maxChars
    ensures Described(more, next) && Sealed(next, messages, maxChars)
    ensures Covers(next, open, done, messages) && Counted(open, count, maxChars)
    ensures open != [] ==> count < maxChars && count + messages[done].size <= maxChars
  {
    more, open, count, next := chunks, current, charCount, cut;
    if open != [] && count + messages[done].size > maxChars {
      more, next := Push(chunks, current, charCount, cut, done, messages, maxChars);
      open, count := [], 0;
    }
  }

  /** Adds the next message, and closes the open chunk when that has filled it. */
  method AddMessage(chunks: seq<Chunk>, current: seq<Message>, charCount: nat, ghost cut: Cut, done: nat,
        messages: seq<Message>, maxChars: nat)
    returns (more: seq<Chunk>, open: seq<Message>, count: nat, ghost next: Cut)
    requires Described(chunks, cut) && Sealed(cut, messages, maxChars) && done < |messages|
    requires Covers(cut, current, done, messages) && Counted(current, charCount, maxChars)
    requires current != [] ==> charCount < maxChars && charCount + messages[done].size <= maxChars
    ensures Described(more, next) && Sealed(next, messages, maxChars)
    ensures Covers(next, open, done + 1, messages) && Counted(open, count, maxChars)
    ensures open != [] ==> count < maxChars
  {
    OpenCovers(cut, current, done, messages);
    OpenCounted(current, charCount, messages[done], maxChars);
    more, next := chunks, cut;
    open, count := current + [messages[done]], charCount + messages[done].size;
    if count >= maxChars {
      more, next := Push(more, open, count, next, done + 1, messages, maxChars);
      open, count := [], 0;
    }
  }

  function Contents(chunks: seq<Chunk>): Cut {
    seq(|chunks|, i requires 0 <= i < |chunks| => chunks[i].messages)
  }

  method ChunkDigestMessages(messages: seq<Message>, maxChars: int) returns (r: Result<seq<Chunk>, Error>)
    ensures r.Err? <==> maxChars <= 0
    ensures r.Ok? ==> Described(r.value, Contents(r.value))
    ensures r.Ok? ==> Partition(Contents(r.value), messages, maxChars) && Greedy(Contents(r.value), messages, maxChars)
  {
    if maxChars <= 0 { return Err(Invalid); }
    var chunks, current, charCount: nat := [], [], 0;
    ghost var cut: Cut := [];
    for i := 0 to |messages|
      invariant Described(chunks, cut) && Sealed(cut, messages, maxChars)
      invariant Covers(cut, current, i, messages) && Counted(current, charCount, maxChars)
      invariant current != [] ==> charCount < maxChars
    {
      chunks, current, charCount, cut := MakeRoom(chunks, current, charCount, cut, i, messages, maxChars);
      chunks, current, charCount, cut := AddMessage(chunks, current, charCount, cut, i, messages, maxChars);
    }
    chunks, cut := Push(chunks, current, charCount, cut, |messages|, messages, maxChars);
    assert messages[..|messages|] == messages && Flatten(cut) + [] == Flatten(cut);
    assert Contents(chunks) == cut;
    return Ok(chunks);
  }

  // ------------------------------------------------------------- optimality

  /** A chunk of nothing but empty messages comes after one that is exactly full and had room for them. */
  ghost predicate Wasteful(cut: Cut, maxChars: nat) {
    exists k :: 0 <= k < |cut| - 1 && Sum(cut[k]) == maxChars && Sum(cut[k + 1]) == 0
  }

  /** No partition under the same rule has fewer chunks. */
  ghost predicate Optimal(cut: Cut, messages: seq<Message>, maxChars: nat) {
    forall other :: Partition(other, messages, maxChars) ==> |cut| <= |other|
  }

  lemma {:induction false} SumConcat(a: seq<Message>, b: seq<Message>)
    ensures Sum(a + b) == Sum(a) + Sum(b)
  {
    if b == [] {
      assert a + b == a;
    } else {
      var n := |b| - 1;
      assert (a + b)[..|a| + n] == a + b[..n];
      SumConcat(a, b[..n]);
    }
  }

  /** The chunks are the messages between their offsets. */
  lemma {:induction false} ChunkAt(cut: Cut, messages: seq<Message>, k: nat)
    requires Flatten(cut) == messages && k < |cut|
    ensures Offset(cut, k) <= Offset(cut, k + 1) <= |messages|
    ensures cut[k] == messages[Offset(cut, k)..Offset(cut, k + 1)]
    decreases |cut|
  {
    var n := |cut| - 1;
    OffsetEnd(cut);
    OffsetEnd(cut[..n]);
    assert cut[..n] + [cut[n]] == cut;
    OffsetPrefix(cut[..n], cut[n], n);
    OffsetPrefix(cut[..n], cut[n], k);
    if k < n {
      OffsetPrefix(cut[..n], cut[n], k + 1);
      ChunkAt(cut[..n], Flatten(cut[..n]), k);
      assert messages[Offset(cut, k)..Offset(cut, k + 1)] == Flatten(cut[..n])[Offset(cut, k)..Offset(cut, k + 1)];
    }
  }

  lemma SumPart(messages: seq<Message>, a: nat, b: nat, c: nat, d: nat)
    requires a <= b <= c <= d <= |messages|
    ensures Sum(messages[b..c]) <= Sum(messages[a..d])
  {
    SumConcat(messages[a..b], messages[b..c]);
    SumConcat(messages[a..c], messages[c..d]);
    assert messages[a..b] + messages[b..c] == messages[a..c];
    assert messages[a..c] + messages[c..d] == messages[a..d];
  }

  /** The cut is determined: closed as soon as it is full, and never before the next message would overfill it. */
  lemma CutUnique(a: Cut, b: Cut, messages: seq<Message>, maxChars: nat)
    requires Partition(a, messages, maxChars) && Greedy(a, messages, maxChars)
    requires Partition(b, messages, maxChars) && Greedy(b, messages, maxChars)
    ensures a == b
  {
    var n := if |a| <= |b| then |a| else |b|;
    CutsAgree(a, b, messages, maxChars, n);
    OffsetEnd(a);
    OffsetEnd(b);
    if |a| < |b| { EndBefore(b, messages, maxChars, n); }
    if |b| < |a| { EndBefore(a, messages, maxChars, n); }
    assert a[..n] == a && b[..n] == b;
  }

  lemma EndBefore(cut: Cut, messages: seq<Message>, maxChars: nat, n: nat)
    requires Partition(cut, messages, maxChars) && n < |cut|
    ensures Offset(cut, n) < |messages|
  {
    ChunkAt(cut, messages, n);
    assert Fits(cut[n], maxChars);
  }

  lemma {:induction false} CutsAgree(a: Cut, b: Cut, messages: seq<Message>, maxChars: nat, n: nat)
    requires Partition(a, messages, maxChars) && Greedy(a, messages, maxChars)
    requires Partition(b, messages, maxChars) && Greedy(b, messages, maxChars)
    requires n <= |a| && n <= |b|
    ensures a[..n] == b[..n] && Offset(a, n) == Offset(b, n)
  {
    if n > 0 {
      CutsAgree(a, b, messages, maxChars, n - 1);
      NextAgrees(a, b, messages, maxChars, n - 1);
      SnocAgree(a, b, n - 1);
    }
  }

  lemma NextAgrees(a: Cut, b: Cut, messages: seq<Message>, maxChars: nat, k: nat)
    requires Partition(a, messages, maxChars) && Greedy(a, messages, maxChars)
    requires Partition(b, messages, maxChars) && Greedy(b, messages, maxChars)
    requires k < |a| && k < |b| && Offset(a, k) == Offset(b, k)
    ensures a[k] == b[k] && Offset(a, k + 1) == Offset(b, k + 1)
  {
    ChunkAt(a, messages, k);
    ChunkAt(b, messages, k);
    NoLonger(a, b, messages, maxChars, k);
    NoLonger(b, a, messages, maxChars, k);
  }

  lemma SnocAgree(a: Cut, b: Cut, k: nat)
    requires k < |a| && k < |b| && a[..k] == b[..k] && a[k] == b[k]
    ensures a[..k + 1] == b[..k + 1]
  {
    assert a[..k + 1] == a[..k] + [a[k]] && b[..k + 1] == b[..k] + [b[k]];
  }

  lemma NoLonger(a: Cut, b: Cut, messages: seq<Message>, maxChars: nat, k: nat)
    requires Partition(a, messages, maxChars) && Greedy(a, messages, maxChars)
    requires Partition(b, messages, maxChars) && Greedy(b, messages, maxChars)
    requires k < |a| && k < |b| && Offset(a, k) == Offset(b, k)
    ensures Offset(b, k + 1) <= Offset(a, k + 1)
  {
    ChunkAt(a, messages, k);
    ChunkAt(b, messages, k);
    var start, c, d := Offset(a, k), Offset(a, k + 1), Offset(b, k + 1);
    assert ClosedAt(a, k, messages, maxChars) && Fits(b[k], maxChars) && Prompt(a[k], maxChars) && Prompt(b[k], maxChars);
    if c < d { TooLong(messages, start, c, d, maxChars); }
  }

  /** What was closed at `c` cannot be part of a prompt chunk that fits and goes on to `d`. */
  lemma TooLong(messages: seq<Message>, start: nat, c: nat, d: nat, maxChars: nat)
    requires start < c < d <= |messages| && Closed(messages[start..c], messages[c], maxChars)
    ensures !(Fits(messages[start..d], maxChars) && Prompt(messages[start..d], maxChars))
  {
    var chunk := messages[start..d];
    SumNext(messages, start, c);
    SumPart(messages, start, start, c + 1, d);
    assert chunk[..|chunk| - 1] == messages[start..d - 1];
    SumPart(messages, start, start, c, d - 1);
  }

  /** Where the messages from `at` on stop being empty. */
  function SkipEmpty(messages: seq<Message>, at: nat): (r: nat)
    requires at <= |messages|
    ensures at <= r <= |messages|
    ensures forall i :: at <= i < r ==> messages[i].size == 0
    ensures r < |messages| ==> messages[r].size > 0
    decreases |messages| - at
  {
    if at < |messages| && messages[at].size == 0 then SkipEmpty(messages, at + 1) else at
  }

  lemma {:induction false} EmptySum(messages: seq<Message>)
    requires forall i :: 0 <= i < |messages| ==> messages[i].size == 0
    ensures Sum(messages) == 0
  {
    if messages != [] { EmptySum(messages[..|messages| - 1]); }
  }

  /** How far any partition can have come after `k` chunks: past the empty messages an exactly full chunk had room for. */
  ghost function Reach(cut: Cut, messages: seq<Message>, maxChars: nat, k: nat): (r: nat)
    requires Flatten(cut) == messages && k <= |cut|
    ensures Offset(cut, k) <= r <= |messages|
  {
    OffsetWithin(cut, messages, k);
    if k > 0 && Sum(cut[k - 1]) == maxChars then SkipEmpty(messages, Offset(cut, k)) else Offset(cut, k)
  }

  lemma OffsetWithin(cut: Cut, messages: seq<Message>, k: nat)
    requires Flatten(cut) == messages && k <= |cut|
    ensures Offset(cut, k) <= |messages|
  {
    if k < |cut| { ChunkAt(cut, messages, k); } else { OffsetEnd(cut); }
  }

  /** Unless the cut is wasteful, that is within its next chunk. */
  lemma ReachWithin(cut: Cut, messages: seq<Message>, maxChars: nat, k: nat)
    requires Partition(cut, messages, maxChars) && !Wasteful(cut, maxChars) && k < |cut|
    ensures Reach(cut, messages, maxChars, k) < Offset(cut, k + 1) <= |messages|
    ensures Sum(messages[Reach(cut, messages, maxChars, k)..Offset(cut, k + 1)]) == Sum(cut[k])
  {
    ChunkAt(cut, messages, k);
    assert Fits(cut[k], maxChars);
    var b, r, c := Offset(cut, k), Reach(cut, messages, maxChars, k), Offset(cut, k + 1);
    if r >= c { ReachedTooFar(cut, messages, maxChars, k, b, c); }
    EmptySum(messages[b..r]);
    SumJoin(messages, b, r, c);
  }

  lemma ReachedTooFar(cut: Cut, messages: seq<Message>, maxChars: nat, k: nat, b: nat, c: nat)
    requires Flatten(cut) == messages && k < |cut| && b < c <= |messages| && cut[k] == messages[b..c]
    requires b == Offset(cut, k) && Reach(cut, messages, maxChars, k) >= c
    ensures Wasteful(cut, maxChars)
  {
    EmptySum(messages[b..c]);
    assert k > 0 && Sum(cut[k - 1]) == maxChars && Sum(cut[(k - 1) + 1]) == 0;
  }

  /** After any number of chunks no partition has come further. */
  lemma {:induction false} GreedyAhead(greedy: Cut, other: Cut, messages: seq<Message>, maxChars: nat, k: nat)
    requires Partition(greedy, messages, maxChars) && Greedy(greedy, messages, maxChars)
    requires Partition(other, messages, maxChars) && !Wasteful(greedy, maxChars)
    requires k <= |greedy| && k <= |other|
    ensures Offset(other, k) <= Reach(greedy, messages, maxChars, k)
  {
    if k > 0 {
      GreedyAhead(greedy, other, messages, maxChars, k - 1);
      Overtaken(greedy, other, messages, maxChars, k - 1);
    }
  }

  /** No chunk of a partition starts within reach of the greedy cut and ends beyond it. */
  lemma {:induction false} Overtaken(greedy: Cut, other: Cut, messages: seq<Message>, maxChars: nat, k: nat)
    requires Partition(greedy, messages, maxChars) && Greedy(greedy, messages, maxChars)
    requires Partition(other, messages, maxChars) && !Wasteful(greedy, maxChars)
    requires k < |greedy| && k < |other|
    requires Offset(other, k) <= Reach(greedy, messages, maxChars, k)
    ensures Offset(other, k + 1) <= Reach(greedy, messages, maxChars, k + 1)
  {
    ChunkAt(other, messages, k);
    ReachWithin(greedy, messages, maxChars, k);
    OffsetWithin(greedy, messages, k + 1);
    var a, r, c, d := Offset(other, k), Reach(greedy, messages, maxChars, k), Offset(greedy, k + 1), Offset(other, k + 1);
    var beyond := Reach(greedy, messages, maxChars, k + 1);
    assert Fits(greedy[k], maxChars) && Fits(other[k], maxChars) && ClosedAt(greedy, k, messages, maxChars);
    if beyond < d { Overfull(messages, a, r, c, beyond, d, maxChars); }
  }

  lemma {:induction false} Overfull(messages: seq<Message>, a: nat, r: nat, c: nat, beyond: nat, d: nat, maxChars: nat)
    requires a <= r < c <= beyond < d <= |messages|
    requires Closed(messages[r..c], messages[c], maxChars)
    requires beyond == if Sum(messages[r..c]) == maxChars then SkipEmpty(messages, c) else c
    ensures Sum(messages[a..d]) > maxChars
  {
    TooMuch(messages, r, c, beyond, maxChars);
    SumPart(messages, a, r, beyond + 1, d);
  }

  lemma SumJoin(messages: seq<Message>, a: nat, b: nat, c: nat)
    requires a <= b <= c <= |messages|
    ensures Sum(messages[a..c]) == Sum(messages[a..b]) + Sum(messages[b..c])
  {
    SumConcat(messages[a..b], messages[b..c]);
    assert messages[a..b] + messages[b..c] == messages[a..c];
  }

  lemma SumNext(messages: seq<Message>, a: nat, b: nat)
    requires a <= b < |messages|
    ensures Sum(messages[a..b + 1]) == Sum(messages[a..b]) + messages[b].size
  {
    assert messages[a..b + 1][..b - a] == messages[a..b];
  }

  /** What the greedy chunk held and the first message beyond its reach do not fit together. */
  lemma TooMuch(messages: seq<Message>, r: nat, c: nat, beyond: nat, maxChars: nat)
    requires r < c <= beyond < |messages|
    requires Closed(messages[r..c], messages[c], maxChars)
    requires beyond == if Sum(messages[r..c]) == maxChars then SkipEmpty(messages, c) else c
    ensures Sum(messages[r..beyond + 1]) > maxChars
  {
    SumJoin(messages, r, c, beyond);
    SumNext(messages, r, beyond);
  }

  lemma FewestChunks(greedy: Cut, other: Cut, messages: seq<Message>, maxChars: nat)
    requires Partition(greedy, messages, maxChars) && Greedy(greedy, messages, maxChars)
    requires Partition(other, messages, maxChars) && !Wasteful(greedy, maxChars)
    ensures |greedy| <= |other|
  {
    if |greedy| > |other| {
      var n := |other|;
      GreedyAhead(greedy, other, messages, maxChars, n);
      OffsetEnd(other);
      ReachWithin(greedy, messages, maxChars, n);
    }
  }

  /** A wasteful cut has one chunk too many: the two fit into one. */
  lemma Merge(cut: Cut, messages: seq<Message>, maxChars: nat, k: nat) returns (other: Cut)
    requires Partition(cut, messages, maxChars) && k < |cut| - 1
    requires Sum(cut[k]) == maxChars && Sum(cut[k + 1]) == 0
    ensures Partition(other, messages, maxChars) && |other| == |cut| - 1
  {
    var one := cut[k] + cut[k + 1];
    other := cut[..k] + [one] + cut[k + 2..];
    SumConcat(cut[k], cut[k + 1]);
    MergeFlat(cut[..k], cut[k], cut[k + 1], cut[k + 2..]);
    assert cut == cut[..k] + [cut[k], cut[k + 1]] + cut[k + 2..];
    assert Fits(cut[k], maxChars) && Fits(one, maxChars);
    forall i | 0 <= i < |other| ensures Fits(other[i], maxChars) {
      assert i != k ==> other[i] == cut[if i < k then i else i + 1];
    }
  }

  lemma MergeFlat(before: Cut, a: seq<Message>, b: seq<Message>, after: Cut)
    ensures Flatten(before + [a + b] + after) == Flatten(before + [a, b] + after)
  {
    FlattenConcat(before + [a + b], after);
    FlattenConcat(before + [a, b], after);
    FlattenConcat(before, [a + b]);
    FlattenConcat(before, [a, b]);
    FlattenTwo(a, b);
  }

  lemma {:induction false} FlattenConcat(a: Cut, b: Cut)
    ensures Flatten(a + b) == Flatten(a) + Flatten(b)
  {
    if b == [] {
      assert a + b == a;
    } else {
      assert (a + b)[..|a + b| - 1] == a + b[..|b| - 1];
      FlattenConcat(a, b[..|b| - 1]);
    }
  }

  lemma FlattenTwo(a: seq<Message>, b: seq<Message>)
    ensures Flatten([a, b]) == a + b && Flatten([a + b]) == a + b
  {
    assert [a, b][..1] == [a] && [a][..0] == [] && [a + b][..0] == [];
    assert Flatten([a]) == a;
  }

  /**
   * The greedy cut has as few chunks as any partition under the same rule if and only if it is not wasteful. Where no
   * message is empty it never is.
   */
  lemma GreedyOptimal(greedy: Cut, messages: seq<Message>, maxChars: nat)
    requires Partition(greedy, messages, maxChars) && Greedy(greedy, messages, maxChars)
    ensures Optimal(greedy, messages, maxChars) <==> !Wasteful(greedy, maxChars)
  {
    if Wasteful(greedy, maxChars) {
      var k :| 0 <= k < |greedy| - 1 && Sum(greedy[k]) == maxChars && Sum(greedy[k + 1]) == 0;
      var other := Merge(greedy, messages, maxChars, k);
    } else {
      forall other | Partition(other, messages, maxChars) ensures |greedy| <= |other| {
        FewestChunks(greedy, other, messages, maxChars);
      }
    }
  }

  lemma PositiveSum(chunk: seq<Message>)
    requires chunk != [] && forall i :: 0 <= i < |chunk| ==> chunk[i].size > 0
    ensures Sum(chunk) > 0
  {
  }

  lemma PositiveOptimal(greedy: Cut, messages: seq<Message>, maxChars: nat)
    requires Partition(greedy, messages, maxChars) && Greedy(greedy, messages, maxChars)
    requires forall i :: 0 <= i < |messages| ==> messages[i].size > 0
    ensures Optimal(greedy, messages, maxChars)
  {
    forall k | 0 < k < |greedy| ensures Sum(greedy[k]) > 0 {
      ChunkAt(greedy, messages, k);
      assert Fits(greedy[k], maxChars);
      PositiveSum(greedy[k]);
    }
    GreedyOptimal(greedy, messages, maxChars);
  }

  lemma TwoMessages(one: Message, two: Message)
    ensures Flatten([[one], [two]]) == [one, two] && Flatten([[one, two]]) == [one, two]
    ensures Sum([one]) == one.size && Sum([two]) == two.size && Sum([one, two]) == one.size + two.size
    ensures Offset([[one], [two]], 1) == 1 && Offset([[one], [two]], 2) == 2
  {
    var none: Cut := [];
    assert [[one], [two]][..1] == [[one]] && [[one]][..0] == none && [[one, two]][..0] == none;
    assert [one, two][..1] == [one] && [one][..0] == [] && [two][..0] == [];
    assert Flatten([[one]]) == [one];
  }

  /** It can be wasteful: a chunk that is exactly full is closed before it can take an empty message. */
  lemma EmptyMessageCostsChunk(full: Message, empty: Message)
    requires full.size > 0 && empty.size == 0
    ensures var messages, greedy, other: Cut := [full, empty], [[full], [empty]], [[full, empty]];
      && Partition(greedy, messages, full.size) && Greedy(greedy, messages, full.size) && Wasteful(greedy, full.size)
      && Partition(other, messages, full.size) && |greedy| > |other|
  {
    TwoMessages(full, empty);
    var greedy: Cut := [[full], [empty]];
    assert ClosedAt(greedy, 0, [full, empty], full.size) && ClosedAt(greedy, 1, [full, empty], full.size);
    assert Sum(greedy[0]) == full.size && Sum(greedy[0 + 1]) == 0;
  }
}
