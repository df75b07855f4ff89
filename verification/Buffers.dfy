// src/buffer_pool.rs and the read loop of src/whois.rs.
module Buffers {
  import opened Wrappers
  import opened Network

  type Byte = n: nat | n < 256

  // A vector moved in and out of the pool: contents and allocated capacity.
  datatype Vec = Vec(bytes: seq<Byte>, capacity: nat)

  function Zeros(n: nat): seq<Byte> { seq(n, i => 0) }

  function Fresh(size: nat): Vec { Vec(Zeros(size), size) }

  function Resized(v: Vec, size: nat): Vec {
    if size <= |v.bytes| then Vec(v.bytes[..size], v.capacity)
    else Vec(v.bytes + Zeros(size - |v.bytes|), v.capacity)
  }

  // PooledBuffer::new: the oldest pooled vector if it is large enough, else a new one.
  function Acquired(queue: seq<Vec>, size: nat): Vec {
    if Reusable(queue, size) then Resized(queue[0], size) else Fresh(size)
  }

  predicate Reusable(queue: seq<Vec>, size: nat) {
    queue != [] && queue[0].capacity >= size
  }

  function AfterPop(queue: seq<Vec>): seq<Vec> {
    if queue == [] then [] else queue[1..]
  }

  // Drop: set the length and push, unless the queue is full.
  function Returned(queue: seq<Vec>, limit: nat, v: Vec, size: nat): seq<Vec> {
    var r := if v.capacity >= size then Resized(v, size) else v;
    if |queue| < limit then queue + [r] else queue
  }

  predicate Sized(v: Vec, size: nat) {
    |v.bytes| == size && size <= v.capacity
  }

  predicate PoolOk(queue: seq<Vec>, limit: nat, size: nat) {
    |queue| <= limit && forall v :: v in queue ==> Sized(v, size)
  }

  // A vector goes back with the configured length if its capacity allows, keeping its bytes and
  // zeroing what is added, and otherwise as it is; a full pool drops it.
  lemma ReturnedExactly(queue: seq<Vec>, limit: nat, v: Vec, size: nat)
    ensures |queue| >= limit ==> Returned(queue, limit, v, size) == queue
    ensures |queue| < limit ==>
              var after := Returned(queue, limit, v, size);
              && |after| == |queue| + 1 && queue <= after && after[|queue|].capacity == v.capacity
              && (v.capacity < size ==> after[|queue|] == v)
              && (v.capacity >= size ==>
                  && |after[|queue|].bytes| == size
                  && forall i :: 0 <= i < size ==> after[|queue|].bytes[i] == if i < |v.bytes| then v.bytes[i] else 0)
  {
  }

  // Taking a buffer and giving it back unread moves the oldest vector to the end, byte for
  // byte; an empty pool gains one vector.
  lemma TakeAndGiveBackRotates(queue: seq<Vec>, limit: nat, size: nat)
    requires PoolOk(queue, limit, size) && limit > 0
    ensures Returned(AfterPop(queue), limit, Acquired(queue, size), size) ==
            if queue == [] then [Fresh(size)] else queue[1..] + [queue[0]]
  {
    if queue == [] {
      assert Resized(Fresh(size), size) == Fresh(size);
    } else {
      assert queue[0] in queue;
      assert Resized(queue[0], size) == queue[0];
    }
  }

  class BufferPool {
    const limit: nat
    var queue: seq<Vec>

    constructor (limit: nat)
      ensures this.limit == limit && queue == []
    {
      this.limit, queue := limit, [];
    }
  }

  class PooledBuffer {
    var buffer: Vec
    const pool: BufferPool
    const size: nat

    // Whatever the pool holds, the buffer has exactly the asked length and room for it. A
    // vector that is reused keeps the bytes it came with; only what is added is zeroed.
    constructor (pool: BufferPool, size: nat)
      modifies pool
      ensures this.pool == pool && this.size == size
      ensures Sized(buffer, size)
      ensures forall i :: 0 <= i < size ==>
                buffer.bytes[i] == if Reusable(old(pool.queue), size) && i < |old(pool.queue)[0].bytes|
                                   then old(pool.queue)[0].bytes[i] else 0
      ensures old(pool.queue) == if old(pool.queue) == [] then [] else [old(pool.queue)[0]] + pool.queue
      ensures old(PoolOk(pool.queue, pool.limit, size)) ==> PoolOk(pool.queue, pool.limit, size)
      ensures buffer == Acquired(old(pool.queue), size) && pool.queue == AfterPop(old(pool.queue))
    {
      var taken: Vec;
      var left := pool.queue;
      if left == [] {
        taken := Fresh(size);
      } else {
        taken, left := left[0], left[1..];
        if taken.capacity >= size {
          if size <= |taken.bytes| {
            taken := taken.(bytes := taken.bytes[..size]);
          } else {
            taken := taken.(bytes := taken.bytes + Zeros(size - |taken.bytes|));
          }
        } else {
          taken := Fresh(size);
        }
      }
      this.pool, this.size, buffer := pool, size, taken;
      new;
      pool.queue := left;
    }

    // A buffer of the configured size is pooled as it is, unless the pool is full; nothing that
    // was pooled is lost or moved, and the pool stays well-formed.
    method Drop()
      modifies pool
      ensures old(pool.queue) <= pool.queue && |pool.queue| <= |old(pool.queue)| + 1
      ensures Sized(buffer, size) ==>
                pool.queue == if |old(pool.queue)| < pool.limit then old(pool.queue) + [buffer] else old(pool.queue)
      ensures Sized(buffer, size) && old(PoolOk(pool.queue, pool.limit, size)) ==> PoolOk(pool.queue, pool.limit, size)
      ensures pool.queue == Returned(old(pool.queue), pool.limit, buffer, size)
    {
      var v := buffer;
      if v.capacity >= size {
        if size <= |v.bytes| {
          v := v.(bytes := v.bytes[..size]);
        } else {
          v := v.(bytes := v.bytes + Zeros(size - |v.bytes|));
        }
      }
      assert Sized(buffer, size) ==> v.bytes == buffer.bytes;
      if |pool.queue| < pool.limit {
        pool.queue := pool.queue + [v];
      }
    }
  }

  // What the connection does next: the total budget is spent, one read times out or fails,
  // the peer closes, or bytes arrive. A script that runs out is a silent peer.
  datatype ReadEvent = Expired | Silent | Broken | Closed | Arrived(bytes: seq<Byte>)

  // Reference reading: whole chunks, no buffer. An empty chunk is an end of file.
  function Transcript(events: seq<ReadEvent>, maxSize: nat, got: seq<Byte>): Result<seq<Byte>, WhoisError> {
    if events == [] then Failure(Timeout)
    else
      match events[0]
      case Expired => Failure(Timeout)
      case Silent => Failure(Timeout)
      case Broken => Failure(IoError)
      case Closed => Success(got)
      case Arrived(bytes) =>
        if bytes == [] then Success(got)
        else if |got + bytes| > maxSize then Failure(ResponseTooLarge)
        else Transcript(events[1..], maxSize, got + bytes)
  }

  function Concat(events: seq<ReadEvent>): seq<Byte> {
    if events == [] then []
    else if events[0].Arrived? then events[0].bytes + Concat(events[1..])
    else Concat(events[1..])
  }

  ghost predicate Delivering(events: seq<ReadEvent>) {
    forall e :: e in events ==> e.Arrived? && e.bytes != []
  }

  ghost predicate EndsAt(events: seq<ReadEvent>, n: nat) {
    n < |events| && (events[n].Closed? || events[n] == Arrived([]))
  }

  // Success means exactly: chunks, then an end of file, and the bytes are their concatenation.
  lemma {:induction false} TranscriptSuccess(events: seq<ReadEvent>, maxSize: nat, got: seq<Byte>) returns (n: nat)
    requires |got| <= maxSize
    ensures Transcript(events, maxSize, got).Success? ==>
            && EndsAt(events, n) && Delivering(events[..n])
            && Transcript(events, maxSize, got).value == got + Concat(events[..n])
            && |got + Concat(events[..n])| <= maxSize
    decreases |events|
  {
    n := 0;
    assert got + Concat(events[..0]) == got;
    if events != [] && events[0].Arrived? && events[0].bytes != [] && |got + events[0].bytes| <= maxSize {
      var bytes := events[0].bytes;
      var k := TranscriptSuccess(events[1..], maxSize, got + bytes);
      if Transcript(events, maxSize, got).Success? {
        n := k + 1;
        assert events[..n] == [events[0]] + events[1..][..k];
        assert got + bytes + Concat(events[1..][..k]) == got + (bytes + Concat(events[1..][..k]));
      }
    }
  }

  lemma DeliveringHead(events: seq<ReadEvent>, n: nat)
    requires 0 < n <= |events| && Delivering(events[..n])
    ensures events[0].Arrived? && events[0].bytes != []
  {
    assert events[..n][0] == events[0];
  }

  lemma DeliveringTail(events: seq<ReadEvent>, n: nat)
    requires 0 < n <= |events| && Delivering(events[..n])
    ensures events[0].Arrived? && events[0].bytes != [] && Delivering(events[1..][..n - 1])
    ensures Concat(events[..n]) == events[0].bytes + Concat(events[1..][..n - 1])
  {
    DeliveringHead(events, n);
    var rest := events[1..][..n - 1];
    forall e | e in rest ensures e in events[..n] {
      var k :| 0 <= k < |rest| && rest[k] == e;
      assert events[..n][k + 1] == e;
    }
    assert events[..n][1..] == rest;
  }

  // Conversely, delivered chunks that fit, followed by an end of file, are returned.
  lemma {:induction false} TranscriptComplete(events: seq<ReadEvent>, maxSize: nat, got: seq<Byte>, n: nat)
    requires EndsAt(events, n) && Delivering(events[..n]) && |got + Concat(events[..n])| <= maxSize
    ensures Transcript(events, maxSize, got) == Success(got + Concat(events[..n]))
    decreases n
  {
    if n == 0 {
      assert got + Concat(events[..0]) == got;
    } else {
      DeliveringTail(events, n);
      var bytes, rest := events[0].bytes, events[1..][..n - 1];
      assert got + bytes + Concat(rest) == got + (bytes + Concat(rest));
      TranscriptComplete(events[1..], maxSize, got + bytes, n - 1);
    }
  }

  // How a response ends: with the first event that is no chunk, or with the first chunk that no
  // longer fits; a script that runs out is a timeout.
  lemma {:induction false} TranscriptEnds(events: seq<ReadEvent>, maxSize: nat, got: seq<Byte>) returns (n: nat)
    requires |got| <= maxSize
    ensures n <= |events| && Delivering(events[..n]) && |got + Concat(events[..n])| <= maxSize
    ensures var all, end := got + Concat(events[..n]), Transcript(events, maxSize, got);
            if n == |events| || events[n].Expired? || events[n].Silent? then end == Failure(Timeout)
            else if events[n].Broken? then end == Failure(IoError)
            else if events[n].Closed? || events[n].bytes == [] then end == Success(all)
            else end == Failure(ResponseTooLarge) && |all + events[n].bytes| > maxSize
    decreases |events|
  {
    n := 0;
    assert got + Concat(events[..0]) == got;
    if events != [] && events[0].Arrived? && events[0].bytes != [] && |got + events[0].bytes| <= maxSize {
      var bytes := events[0].bytes;
      var k := TranscriptEnds(events[1..], maxSize, got + bytes);
      n := k + 1;
      assert events[..n] == [events[0]] + events[1..][..k];
      assert got + bytes + Concat(events[1..][..k]) == got + (bytes + Concat(events[1..][..k]));
    }
  }

  // A response is refused for its size exactly when delivered chunks outgrow the limit.
  ghost predicate Outgrows(events: seq<ReadEvent>, n: nat, maxSize: nat, got: seq<Byte>) {
    n <= |events| && Delivering(events[..n]) && |got| + |Concat(events[..n])| > maxSize
  }

  lemma {:induction false} TranscriptTooLarge(events: seq<ReadEvent>, maxSize: nat, got: seq<Byte>)
    requires |got| <= maxSize
    ensures Transcript(events, maxSize, got) == Failure(ResponseTooLarge) <==> exists n: nat :: Outgrows(events, n, maxSize, got)
    decreases |events|
  {
    if events != [] && events[0].Arrived? && events[0].bytes != [] {
      var bytes, rest := events[0].bytes, events[1..];
      if |got + bytes| > maxSize {
        assert events[..1] == [events[0]] && Concat(events[..1][1..]) == [];
        assert Outgrows(events, 1, maxSize, got);
      } else {
        TranscriptTooLarge(rest, maxSize, got + bytes);
        forall n: nat | Outgrows(rest, n, maxSize, got + bytes) ensures Outgrows(events, n + 1, maxSize, got) {
          assert events[..n + 1] == [events[0]] + rest[..n];
        }
        forall n: nat | Outgrows(events, n, maxSize, got) ensures n > 0 && Outgrows(rest, n - 1, maxSize, got + bytes) {
          assert n > 0;
          assert events[..n] == [events[0]] + rest[..n - 1];
          assert forall e :: e in rest[..n - 1] ==> e in events[..n];
        }
      }
    } else {
      forall n: nat | n <= |events| && Delivering(events[..n]) ensures n == 0 {
        if n > 0 { DeliveringHead(events, n); }
      }
    }
  }

  function Remainder(bytes: seq<Byte>, n: nat): seq<ReadEvent>
    requires n <= |bytes|
  {
    if n < |bytes| then [Arrived(bytes[n..])] else []
  }

  // Reading a chunk in two goes never changes the outcome: the buffer size is invisible.
  lemma SplitIsInvisible(bytes: seq<Byte>, n: nat, rest: seq<ReadEvent>, maxSize: nat, got: seq<Byte>)
    requires 0 < n <= |bytes|
    ensures Transcript([Arrived(bytes)] + rest, maxSize, got) ==
            if |got + bytes[..n]| > maxSize then Failure(ResponseTooLarge)
            else Transcript(Remainder(bytes, n) + rest, maxSize, got + bytes[..n])
  {
    assert ([Arrived(bytes)] + rest)[1..] == rest;
    if n < |bytes| {
      assert ([Arrived(bytes[n..])] + rest)[1..] == rest;
      assert got + bytes[..n] + bytes[n..] == got + bytes;
    } else {
      assert bytes[..n] == bytes && Remainder(bytes, n) + rest == rest;
    }
  }

  ghost function Pending(events: seq<ReadEvent>): nat {
    if events == [] then 0
    else Pending(events[1..]) + 1 + if events[0].Arrived? then |events[0].bytes| else 0
  }

  lemma PendingShrinks(bytes: seq<Byte>, n: nat, rest: seq<ReadEvent>)
    requires 0 < n <= |bytes|
    ensures Pending(Remainder(bytes, n) + rest) < Pending([Arrived(bytes)] + rest)
  {
    assert ([Arrived(bytes)] + rest)[1..] == rest;
    if n < |bytes| {
      assert ([Arrived(bytes[n..])] + rest)[1..] == rest;
    } else {
      assert Remainder(bytes, n) + rest == rest;
    }
  }

  // read_whois_response over a pooled buffer that still holds earlier bytes. The result is the
  // buffer-free transcript; held is the length of the response vector at the end.
  method ReadWhoisResponse(pool: BufferPool, size: nat, maxSize: nat, events: seq<ReadEvent>, utf8: seq<Byte> -> bool)
    returns (result: Result<seq<Byte>, WhoisError>, held: nat)
    requires size > 0
    modifies pool
    ensures var t := Transcript(events, maxSize, []);
            result == if t.Success? && !utf8(t.value) then Failure(InvalidUtf8) else t
    ensures held <= maxSize + size && (result.Success? ==> held == |result.value| <= maxSize)
    ensures old(PoolOk(pool.queue, pool.limit, size)) ==> PoolOk(pool.queue, pool.limit, size)
    ensures old(PoolOk(pool.queue, pool.limit, size)) && pool.limit > 0 ==>
              |pool.queue| == if old(pool.queue) == [] then 1 else |old(pool.queue)|
  {
    ghost var ok := PoolOk(pool.queue, pool.limit, size);
    var pooled := new PooledBuffer(pool, size);
    var response, script := [], events;
    var outcome := None;
    while outcome.None?
      invariant fresh(pooled) && pooled.pool == pool && pooled.size == size
      invariant |pooled.buffer.bytes| == size && (ok ==> size <= pooled.buffer.capacity)
      invariant pool.queue == AfterPop(old(pool.queue))
      invariant outcome.None? ==> |response| <= maxSize && Transcript(script, maxSize, response) == Transcript(events, maxSize, [])
      invariant outcome.Some? ==> outcome.value == Transcript(events, maxSize, [])
      invariant |response| <= maxSize + size
      invariant outcome.Some? && outcome.value.Success? ==> outcome.value.value == response && |response| <= maxSize
      decreases Pending(script), outcome.None?
    {
      if script == [] || script[0].Expired? || script[0].Silent? {
        outcome := Some(Failure(Timeout));
      } else if script[0].Broken? {
        outcome := Some(Failure(IoError));
      } else if script[0].Closed? || script[0].bytes == [] {
        outcome := Some(Success(response));
      } else {
        var bytes, rest := script[0].bytes, script[1..];
        var n := if |bytes| < size then |bytes| else size;
        assert script == [Arrived(bytes)] + rest;
        SplitIsInvisible(bytes, n, rest, maxSize, response);
        PendingShrinks(bytes, n, rest);
        script := Remainder(bytes, n) + rest;
        pooled.buffer := pooled.buffer.(bytes := bytes[..n] + pooled.buffer.bytes[n..]);
        assert pooled.buffer.bytes[..n] == bytes[..n];
        response := response + pooled.buffer.bytes[..n];
        if |response| > maxSize {
          outcome := Some(Failure(ResponseTooLarge));
        }
      }
    }
    pooled.Drop();
    held := |response|;
    result := if outcome.value.Success? && !utf8(response) then Failure(InvalidUtf8) else outcome.value;
  }

  // Any number of readers sharing one pool: buffers held outside it, in any interleaving.
  datatype PoolState = PoolState(queue: seq<Vec>, held: seq<Vec>)

  datatype PoolOp = Take | Overwrite(reader: nat, bytes: seq<Byte>) | Give(reader: nat)

  function PoolStep(s: PoolState, op: PoolOp, limit: nat, size: nat): PoolState {
    match op
    case Take => PoolState(AfterPop(s.queue), s.held + [Acquired(s.queue, size)])
    case Overwrite(i, bytes) =>
      if i < |s.held| && |bytes| <= |s.held[i].bytes|
      then s.(held := s.held[i := s.held[i].(bytes := bytes + s.held[i].bytes[|bytes|..])])
      else s
    case Give(i) =>
      if i < |s.held| then PoolState(Returned(s.queue, limit, s.held[i], size), s.held[..i] + s.held[i + 1..]) else s
  }

  function PoolRun(s: PoolState, ops: seq<PoolOp>, limit: nat, size: nat): PoolState {
    if ops == [] then s else PoolStep(PoolRun(s, ops[..|ops| - 1], limit, size), ops[|ops| - 1], limit, size)
  }

  ghost predicate AllOk(s: PoolState, limit: nat, size: nat) {
    PoolOk(s.queue, limit, size) && forall v :: v in s.held ==> Sized(v, size)
  }

  // Readers do not touch one another's buffers: taking adds one, reading overwrites the front of
  // one's own, giving back takes away exactly one's own.
  lemma PoolStepExactly(s: PoolState, op: PoolOp, limit: nat, size: nat)
    ensures var n := PoolStep(s, op, limit, size);
            match op
            case Take => s.held <= n.held && |n.held| == |s.held| + 1 && n.queue == (if s.queue == [] then [] else s.queue[1..])
            case Overwrite(i, bytes) =>
              && n.queue == s.queue && |n.held| == |s.held|
              && (forall j :: 0 <= j < |s.held| && j != i ==> n.held[j] == s.held[j])
              && (i < |s.held| && |bytes| <= |s.held[i].bytes| ==>
                  && |n.held[i].bytes| == |s.held[i].bytes|
                  && forall k :: 0 <= k < |s.held[i].bytes| ==> n.held[i].bytes[k] == if k < |bytes| then bytes[k] else s.held[i].bytes[k])
            case Give(i) =>
              && (i >= |s.held| ==> n == s)
              && (i < |s.held| ==> multiset(n.held) + multiset{s.held[i]} == multiset(s.held) && s.queue <= n.queue)
              && (i < |s.held| && |s.queue| < limit ==> |n.queue| == |s.queue| + 1)
  {
    match op {
      case Take =>
      case Overwrite(_, _) =>
      case Give(i) =>
        if i < |s.held| {
          assert s.held == s.held[..i] + [s.held[i]] + s.held[i + 1..];
        }
    }
  }

  lemma PoolStepOk(s: PoolState, op: PoolOp, limit: nat, size: nat)
    requires AllOk(s, limit, size)
    ensures AllOk(PoolStep(s, op, limit, size), limit, size)
  {
    match op {
      case Take =>
        assert Sized(Acquired(s.queue, size), size);
      case Overwrite(i, bytes) =>
        if i < |s.held| && |bytes| <= |s.held[i].bytes| {
          var v := s.held[i].(bytes := bytes + s.held[i].bytes[|bytes|..]);
          assert s.held[i] in s.held && Sized(v, size);
          assert forall w :: w in s.held[i := v] ==> w == v || w in s.held;
        }
      case Give(i) =>
        if i < |s.held| {
          assert s.held[i] in s.held && Sized(Resized(s.held[i], size), size);
          assert forall w :: w in s.held[..i] + s.held[i + 1..] ==> w in s.held;
        }
    }
  }

  // Along every run every buffer, pooled or held, has the configured length, and the pool
  // never exceeds its capacity.
  lemma {:induction false} PoolRunOk(ops: seq<PoolOp>, limit: nat, size: nat)
    ensures AllOk(PoolRun(PoolState([], []), ops, limit, size), limit, size)
  {
    if ops != [] {
      PoolRunOk(ops[..|ops| - 1], limit, size);
      PoolStepOk(PoolRun(PoolState([], []), ops[..|ops| - 1], limit, size), ops[|ops| - 1], limit, size);
    }
  }
}
