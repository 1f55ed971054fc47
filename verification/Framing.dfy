/** Length-prefixed messages over a byte stream: four bytes of big-endian length, then the
    body. Both ends of the vsock connection use it; how the transport splits the stream into
    chunks must not matter. */
module Framing {
  import opened Wrappers
  import opened Utf8

  const LENGTH_BYTES := 4
  const MAX_BODY := 0x1_0000_0000

  /** `struct.pack(">I", n)`. */
  function Pack(n: nat): (bs: seq<Byte>)
    requires n < MAX_BODY
    ensures |bs| == LENGTH_BYTES
  {
    [n / 0x100_0000, n / 0x1_0000 % 0x100, n / 0x100 % 0x100, n % 0x100]
  }

  /** `struct.unpack(">I", bs)`. */
  function Unpack(bs: seq<Byte>): (n: nat)
    requires |bs| == LENGTH_BYTES
    ensures n < MAX_BODY
  {
    var b0: int, b1: int, b2: int, b3: int := bs[0], bs[1], bs[2], bs[3];
    0x100_0000 * b0 + 0x1_0000 * b1 + 0x100 * b2 + b3
  }

  lemma UnpackPack(n: nat)
    requires n < MAX_BODY
    ensures Unpack(Pack(n)) == n
  {
    var a, b, c := n / 0x100_0000, n / 0x1_0000, n / 0x100;
    assert b / 0x100 == a && c / 0x100 == b;
    assert b % 0x100 == b - 0x100 * a && c % 0x100 == c - 0x100 * b && n % 0x100 == n - 0x100 * c;
  }

  lemma Digits256(n: nat)
    ensures n / 0x100 / 0x100 == n / 0x1_0000 && n / 0x1_0000 / 0x100 == n / 0x100_0000
  {
  }

  /** The header is big-endian: headers compare, as byte strings, as the lengths do. */
  lemma PackKeepsOrder(m: nat, n: nat) returns (k: nat)
    requires m < n < MAX_BODY
    ensures Precedes(Pack(m), Pack(n), k)
  {
    Digits256(m);
    Digits256(n);
    LastDigit(m, n, 0x100);
    k := 3;
    if m / 0x100 < n / 0x100 {
      LastDigit(m / 0x100, n / 0x100, 0x100);
      k := 2;
      if m / 0x1_0000 < n / 0x1_0000 {
        LastDigit(m / 0x1_0000, n / 0x1_0000, 0x100);
        k := if m / 0x100_0000 < n / 0x100_0000 then 0 else 1;
      }
    }
  }

  predicate Sendable(body: seq<Byte>) { |body| < MAX_BODY }

  /** What `_send` writes; packing the length of a larger body raises. */
  function Frame(body: seq<Byte>): Option<seq<Byte>> {
    if Sendable(body) then Some(Pack(|body|) + body) else None
  }

  function Frames(bodies: seq<seq<Byte>>): seq<Byte>
    requires forall b :: b in bodies ==> Sendable(b)
  {
    if bodies == [] then [] else Frame(bodies[0]).value + Frames(bodies[1..])
  }

  /** The first message of a stream and what follows it; `None` when the stream ends first. */
  function Take(stream: seq<Byte>): Option<(seq<Byte>, seq<Byte>)> {
    if |stream| < LENGTH_BYTES then None
    else
      var n := Unpack(stream[..LENGTH_BYTES]);
      var rest := stream[LENGTH_BYTES..];
      if |rest| < n then None else Some((rest[..n], rest[n..]))
  }

  /** Every whole message of a stream, in order. */
  function Messages(stream: seq<Byte>): seq<seq<Byte>>
    decreases |stream|
  {
    match Take(stream)
    case None => []
    case Some((body, rest)) => [body] + Messages(rest)
  }

  lemma TakeFrame(stream: seq<Byte>, body: seq<Byte>, rest: seq<Byte>)
    requires Sendable(body) && stream == Frame(body).value + rest
    ensures Take(stream) == Some((body, rest))
  {
    UnpackPack(|body|);
    assert stream[..LENGTH_BYTES] == Pack(|body|);
    assert stream[LENGTH_BYTES..] == body + rest;
  }

  lemma MessagesStep(stream: seq<Byte>, body: seq<Byte>, rest: seq<Byte>)
    requires Sendable(body) && stream == Frame(body).value + rest
    ensures Messages(stream) == [body] + Messages(rest)
  {
    TakeFrame(stream, body, rest);
  }

  /** Receiving undoes sending. */
  lemma {:induction false} MessagesOfFrames(bodies: seq<seq<Byte>>)
    requires forall b :: b in bodies ==> Sendable(b)
    ensures Messages(Frames(bodies)) == bodies
  {
    if bodies != [] {
      MessagesStep(Frames(bodies), bodies[0], Frames(bodies[1..]));
      MessagesOfFrames(bodies[1..]);
    }
  }

  /** A stream cut inside a frame yields no message from that frame on. */
  lemma TakeCut(body: seq<Byte>, n: nat)
    requires Sendable(body) && n < |Frame(body).value|
    ensures Take(Frame(body).value[..n]) == None
  {
    UnpackPack(|body|);
    if n >= LENGTH_BYTES {
      assert Frame(body).value[..n][..LENGTH_BYTES] == Pack(|body|);
    }
  }

  /** How many whole frames the first `n` bytes of `Frames(bodies)` contain. */
  function Whole(bodies: seq<seq<Byte>>, n: nat): (k: nat)
    requires forall b :: b in bodies ==> Sendable(b)
    ensures k <= |bodies|
  {
    if bodies == [] || |Frame(bodies[0]).value| > n then 0
    else 1 + Whole(bodies[1..], n - |Frame(bodies[0]).value|)
  }

  /** `Whole` counts the frames that lie within the first `n` bytes. */
  lemma {:induction false} WholeIsMaximal(bodies: seq<seq<Byte>>, n: nat)
    requires forall b :: b in bodies ==> Sendable(b)
    ensures |Frames(bodies[..Whole(bodies, n)])| <= n
    ensures Whole(bodies, n) < |bodies| ==> n < |Frames(bodies[..Whole(bodies, n) + 1])|
  {
    if bodies != [] {
      var f := Frame(bodies[0]).value;
      if |f| > n {
        assert bodies[..1] == [bodies[0]];
      } else {
        var k := Whole(bodies[1..], n - |f|);
        WholeIsMaximal(bodies[1..], n - |f|);
        assert bodies[..k + 1][1..] == bodies[1..][..k];
        if k < |bodies[1..]| {
          assert bodies[..k + 2][1..] == bodies[1..][..k + 1];
        }
      }
    }
  }

  /** A stream cut anywhere yields exactly the messages whose frames it contains whole, never a
      wrong one, and then ends in an error. */
  lemma {:induction false} CutStream(stream: seq<Byte>, bodies: seq<seq<Byte>>)
    requires forall b :: b in bodies ==> Sendable(b)
    requires stream <= Frames(bodies)
    ensures Messages(stream) == bodies[..Whole(bodies, |stream|)]
    decreases |bodies|
  {
    if bodies != [] {
      var f := Frame(bodies[0]).value;
      if |f| > |stream| {
        assert stream == f[..|stream|];
        TakeCut(bodies[0], |stream|);
      } else {
        var after := stream[|f|..];
        assert stream == f + after && after <= Frames(bodies[1..]);
        MessagesStep(stream, bodies[0], after);
        CutStream(after, bodies[1..]);
      }
    }
  }

  function Flatten(chunks: seq<seq<Byte>>): seq<Byte> {
    if chunks == [] then [] else chunks[0] + Flatten(chunks[1..])
  }

  /** The receiving end of a connection: the chunks the transport will deliver before it is
      closed. `Recv` hands over at most one of them at a time. */
  class Socket {
    var chunks: seq<seq<Byte>>

    ghost predicate Valid()
      reads this
    {
      forall c :: c in chunks ==> c != []
    }

    /** The bytes still to come; how they are split is not visible to a caller. */
    ghost function Stream(): seq<Byte>
      reads this
    {
      Flatten(chunks)
    }

    constructor (chunks: seq<seq<Byte>>)
      requires forall c :: c in chunks ==> c != []
      ensures Valid() && Stream() == Flatten(chunks)
    {
      this.chunks := chunks;
    }

    /** Up to `n` bytes; none only when the peer has closed. */
    method Recv(n: nat) returns (chunk: seq<Byte>)
      requires Valid() && n > 0
      modifies this
      ensures Valid() && old(Stream()) == chunk + Stream()
      ensures |chunk| <= n && (chunk == [] <==> old(Stream()) == [])
    {
      if chunks == [] {
        return [];
      }
      var head := chunks[0];
      assert head in chunks && forall c :: c in chunks[1..] ==> c in chunks;
      if |head| <= n {
        chunk, chunks := head, chunks[1..];
      } else {
        chunk := head[..n];
        chunks := [head[n..]] + chunks[1..];
        assert head == chunk + head[n..];
        assert chunks[1..] == old(chunks)[1..];
      }
    }

    /** `_recv_exact`, and on the host `readexactly`: `None` is the connection error. */
    method RecvExact(n: nat) returns (r: Option<seq<Byte>>)
      requires Valid()
      modifies this
      ensures Valid()
      ensures |old(Stream())| >= n ==> r == Some(old(Stream())[..n]) && Stream() == old(Stream())[n..]
      ensures |old(Stream())| < n ==> r == None && Stream() == []
    {
      var data: seq<Byte> := [];
      var remaining := n;
      while remaining > 0
        invariant Valid() && 0 <= remaining == n - |data|
        invariant old(Stream()) == data + Stream()
      {
        var chunk := Recv(remaining);
        if chunk == [] {
          return None;
        }
        data := data + chunk;
        remaining := remaining - |chunk|;
      }
      assert old(Stream())[..n] == data && old(Stream())[n..] == Stream();
      return Some(data);
    }

    /** `_recv`, up to the decoding of the body. */
    method Receive() returns (r: Option<seq<Byte>>)
      requires Valid()
      modifies this
      ensures Valid()
      ensures match Take(old(Stream()))
              case None => r == None
              case Some((body, rest)) => r == Some(body) && Stream() == rest
    {
      var header := RecvExact(LENGTH_BYTES);
      match header {
        case None => return None;
        case Some(length) => r := RecvExact(Unpack(length));
      }
    }

    /** Receiving until the connection error, as a peer that never stops asking would. */
    method ReceiveAll() returns (bodies: seq<seq<Byte>>)
      requires Valid()
      modifies this
      ensures bodies == Messages(old(Stream()))
    {
      bodies := [];
      while true
        invariant Valid() && bodies + Messages(Stream()) == Messages(old(Stream()))
        decreases |Stream()|
      {
        ghost var before := Stream();
        var r := Receive();
        match r {
          case None => return;
          case Some(body) =>
            assert Messages(before) == [body] + Messages(Stream());
            bodies := bodies + [body];
        }
      }
    }
  }

  /** For every list of bodies and every way to split the concatenated frames into chunks,
      repeated receive returns exactly those bodies, in order. */
  method ReceiveEverySplit(bodies: seq<seq<Byte>>, chunks: seq<seq<Byte>>) returns (received: seq<seq<Byte>>)
    requires forall b :: b in bodies ==> Sendable(b)
    requires forall c :: c in chunks ==> c != []
    requires Flatten(chunks) == Frames(bodies)
    ensures received == bodies
  {
    var socket := new Socket(chunks);
    received := socket.ReceiveAll();
    MessagesOfFrames(bodies);
  }

  const MAX_RECONNECT_ATTEMPTS := 200

  /** How one connect/ready/receive sequence ends. */
  datatype Attempt<T> = Connected(code: T) | OsError | OtherError

  /** The guest's reconnect loop. `attempts[i]` is the i-th sequence. Only `OSError` is retried;
      the result is that of the last sequence made. */
  method ConnectAndWaitForCode<T(==)>(attempts: seq<Attempt<T>>) returns (last: Attempt<T>, made: nat)
    requires |attempts| >= MAX_RECONNECT_ATTEMPTS
    ensures 1 <= made <= MAX_RECONNECT_ATTEMPTS && last == attempts[made - 1]
    ensures forall i :: 0 <= i < made - 1 ==> attempts[i] == OsError
    ensures last == OsError ==> made == MAX_RECONNECT_ATTEMPTS
    ensures last == OsError <==> forall i :: 0 <= i < MAX_RECONNECT_ATTEMPTS ==> attempts[i] == OsError
  {
    made := 0;
    while true
      invariant 0 <= made < MAX_RECONNECT_ATTEMPTS
      invariant forall i :: 0 <= i < made ==> attempts[i] == OsError
      decreases MAX_RECONNECT_ATTEMPTS - made
    {
      made := made + 1;
      last := attempts[made - 1];
      if last != OsError || made >= MAX_RECONNECT_ATTEMPTS {
        return;
      }
    }
  }
}
