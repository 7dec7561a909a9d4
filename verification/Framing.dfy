/** Messages on a TCP stream between two peers: a 14-byte header with the length of the payload, and the
    payload, over a socket that may split every read and write. Hosts are little-endian. */
module Framing {
  import opened Wrappers

  type byte = x: nat | x < 256

  const HEADER_SIZE := 14
  const BUFFER_SIZE := 10240
  const MAGIC: nat := NetworkOrder(0xCD54A23E)
  const VERSION: byte := 1
  const FLAG_NONE: byte := 4

  // ---------------------------------------------------------------- numbers as bytes

  /** constexpr_htonl: the four bytes of a word in reverse. */
  function NetworkOrder(x: nat): nat {
    (x / 0x100_0000) % 0x100 + ((x / 0x1_0000) % 0x100) * 0x100 + ((x / 0x100) % 0x100) * 0x1_0000 + (x % 0x100) * 0x100_0000
  }

  /** A word as it lies in memory: k bytes, the lowest first, or the highest first. */
  function LittleEndian(n: nat, k: nat): (s: seq<byte>)
    ensures |s| == k
  {
    if k == 0 then [] else [n % 256] + LittleEndian(n / 256, k - 1)
  }

  function BigEndian(n: nat, k: nat): (s: seq<byte>)
    ensures |s| == k
  {
    if k == 0 then [] else BigEndian(n / 256, k - 1) + [n % 256]
  }

  function FromLittleEndian(s: seq<byte>): nat {
    if s == [] then 0 else s[0] + 256 * FromLittleEndian(s[1..])
  }

  function FromBigEndian(s: seq<byte>): nat {
    if s == [] then 0 else 256 * FromBigEndian(s[..|s| - 1]) + s[|s| - 1]
  }

  function Power256(k: nat): nat {
    if k == 0 then 1 else 256 * Power256(k - 1)
  }

  lemma {:induction false} BigEndianRoundTrip(n: nat, k: nat)
    requires n < Power256(k)
    ensures FromBigEndian(BigEndian(n, k)) == n
  {
    if k > 0 {
      BigEndianRoundTrip(n / 256, k - 1);
      var s := BigEndian(n / 256, k - 1) + [n % 256];
      assert s[..|s| - 1] == BigEndian(n / 256, k - 1);
    }
  }

  lemma {:induction false} LittleEndianRoundTrip(n: nat, k: nat)
    requires n < Power256(k)
    ensures FromLittleEndian(LittleEndian(n, k)) == n
  {
    if k > 0 {
      LittleEndianRoundTrip(n / 256, k - 1);
    }
  }

  /** Reversing the bytes of a word and storing it lowest byte first puts the original's highest byte first. */
  lemma NetworkOrderIsBigEndian(x: nat)
    requires x < 0x1_0000_0000
    ensures LittleEndian(NetworkOrder(x), 4) == BigEndian(x, 4)
    ensures NetworkOrder(NetworkOrder(x)) == x
  {
    hide LittleEndian, BigEndian, NetworkOrder;
    var a, b, c, d := x / 0x100_0000, (x / 0x1_0000) % 0x100, (x / 0x100) % 0x100, x % 0x100;
    FourBytes(x);
    Bytes4(a, b, c, d);
    Bytes4(d, c, b, a);
    NetworkOrderOf(a, b, c, d);
    NetworkOrderOf(d, c, b, a);
  }

  lemma FourBytes(x: nat)
    requires x < 0x1_0000_0000
    ensures x / 0x100_0000 < 0x100
    ensures x == (x / 0x100_0000) * 0x100_0000 + ((x / 0x1_0000) % 0x100) * 0x1_0000 + ((x / 0x100) % 0x100) * 0x100 + x % 0x100
  {
  }

  lemma NetworkOrderOf(a: nat, b: nat, c: nat, d: nat)
    requires a < 256 && b < 256 && c < 256 && d < 256
    ensures NetworkOrder(a * 0x100_0000 + b * 0x1_0000 + c * 0x100 + d) == d * 0x100_0000 + c * 0x1_0000 + b * 0x100 + a
  {
    hide LittleEndian, BigEndian;
    Bytes4(a, b, c, d);
  }

  lemma Bytes4(a: nat, b: nat, c: nat, d: nat)
    requires a < 256 && b < 256 && c < 256 && d < 256
    ensures var x := a * 0x100_0000 + b * 0x1_0000 + c * 0x100 + d;
            && x / 0x100_0000 == a && (x / 0x1_0000) % 0x100 == b && (x / 0x100) % 0x100 == c && x % 0x100 == d
            && BigEndian(x, 4) == [a, b, c, d] && LittleEndian(x, 4) == [d, c, b, a]
  {
    var x := a * 0x100_0000 + b * 0x1_0000 + c * 0x100 + d;
    var y, z := a * 0x1_0000 + b * 0x100 + c, a * 0x100 + b;
    assert x / 256 == y && y / 256 == z && z / 256 == a && a / 256 == 0;
    assert LittleEndian(a, 1) == [a] + LittleEndian(0, 0) == [a];
    assert LittleEndian(z, 2) == [b] + LittleEndian(a, 1) == [b, a];
    assert LittleEndian(y, 3) == [c] + LittleEndian(z, 2) == [c, b, a];
    assert BigEndian(a, 1) == BigEndian(0, 0) + [a] == [a];
    assert BigEndian(z, 2) == BigEndian(a, 1) + [b] == [a, b];
    assert BigEndian(y, 3) == BigEndian(z, 2) + [c] == [a, b, c];
  }

  // ---------------------------------------------------------------- the header

  datatype Header = Header(magic: nat, version: byte, flags: byte, length: nat)

  predicate IsValid(h: Header) {
    h.magic == MAGIC && h.version == VERSION
  }

  /** The header of a payload, with the length in network order. */
  function HeaderFor(n: nat): Header {
    Header(MAGIC, VERSION, FLAG_NONE, n)
  }

  /** The packed structure; `length` is stored highest byte first. */
  function Serialize(h: Header): (s: seq<byte>)
    ensures |s| == HEADER_SIZE
  {
    LittleEndian(h.magic, 4) + [h.version, h.flags] + BigEndian(h.length, 8)
  }

  function Deserialize(s: seq<byte>): Option<Header>
    requires |s| == HEADER_SIZE
  {
    var h := Header(FromLittleEndian(s[..4]), s[4], s[5], FromBigEndian(s[6..]));
    if IsValid(h) then Some(h) else None
  }

  lemma HeaderRoundTrip(n: nat)
    requires n < Power256(8)
    ensures Deserialize(Serialize(HeaderFor(n))) == Some(HeaderFor(n))
  {
    var h := HeaderFor(n);
    var s := Serialize(h);
    assert s[..4] == LittleEndian(h.magic, 4) && s[6..] == BigEndian(n, 8);
    MagicFits();
    LittleEndianRoundTrip(h.magic, 4);
    BigEndianRoundTrip(n, 8);
  }

  lemma MagicFits()
    ensures MAGIC < Power256(4)
  {
    assert Power256(4) == 0x1_0000_0000;
  }

  /** On the wire every frame starts CD 54 A2 3E, then version 1 and flag 4, then the length in eight bytes. */
  lemma MagicOnTheWire(n: nat)
    ensures Serialize(HeaderFor(n)) == [0xCD, 0x54, 0xA2, 0x3E, 1, 4] + BigEndian(n, 8)
    ensures Serialize(HeaderFor(n))[..4] == [0xCD, 0x54, 0xA2, 0x3E]
  {
    hide LittleEndian, BigEndian, NetworkOrder;
    MagicBytes();
    assert Serialize(HeaderFor(n))[..4] == LittleEndian(MAGIC, 4);
    assert [0xCD, 0x54, 0xA2, 0x3E] + [1, 4] == [0xCD, 0x54, 0xA2, 0x3E, 1, 4];
  }

  lemma LastDigit(d: byte, n: nat, bound: nat)
    requires n < bound
    ensures (256 * n + d) % 256 == d && (256 * n + d) / 256 == n && 256 * n + d < 256 * bound
  {
  }

  lemma {:induction false} LittleEndianInverse(s: seq<byte>)
    ensures FromLittleEndian(s) < Power256(|s|) && LittleEndian(FromLittleEndian(s), |s|) == s
  {
    if s != [] {
      LittleEndianInverse(s[1..]);
      LastDigit(s[0], FromLittleEndian(s[1..]), Power256(|s| - 1));
      assert [s[0]] + s[1..] == s;
    }
  }

  lemma {:induction false} BigEndianInverse(s: seq<byte>)
    ensures FromBigEndian(s) < Power256(|s|) && BigEndian(FromBigEndian(s), |s|) == s
  {
    if s != [] {
      var last := |s| - 1;
      BigEndianInverse(s[..last]);
      LastDigit(s[last], FromBigEndian(s[..last]), Power256(last));
      assert s[..last] + [s[last]] == s;
    }
  }

  /** The bytes with which every header of this protocol and version starts. */
  const PREAMBLE: seq<byte> := [0xCD, 0x54, 0xA2, 0x3E, 1]

  /** A header is accepted if and only if it starts with those five bytes; what is read from it is then exactly what
      the 14 bytes say, the length with its highest byte first. */
  lemma HeaderAcceptedIff(s: seq<byte>)
    requires |s| == HEADER_SIZE
    ensures Deserialize(s).Some? <==> s[..5] == PREAMBLE
    ensures Deserialize(s).Some? ==> Serialize(Deserialize(s).value) == s && Deserialize(s).value.length == FromBigEndian(s[6..])
  {
    hide NetworkOrder, LittleEndian, BigEndian, FromLittleEndian, FromBigEndian;
    var magic := s[..4];
    MagicFits();
    MagicBytes();
    LittleEndianInverse(magic);
    LittleEndianRoundTrip(MAGIC, 4);
    BigEndianInverse(s[6..]);
    assert FromLittleEndian(magic) == MAGIC <==> magic == [0xCD, 0x54, 0xA2, 0x3E];
    assert s[..5] == magic + [s[4]];
    assert s == magic + [s[4], s[5]] + s[6..];
  }

  lemma MagicBytes()
    ensures LittleEndian(MAGIC, 4) == [0xCD, 0x54, 0xA2, 0x3E]
  {
    hide LittleEndian, BigEndian, NetworkOrder;
    NetworkOrderIsBigEndian(0xCD54A23E);
    Bytes4(0xCD, 0x54, 0xA2, 0x3E);
  }

  // ---------------------------------------------------------------- frames

  function Frame(p: seq<byte>): seq<byte> {
    Serialize(HeaderFor(|p|)) + p
  }

  function Encode(ps: seq<seq<byte>>): seq<byte> {
    if ps == [] then [] else Encode(ps[..|ps| - 1]) + Frame(ps[|ps| - 1])
  }

  /** What one readable event takes from the stream: a payload, nothing (the header is not ours), or the end
      of the connection. */
  datatype Received = Payload(bytes: seq<byte>) | Skipped | Closed

  /** One read_cb on a stream that delivers all of s before it fails. */
  function DecodeOne(s: seq<byte>): (Received, seq<byte>) {
    if |s| < HEADER_SIZE then (Closed, [])
    else
      var rest := s[HEADER_SIZE..];
      match Deserialize(s[..HEADER_SIZE])
      case None => (Skipped, rest)
      case Some(h) =>
        if h.length > BUFFER_SIZE then (Closed, rest)
        else if |rest| < h.length then (Payload(rest), [])
        else (Payload(rest[..h.length]), rest[h.length..])
  }

  /** A frame is read back whole exactly when its payload fits the reader's buffer. */
  lemma FrameRoundTripIff(p: seq<byte>, rest: seq<byte>)
    requires |p| < Power256(8)
    ensures DecodeOne(Frame(p) + rest) == (Payload(p), rest) <==> |p| <= BUFFER_SIZE
    ensures |p| > BUFFER_SIZE ==> DecodeOne(Frame(p) + rest).0 == Closed
  {
    hide Serialize, Deserialize;
    var s := Frame(p) + rest;
    assert s[..HEADER_SIZE] == Serialize(HeaderFor(|p|)) && s[HEADER_SIZE..] == p + rest;
    HeaderRoundTrip(|p|);
    assert (p + rest)[..|p|] == p && (p + rest)[|p|..] == rest;
  }

  function DecodeMany(s: seq<byte>, n: nat): seq<seq<byte>>
    decreases n
  {
    if n == 0 then []
    else
      var (r, rest) := DecodeOne(s);
      match r
      case Payload(p) => [p] + DecodeMany(rest, n - 1)
      case Skipped => DecodeMany(rest, n - 1)
      case Closed => []
  }

  predicate Fits(ps: seq<seq<byte>>) {
    forall p <- ps :: |p| <= BUFFER_SIZE
  }

  lemma {:induction false} EncodeCons(p: seq<byte>, ps: seq<seq<byte>>)
    ensures Encode([p] + ps) == Frame(p) + Encode(ps)
  {
    hide Frame;
    if ps == [] {
      assert ([p] + ps)[..0] == [];
    } else {
      var last := |ps| - 1;
      EncodeCons(p, ps[..last]);
      assert ([p] + ps)[..|ps|] == [p] + ps[..last];
    }
  }

  /** Every list of payloads that fit comes back whole and in order. */
  lemma {:induction false} FramesRoundTrip(ps: seq<seq<byte>>, rest: seq<byte>)
    requires Fits(ps)
    ensures DecodeMany(Encode(ps) + rest, |ps|) == ps
    decreases |ps|
  {
    hide Encode, DecodeOne, Frame;
    if ps == [] {
    } else {
      Buffer64();
      EncodeCons(ps[0], ps[1..]);
      assert [ps[0]] + ps[1..] == ps;
      assert Encode(ps) + rest == Frame(ps[0]) + (Encode(ps[1..]) + rest);
      FrameRoundTripIff(ps[0], Encode(ps[1..]) + rest);
      FramesRoundTrip(ps[1..], rest);
    }
  }

  lemma Buffer64()
    ensures BUFFER_SIZE < Power256(8)
  {
    assert Power256(8) == 256 * (256 * (256 * (256 * (256 * (256 * (256 * (256 * Power256(0))))))));
  }

  /** The sender ignores how much write_exact wrote: after a write cut short in a payload the reader takes
      the missing bytes from the frames behind it. */
  lemma ShortWriteMixesFrames(p: seq<byte>, t: nat, rest: seq<byte>)
    requires t <= |p| <= BUFFER_SIZE && |p| - t <= |rest|
    ensures DecodeOne(Serialize(HeaderFor(|p|)) + p[..t] + rest) == (Payload(p[..t] + rest[..|p| - t]), rest[|p| - t..])
  {
    Buffer64();
    var s := Serialize(HeaderFor(|p|)) + p[..t] + rest;
    assert s[..HEADER_SIZE] == Serialize(HeaderFor(|p|)) && s[HEADER_SIZE..] == p[..t] + rest;
    HeaderRoundTrip(|p|);
    assert (p[..t] + rest)[..|p|] == p[..t] + rest[..|p| - t];
    assert (p[..t] + rest)[|p|..] == rest[|p| - t..];
  }

  // ---- exactly when a frame, and a stream of frames, survives writes and reads that are cut short

  /** What a sender leaves on the stream for one payload when only `header` bytes of the header and `body`
      bytes of the payload were written; it goes on either way. */
  datatype Cut = Cut(header: nat, body: nat)

  predicate CutOk(p: seq<byte>, c: Cut) {
    c.header <= HEADER_SIZE && c.body <= |p|
  }

  predicate Whole(p: seq<byte>, c: Cut) {
    c.header == HEADER_SIZE && c.body == |p|
  }

  function Torn(p: seq<byte>, c: Cut): seq<byte>
    requires CutOk(p, c)
  {
    Serialize(HeaderFor(|p|))[..c.header] + p[..c.body]
  }

  predicate CutsOk(ps: seq<seq<byte>>, cuts: seq<Cut>) {
    |cuts| == |ps| && forall i :: 0 <= i < |ps| ==> CutOk(ps[i], cuts[i])
  }

  predicate AllWhole(ps: seq<seq<byte>>, cuts: seq<Cut>)
    requires |cuts| == |ps|
  {
    forall i :: 0 <= i < |ps| ==> Whole(ps[i], cuts[i])
  }

  function TornAll(ps: seq<seq<byte>>, cuts: seq<Cut>): seq<byte>
    requires CutsOk(ps, cuts)
    decreases |ps|
  {
    if ps == [] then []
    else TornAll(ps[..|ps| - 1], cuts[..|ps| - 1]) + Torn(ps[|ps| - 1], cuts[|ps| - 1])
  }

  /** A payload that was decoded, the 14 bytes of a header and what is left are all of the stream. */
  lemma DecodeConsumes(s: seq<byte>)
    ensures DecodeOne(s).0.Payload? ==> |s| == HEADER_SIZE + |DecodeOne(s).0.bytes| + |DecodeOne(s).1|
    ensures |DecodeOne(s).1| <= |s|
  {
    hide Deserialize;
  }

  /** One frame is read back whole, with what follows it intact, if and only if both of its writes were whole. */
  lemma ShortWriteIff(p: seq<byte>, c: Cut, rest: seq<byte>)
    requires |p| <= BUFFER_SIZE && CutOk(p, c)
    ensures DecodeOne(Torn(p, c) + rest) == (Payload(p), rest) <==> Whole(p, c)
  {
    hide DecodeOne, Serialize;
    Buffer64();
    if Whole(p, c) {
      assert Torn(p, c) == Frame(p);
      FrameRoundTripIff(p, rest);
    } else {
      DecodeConsumes(Torn(p, c) + rest);
    }
  }

  lemma {:induction false} TornSize(ps: seq<seq<byte>>, cuts: seq<Cut>)
    requires CutsOk(ps, cuts)
    ensures |TornAll(ps, cuts)| <= |Encode(ps)|
    ensures |TornAll(ps, cuts)| == |Encode(ps)| <==> AllWhole(ps, cuts)
    ensures AllWhole(ps, cuts) ==> TornAll(ps, cuts) == Encode(ps)
    decreases |ps|
  {
    hide Serialize;
    if ps != [] {
      var last := |ps| - 1;
      TornSize(ps[..last], cuts[..last]);
      assert AllWhole(ps, cuts) <==> AllWhole(ps[..last], cuts[..last]) && Whole(ps[last], cuts[last]);
      if Whole(ps[last], cuts[last]) {
        assert Torn(ps[last], cuts[last]) == Frame(ps[last]);
      }
    }
  }

  /** Payloads cannot be decoded from fewer bytes than their frames have. */
  lemma {:induction false} DecodeManyConsumes(s: seq<byte>, n: nat)
    ensures |Encode(DecodeMany(s, n))| <= |s|
    decreases n
  {
    hide DecodeOne, Encode, Serialize;
    EncodeNone();
    if n > 0 {
      var (r, rest) := DecodeOne(s);
      DecodeConsumes(s);
      DecodeManyConsumes(rest, n - 1);
      if r.Payload? {
        EncodeCons(r.bytes, DecodeMany(rest, n - 1));
      }
    }
  }

  lemma EncodeNone()
    ensures Encode([]) == []
  {
  }

  lemma {:induction false} WholeStream(ps: seq<seq<byte>>, n: nat)
    requires Fits(ps) && |ps| <= n
    ensures DecodeMany(Encode(ps), n) == ps
    decreases n
  {
    hide DecodeOne, Encode;
    if n == 0 {
    } else if ps == [] {
      EncodeNone();
      NothingToDecode();
    } else {
      OneMore(ps, 0, []);
      assert ps[0..] == ps && Encode(ps) + [] == Encode(ps) && Encode(ps[1..]) + [] == Encode(ps[1..]);
      WholeStream(ps[1..], n - 1);
    }
  }

  lemma NothingToDecode()
    ensures DecodeOne([]) == (Closed, [])
  {
  }

  /** The stream as the sender leaves it gives back the list of payloads, over enough readable events, if and
      only if no write was cut short. */
  lemma TornStreamIff(ps: seq<seq<byte>>, cuts: seq<Cut>, n: nat)
    requires Fits(ps) && CutsOk(ps, cuts) && |ps| <= n
    ensures DecodeMany(TornAll(ps, cuts), n) == ps <==> AllWhole(ps, cuts)
  {
    hide DecodeMany, Encode, TornAll;
    TornSize(ps, cuts);
    WholeStream(ps, n);
    DecodeManyConsumes(TornAll(ps, cuts), n);
  }

  /** A reader that gets only the first m bytes hands on the whole payload if and only if they cover the frame;
      cut short in the payload it hands on what it has as if it were whole. */
  lemma ShortReadIff(p: seq<byte>, rest: seq<byte>, m: nat)
    requires |p| <= BUFFER_SIZE && m <= |Frame(p) + rest|
    ensures DecodeOne((Frame(p) + rest)[..m]).0 == Payload(p) <==> m >= |Frame(p)|
    ensures HEADER_SIZE <= m < |Frame(p)| ==> DecodeOne((Frame(p) + rest)[..m]).0 == Payload(p[..m - HEADER_SIZE])
    ensures m < HEADER_SIZE ==> DecodeOne((Frame(p) + rest)[..m]).0 == Closed
  {
    hide Serialize, Deserialize;
    Buffer64();
    HeaderRoundTrip(|p|);
    var s := (Frame(p) + rest)[..m];
    if m >= HEADER_SIZE {
      assert s[..HEADER_SIZE] == Serialize(HeaderFor(|p|));
      assert s[HEADER_SIZE..] == (p + rest)[..m - HEADER_SIZE];
      if m >= |Frame(p)| {
        assert (p + rest)[..m - HEADER_SIZE][..|p|] == p;
      } else {
        assert (p + rest)[..m - HEADER_SIZE] == p[..m - HEADER_SIZE];
      }
    }
  }

  // ---------------------------------------------------------------- the stream

  /** A connected socket: what has been written and not read yet, and whether a call has failed. */
  class Stream {
    var bytes: seq<byte>
    var failed: bool

    constructor ()
      ensures bytes == [] && !failed
    {
      bytes, failed := [], false;
    }

    /** ::write takes some of the bytes, or fails. */
    method Write(buf: array<byte>, at: nat, len: nat) returns (n: int)
      requires 0 < len && at + len <= buf.Length
      modifies this
      ensures n <= len
      ensures n > 0 ==> bytes == old(bytes) + buf[at..at + n] && failed == old(failed)
      ensures n <= 0 ==> bytes == old(bytes) && failed
    {
      n := *;
      if n <= 0 || n > len {
        n, failed := -1, true;
        return;
      }
      bytes := bytes + buf[at..at + n];
    }

    /** ::read returns some bytes, or ends. */
    method Read(buf: array<byte>, at: nat, len: nat) returns (n: int)
      requires 0 < len && at + len <= buf.Length
      modifies this, buf
      ensures n <= len
      ensures forall k :: 0 <= k < buf.Length && !(at <= k < at + n) ==> buf[k] == old(buf[k])
      ensures n > 0 ==> n <= |old(bytes)| && buf[at..at + n] == old(bytes)[..n] && bytes == old(bytes)[n..] && failed == old(failed)
      ensures n <= 0 ==> bytes == old(bytes) && failed
    {
      n := *;
      if n <= 0 || n > len || n > |bytes| {
        n, failed := 0, true;
        return;
      }
      for k := 0 to n
        invariant bytes == old(bytes) && failed == old(failed)
        invariant forall j :: 0 <= j < buf.Length && !(at <= j < at + k) ==> buf[j] == old(buf[j])
        invariant forall j :: 0 <= j < k ==> buf[at + j] == bytes[j]
      {
        buf[at + k] := bytes[k];
      }
      bytes := bytes[n..];
    }

    method WriteExact(buf: array<byte>, len: nat) returns (total: nat)
      requires len <= buf.Length
      modifies this
      ensures total <= len && bytes == old(bytes) + buf[..total]
      ensures failed <==> old(failed) || total < len
    {
      total := 0;
      while total < len
        invariant total <= len && bytes == old(bytes) + buf[..total] && failed == old(failed)
      {
        var n := Write(buf, total, len - total);
        if n <= 0 {
          break;
        }
        assert buf[..total + n] == buf[..total] + buf[total..total + n];
        total := total + n;
      }
    }

    method ReadExact(buf: array<byte>, len: nat) returns (total: nat)
      requires len <= buf.Length
      modifies this, buf
      ensures total <= len && total <= |old(bytes)| && buf[..total] == old(bytes)[..total] && bytes == old(bytes)[total..]
      ensures failed <==> old(failed) || total < len
    {
      total := 0;
      while total < len
        invariant total <= len && total <= |old(bytes)| && failed == old(failed)
        invariant buf[..total] == old(bytes)[..total] && bytes == old(bytes)[total..]
      {
        ghost var before := buf[..];
        var n := Read(buf, total, len - total);
        if n <= 0 {
          assert buf[..total] == before[..total];
          break;
        }
        assert buf[..total] == before[..total];
        assert buf[..total + n] == buf[..total] + buf[total..total + n];
        assert old(bytes)[..total + n] == old(bytes)[..total] + old(bytes)[total..][..n];
        assert old(bytes)[total..][n..] == old(bytes)[total + n..];
        total := total + n;
      }
    }
  }

  // ---------------------------------------------------------------- the pipeline

  method ToArray(s: seq<byte>) returns (a: array<byte>)
    ensures fresh(a) && a[..] == s
  {
    a := new byte[|s|](i requires 0 <= i < |s| => s[i]);
  }

  /** handle_write_timeout: every queued payload, header first, whatever became of the write before. */
  method WriteFrames(stream: Stream, ps: seq<seq<byte>>) returns (ghost cuts: seq<Cut>)
    modifies stream
    ensures CutsOk(ps, cuts) && stream.bytes == old(stream.bytes) + TornAll(ps, cuts)
    ensures stream.failed <==> old(stream.failed) || !AllWhole(ps, cuts)
  {
    hide Serialize;
    cuts := [];
    assert ps[..0] == [];
    for i := 0 to |ps|
      invariant CutsOk(ps[..i], cuts) && stream.bytes == old(stream.bytes) + TornAll(ps[..i], cuts)
      invariant stream.failed <==> old(stream.failed) || !AllWhole(ps[..i], cuts)
    {
      var header := HeaderFor(|ps[i]|);
      assert IsValid(header);
      var buffer := ToArray(Serialize(header));
      var written := stream.WriteExact(buffer, buffer.Length);
      var body := ToArray(ps[i]);
      var sent := stream.WriteExact(body, body.Length);
      ghost var cut := Cut(written, sent);
      assert buffer[..written] == Serialize(header)[..written] && body[..sent] == ps[i][..sent];
      TornSnoc(ps[..i], cuts, ps[i], cut);
      assert ps[..i + 1] == ps[..i] + [ps[i]];
      cuts := cuts + [cut];
    }
    assert ps[..|ps|] == ps;
  }

  lemma TornSnoc(ps: seq<seq<byte>>, cuts: seq<Cut>, p: seq<byte>, c: Cut)
    requires CutsOk(ps, cuts) && CutOk(p, c)
    ensures CutsOk(ps + [p], cuts + [c])
    ensures TornAll(ps + [p], cuts + [c]) == TornAll(ps, cuts) + Torn(p, c)
    ensures AllWhole(ps + [p], cuts + [c]) <==> AllWhole(ps, cuts) && Whole(p, c)
  {
    assert (ps + [p])[..|ps|] == ps && (cuts + [c])[..|ps|] == cuts;
    forall i | 0 <= i < |ps|
      ensures (ps + [p])[i] == ps[i] && (cuts + [c])[i] == cuts[i]
    {
    }
    assert (ps + [p])[|ps|] == p && (cuts + [c])[|ps|] == c;
  }

  /** What one readable event may make of the m bytes that it took, in terms of those bytes alone. */
  ghost predicate Understood(taken: seq<byte>, r: Received, m: nat)
    requires m == |taken|
  {
    if m < HEADER_SIZE then r == Closed
    else if taken[..5] != PREAMBLE then r == Skipped && m == HEADER_SIZE
    else
      var length := FromBigEndian(taken[6..HEADER_SIZE]);
      if length > BUFFER_SIZE then r == Closed && m == HEADER_SIZE
      else m <= HEADER_SIZE + length && r == Payload(taken[HEADER_SIZE..])
  }

  /** read_cb. m is how many bytes it took: the frame's, unless a read was cut short, and then it hands on what
      it has. */
  method ReadFrame(stream: Stream) returns (r: Received, ghost m: nat)
    modifies stream
    ensures m <= |old(stream.bytes)| && stream.bytes == old(stream.bytes)[m..] && Understood(old(stream.bytes)[..m], r, m)
    ensures !stream.failed ==> m >= HEADER_SIZE
    ensures !stream.failed && r.Payload? ==> m == HEADER_SIZE + FromBigEndian(old(stream.bytes)[6..HEADER_SIZE])
    ensures r == DecodeOne(old(stream.bytes)[..m]).0
    ensures !stream.failed ==> (r, stream.bytes) == DecodeOne(old(stream.bytes))
    ensures old(stream.failed) ==> stream.failed
  {
    hide Deserialize, FromBigEndian;
    ghost var all := stream.bytes;
    var buffer := new byte[HEADER_SIZE];
    var size := stream.ReadExact(buffer, HEADER_SIZE);
    m := size;
    if size < HEADER_SIZE {
      return Closed, m;
    }
    assert buffer[..] == buffer[..HEADER_SIZE] == all[..HEADER_SIZE];
    assert all[..m][..HEADER_SIZE] == all[..HEADER_SIZE];
    HeaderAcceptedIff(all[..HEADER_SIZE]);
    Fields(all, m);
    var header := Deserialize(buffer[..]);
    if header.None? {
      return Skipped, m;
    }
    if header.value.length > BUFFER_SIZE {
      return Closed, m;
    }
    var body := new byte[BUFFER_SIZE];
    size := stream.ReadExact(body, header.value.length);
    m := m + size;
    Fields(all, m);
    assert all[..m][..HEADER_SIZE] == all[..HEADER_SIZE];
    assert all[..m][HEADER_SIZE..] == all[HEADER_SIZE..][..size];
    assert all[HEADER_SIZE..][size..] == all[m..];
    return Payload(body[..size]), m;
  }

  lemma Fields(all: seq<byte>, m: nat)
    requires HEADER_SIZE <= m <= |all|
    ensures all[..m][..5] == all[..HEADER_SIZE][..5]
    ensures all[..m][6..HEADER_SIZE] == all[..HEADER_SIZE][6..] == all[6..HEADER_SIZE]
  {
  }

  /** One readable event after another, with the frames of `sent` on the stream. */
  method ReadFrames(stream: Stream, n: nat, ghost sent: seq<seq<byte>>, ghost rest: seq<byte>) returns (ps: seq<seq<byte>>)
    requires !stream.failed ==> stream.bytes == Encode(sent) + rest
    requires Fits(sent) && |sent| == n
    modifies stream
    ensures !stream.failed ==> ps == sent && stream.bytes == rest
  {
    hide Encode, DecodeOne;
    ps := [];
    assert sent[0..] == sent;
    for i := 0 to n
      invariant !stream.failed ==> ps == sent[..i] && stream.bytes == Encode(sent[i..]) + rest
    {
      OneMore(sent, i, rest);
      var r, m := ReadFrame(stream);
      if r.Payload? {
        ps := ps + [r.bytes];
      }
    }
    NoFrames(rest);
    assert sent[n..] == [] && sent[..n] == sent;
  }

  lemma NoFrames(rest: seq<byte>)
    ensures Encode([]) + rest == rest
  {
  }

  lemma OneMore(sent: seq<seq<byte>>, i: nat, rest: seq<byte>)
    requires i < |sent| && Fits(sent)
    ensures DecodeOne(Encode(sent[i..]) + rest) == (Payload(sent[i]), Encode(sent[i + 1..]) + rest)
    ensures |Encode(sent[i..]) + rest| >= HEADER_SIZE
  {
    hide Encode, DecodeOne, Serialize;
    Buffer64();
    EncodeCons(sent[i], sent[i + 1..]);
    assert [sent[i]] + sent[i + 1..] == sent[i..];
    assert Encode(sent[i..]) + rest == Frame(sent[i]) + (Encode(sent[i + 1..]) + rest);
    FrameRoundTripIff(sent[i], Encode(sent[i + 1..]) + rest);
  }

  /** Sent by one peer, received by the other: the same payloads in the same order, however the sockets
      split the bytes, as long as no call fails. */
  method SendAndReceive(stream: Stream, ps: seq<seq<byte>>) returns (received: seq<seq<byte>>)
    requires stream.bytes == [] && Fits(ps)
    modifies stream
    ensures !stream.failed ==> received == ps
  {
    ghost var cuts := WriteFrames(stream, ps);
    TornSize(ps, cuts);
    ghost var rest: seq<byte> := [];
    assert !stream.failed ==> stream.bytes == Encode(ps) + rest;
    received := ReadFrames(stream, |ps|, ps, rest);
  }
}
