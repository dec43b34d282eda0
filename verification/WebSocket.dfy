/**
 The guest's WebSocket client (spikes/guest/browser_workload.py:64-110) against the framing of
 section 5.2 of RFC 6455.  The handshake and JSON are outside; a message is its bytes.
 */
module WebSocket {
  import opened Wrappers

  type Octet = b: int | 0 <= b < 256
  type Octets = seq<Octet>

  datatype Failure = ConnectionError | TooLong

  const TWO63 := 0x8000_0000_0000_0000
  const TWO64 := 0x1_0000_0000_0000_0000

  // ---------------------------------------------------------------- numbers in network order

  /** `struct.pack(">H", n)` with two octets, `(">Q", n)` with eight. */
  function BigEndian(n: nat, octets: nat): (bs: Octets)
    ensures |bs| == octets
  {
    if octets == 0 then [] else BigEndian(n / 256, octets - 1) + [n % 256]
  }

  function Number(bs: Octets): nat {
    if bs == [] then 0 else Number(bs[..|bs| - 1]) * 256 + bs[|bs| - 1]
  }

  function Pow256(k: nat): (p: nat)
    ensures p > 0
  {
    if k == 0 then 1 else 256 * Pow256(k - 1)
  }

  lemma {:induction false} BigEndianReadsBack(n: nat, octets: nat)
    requires n < Pow256(octets)
    ensures Number(BigEndian(n, octets)) == n
    decreases octets
  {
    if octets > 0 {
      BigEndianReadsBack(n / 256, octets - 1);
      var bs := BigEndian(n, octets);
      assert bs[..|bs| - 1] == BigEndian(n / 256, octets - 1);
    }
  }

  lemma NextDigit(n: nat, k: nat)
    ensures n / Pow256(k + 1) == n / 256 / Pow256(k)
  {
    var p := Pow256(k);
    var q, r := n / 256 / p, n / 256 % p;
    assert n == (q * p + r) * 256 + n % 256;
    assert (q * p + r) * 256 == q * (256 * p) + 256 * r;
    Quotient(n, 256 * p, q, 256 * r + n % 256);
  }

  lemma Quotient(n: nat, d: nat, q: nat, r: nat)
    requires d > 0 && n == q * d + r && r < d
    ensures n / d == q
  {
    var e := n / d;
    Apart(q, e, d);
    Apart(e, q, d);
  }

  lemma {:induction false} Apart(a: nat, b: nat, d: nat)
    ensures a < b ==> a * d + d <= b * d
    decreases b
  {
    if a < b {
      Apart(a, b - 1, d);
      assert b * d == (b - 1) * d + d;
    }
  }

  /** Octet `i` of `k` is the digit of weight 256^(k - 1 - i): the most significant comes first. */
  lemma {:induction false} BigEndianDigits(n: nat, octets: nat, i: nat)
    requires i < octets
    ensures BigEndian(n, octets)[i] == n / Pow256(octets - 1 - i) % 256
    decreases octets
  {
    if i < octets - 1 {
      BigEndianDigits(n / 256, octets - 1, i);
      NextDigit(n, octets - 2 - i);
    }
  }

  lemma Widths()
    ensures Pow256(2) == 65536 && Pow256(8) == TWO64
  {
  }

  // ---------------------------------------------------------------- masking

  /** Bitwise exclusive or of the lowest `bits` bits. */
  function XorBits(a: nat, b: nat, bits: nat): (x: nat) {
    if bits == 0 then 0 else (if a % 2 == b % 2 then 0 else 1) + 2 * XorBits(a / 2, b / 2, bits - 1)
  }

  function Pow2(k: nat): (p: nat)
    ensures p > 0
  {
    if k == 0 then 1 else 2 * Pow2(k - 1)
  }

  lemma {:induction false} XorIsBounded(a: nat, b: nat, bits: nat)
    ensures XorBits(a, b, bits) < Pow2(bits)
    decreases bits
  {
    if bits > 0 {
      XorIsBounded(a / 2, b / 2, bits - 1);
    }
  }

  lemma {:induction false} XorTwice(a: nat, b: nat, bits: nat)
    requires a < Pow2(bits)
    ensures XorBits(XorBits(a, b, bits), b, bits) == a
    decreases bits
  {
    if bits > 0 {
      XorTwice(a / 2, b / 2, bits - 1);
      var x := XorBits(a, b, bits);
      assert x / 2 == XorBits(a / 2, b / 2, bits - 1);
    }
  }

  lemma EightBits()
    ensures Pow2(8) == 256
  {
  }

  function Xor(a: Octet, b: Octet): Octet {
    EightBits();
    XorIsBounded(a, b, 8);
    XorBits(a, b, 8)
  }

  lemma XorUndoes(a: Octet, b: Octet)
    ensures Xor(Xor(a, b), b) == a
  {
    EightBits();
    XorTwice(a, b, 8);
  }

  /** `b ^ mask[i % 4] for i, b in enumerate(data)`. */
  function Masked(data: Octets, mask: Octets): (r: Octets)
    requires |mask| == 4
    ensures |r| == |data|
  {
    seq(|data|, i requires 0 <= i < |data| => Xor(data[i], mask[i % 4]))
  }

  lemma MaskingTwice(data: Octets, mask: Octets)
    requires |mask| == 4
    ensures Masked(Masked(data, mask), mask) == data
  {
    forall i | 0 <= i < |data| ensures Masked(Masked(data, mask), mask)[i] == data[i] {
      XorUndoes(data[i], mask[i % 4]);
    }
  }

  // ---------------------------------------------------------------- exclusive or, bit by bit

  predicate Bit(x: nat, j: nat) {
    x / Pow2(j) % 2 == 1
  }

  /** `x` is the exclusive or of `a` and `b`. */
  ghost predicate IsXor(x: Octet, a: Octet, b: Octet) {
    forall j: nat :: j < 8 ==> (Bit(x, j) <==> Bit(a, j) != Bit(b, j))
  }

  lemma HigherBit(x: nat, j: nat)
    ensures Bit(x, j + 1) == Bit(x / 2, j)
  {
    var p := Pow2(j);
    var q, r := x / 2 / p, x / 2 % p;
    assert x == (q * p + r) * 2 + x % 2;
    assert (q * p + r) * 2 == q * (2 * p) + 2 * r;
    Quotient(x, 2 * p, q, 2 * r + x % 2);
  }

  lemma {:induction false} XorBitByBit(a: nat, b: nat, bits: nat, j: nat)
    requires j < bits
    ensures Bit(XorBits(a, b, bits), j) <==> Bit(a, j) != Bit(b, j)
    decreases bits
  {
    var x := XorBits(a, b, bits);
    if j > 0 {
      assert x / 2 == XorBits(a / 2, b / 2, bits - 1);
      HigherBit(x, j - 1);
      HigherBit(a, j - 1);
      HigherBit(b, j - 1);
      XorBitByBit(a / 2, b / 2, bits - 1, j - 1);
    }
  }

  lemma {:induction false} BitsDecide(x: nat, y: nat, bits: nat)
    requires x < Pow2(bits) && y < Pow2(bits) && forall j: nat :: j < bits ==> (Bit(x, j) <==> Bit(y, j))
    ensures x == y
    decreases bits
  {
    if bits > 0 {
      assert Bit(x, 0) == (x % 2 == 1) && Bit(y, 0) == (y % 2 == 1);
      forall j: nat | j < bits - 1 ensures Bit(x / 2, j) <==> Bit(y / 2, j) {
        HigherBit(x, j);
        HigherBit(y, j);
        assert Bit(x, j + 1) <==> Bit(y, j + 1);
      }
      BitsDecide(x / 2, y / 2, bits - 1);
    }
  }

  lemma XorIsXor(a: Octet, b: Octet)
    ensures IsXor(Xor(a, b), a, b)
  {
    forall j: nat | j < 8 ensures Bit(Xor(a, b), j) <==> Bit(a, j) != Bit(b, j) {
      XorBitByBit(a, b, 8, j);
    }
  }

  lemma OnlyOneXor(x: Octet, y: Octet, a: Octet, b: Octet)
    requires IsXor(x, a, b) && IsXor(y, a, b)
    ensures x == y
  {
    EightBits();
    BitsDecide(x, y, 8);
  }

  /** Bit `j` of octet `i` on the wire is set exactly when the payload's and the mask's differ. */
  lemma MaskingIsExclusiveOr(data: Octets, mask: Octets, i: nat, j: nat)
    requires |mask| == 4 && i < |data| && j < 8
    ensures (Masked(data, mask)[i] / Pow2(j) % 2 == 1)
         == ((data[i] / Pow2(j) % 2 == 1) != (mask[i % 4] / Pow2(j) % 2 == 1))
  {
    XorIsXor(data[i], mask[i % 4]);
    assert Bit(Masked(data, mask)[i], j) <==> Bit(data[i], j) != Bit(mask[i % 4], j);
  }

  // ---------------------------------------------------------------- sending

  /** The length field of section 5.2: 7 bits, or 126 and two octets, or 127 and eight. */
  function LengthField(n: nat): Octets {
    if n < 126 then [n] else if n < 65536 then [126] + BigEndian(n, 2) else [127] + BigEndian(n, 8)
  }

  /** FIN and opcode 1, mask bit and length, masking key, masked payload. */
  function Sent(data: Octets, mask: Octets): Octets
    requires |mask| == 4
  {
    var len := LengthField(|data|);
    [0x81] + [128 + len[0]] + len[1..] + mask + Masked(data, mask)
  }

  /** What is sent, octet by octet: a final text frame, masked, with the shortest length field, the
      most significant octet of it first. */
  lemma SentHeader(data: Octets, mask: Octets) returns (field: Octets)
    requires |mask| == 4 && |data| < TWO64
    ensures |field| == if |data| < 126 then 0 else if |data| < 65536 then 2 else 8
    ensures forall i :: 0 <= i < |field| ==> field[i] == |data| / Pow256(|field| - 1 - i) % 256
    ensures
      var seven := if |data| < 126 then |data| else if |data| < 65536 then 126 else 127;
      Sent(data, mask) == [0x81, 0x80 + seven] + field + mask + Masked(data, mask)
  {
    field := LengthField(|data|)[1..];
    forall i | 0 <= i < |field| ensures field[i] == |data| / Pow256(|field| - 1 - i) % 256 {
      BigEndianDigits(|data|, |field|, i);
    }
  }

  // ---------------------------------------------------------------- the standard's reader

  datatype Frame = Frame(first: Octet, masked: bool, key: Octets, body: Octets)

  /** Section 5.3: octet i of the payload is octet i of the body exclusive-or octet i modulo 4 of
      the masking key. */
  ghost predicate Carries(f: Frame, data: Octets) {
    if f.masked then
      && |f.key| == 4 && |data| == |f.body|
      && (forall i :: 0 <= i < |data| ==> IsXor(data[i], f.body[i], f.key[i % 4]))
    else
      data == f.body
  }

  /** Section 5.2: the payload length, refused unless minimal and below 2^63, and what follows. */
  function ParseLength(bs: Octets): Option<(nat, Octets)> {
    if bs == [] then None else
      var n := bs[0] % 128;
      if n < 126 then Some((n, bs[1..]))
      else if n == 126 then
        if |bs| < 3 || Number(bs[1..3]) < 126 then None else Some((Number(bs[1..3]), bs[3..]))
      else
        if |bs| < 9 || Number(bs[1..9]) < 65536 || Number(bs[1..9]) >= TWO63 then None
        else Some((Number(bs[1..9]), bs[9..]))
  }

  /** One frame off the front of a stream. */
  function Parse(bs: Octets): Option<(Frame, Octets)> {
    if |bs| < 2 then None else
      var masked := bs[1] >= 128;
      match ParseLength(bs[1..])
      case None => None
      case Some((n, rest)) =>
        var k := if masked then 4 else 0;
        if |rest| < k + n then None else
          Some((Frame(bs[0], masked, rest[..k], rest[k..k + n]), rest[k + n..]))
  }

  // ---------------------------------------------------------------- what is sent can be read

  lemma LengthReadsBack(n: nat, bit: nat, rest: Octets)
    requires n < TWO64 && (bit == 0 || bit == 128)
    ensures
      var len := LengthField(n);
      var bs := [bit + len[0]] + len[1..] + rest;
      ParseLength(bs) == if n < TWO63 then Some((n, rest)) else None
  {
    Widths();
    var len := LengthField(n);
    var bs := [bit + len[0]] + len[1..] + rest;
    if 126 <= n < 65536 {
      BigEndianReadsBack(n, 2);
      assert bs[1..3] == BigEndian(n, 2) && bs[3..] == rest;
    } else if n >= 65536 {
      BigEndianReadsBack(n, 8);
      assert bs[1..9] == BigEndian(n, 8) && bs[9..] == rest;
    }
  }

  lemma OnlyThePayloadIsCarried(data: Octets, mask: Octets, other: Octets)
    requires |mask| == 4
    ensures Carries(Frame(0x81, true, mask, Masked(data, mask)), other) <==> other == data
  {
    var body := Masked(data, mask);
    forall i | 0 <= i < |data| ensures IsXor(data[i], body[i], mask[i % 4]) {
      XorUndoes(data[i], mask[i % 4]);
      XorIsXor(body[i], mask[i % 4]);
    }
    if Carries(Frame(0x81, true, mask, body), other) {
      forall i | 0 <= i < |data| ensures other[i] == data[i] {
        OnlyOneXor(other[i], data[i], body[i], mask[i % 4]);
      }
    }
  }

  /**
   A frame that `send` puts on the wire is read back by the standard's reader as one final text
   frame that carries the payload and nothing else, exactly when the payload is shorter than 2^63
   octets.
   */
  lemma SentIsReadExactlyBelowTwo63(data: Octets, mask: Octets, rest: Octets)
    requires |mask| == 4 && |data| < TWO64
    ensures
      match Parse(Sent(data, mask) + rest)
      case None => |data| >= 0x8000_0000_0000_0000
      case Some((f, behind)) =>
        && |data| < 0x8000_0000_0000_0000
        && f.first == 0x81 && f.masked && f.key == mask && behind == rest
        && forall other :: Carries(f, other) <==> other == data
  {
    var bs, behind := Sent(data, mask) + rest, mask + Masked(data, mask) + rest;
    SentStarts(data, mask, rest);
    LengthReadsBack(|data|, 128, behind);
    if |data| < TWO63 {
      BodyReadsBack(data, mask, rest);
      ParseMasked(bs, |data|, behind);
      forall other ensures Carries(Frame(0x81, true, mask, Masked(data, mask)), other) <==> other == data {
        OnlyThePayloadIsCarried(data, mask, other);
      }
    }
  }

  lemma SentStarts(data: Octets, mask: Octets, rest: Octets)
    requires |mask| == 4
    ensures
      var bs, len := Sent(data, mask) + rest, LengthField(|data|);
      bs[0] == 0x81 && bs[1] >= 128 && bs[1..] == [128 + len[0]] + len[1..] + (mask + Masked(data, mask) + rest)
  {
  }

  lemma ParseMasked(bs: Octets, n: nat, behind: Octets)
    requires |bs| >= 2 && bs[1] >= 128 && ParseLength(bs[1..]) == Some((n, behind)) && |behind| >= 4 + n
    ensures Parse(bs) == Some((Frame(bs[0], true, behind[..4], behind[4..4 + n]), behind[4 + n..]))
  {
  }

  lemma BodyReadsBack(data: Octets, mask: Octets, rest: Octets)
    requires |mask| == 4
    ensures
      var behind, n := mask + Masked(data, mask) + rest, |data|;
      && |behind| >= 4 + n && behind[..4] == mask && behind[4 + n..] == rest
      && behind[4..4 + n] == Masked(data, mask)
  {
  }

  // ---------------------------------------------------------------- receiving

  /** What `recv` makes of the octets the peer has sent: its result and what stays unread. */
  function Received(bs: Octets): (Result<Option<Octets>, Failure>, Octets) {
    if |bs| < 2 then (Err(ConnectionError), []) else
      var ln := bs[1] % 128;
      var w := if ln == 126 then 2 else if ln == 127 then 8 else 0;
      if |bs| < 2 + w then (Err(ConnectionError), []) else
        var n := if w == 0 then ln else Number(bs[2..2 + w]);
        if |bs| < 2 + w + n then (Err(ConnectionError), []) else
          (Ok(if bs[0] % 16 == 1 || bs[0] % 16 == 2 then Some(bs[2 + w..2 + w + n]) else None), bs[2 + w + n..])
  }

  datatype Width = Seven | Sixteen | SixtyFour

  /** Any frame a peer can send: flags and opcode, a length in any width that holds it. */
  datatype Incoming = Incoming(first: Octet, key: Option<Octets>, width: Width, body: Octets)

  predicate Fits(f: Incoming) {
    && (f.key.Some? ==> |f.key.value| == 4)
    && match f.width
       case Seven => |f.body| < 126
       case Sixteen => |f.body| < 65536
       case SixtyFour => |f.body| < TWO64
  }

  function Header(f: Incoming): Octets
    requires Fits(f)
  {
    var bit := if f.key.Some? then 128 else 0;
    match f.width
    case Seven => [f.first, bit + |f.body|]
    case Sixteen => [f.first, bit + 126] + BigEndian(|f.body|, 2)
    case SixtyFour => [f.first, bit + 127] + BigEndian(|f.body|, 8)
  }

  function OnWire(f: Incoming): Octets
    requires Fits(f)
  {
    Header(f) + (if f.key.Some? then f.key.value else []) + f.body
  }

  /** Data frames give their payload, control and continuation frames nothing. */
  function Outcome(f: Incoming): Option<Octets> {
    if f.first % 16 == 1 || f.first % 16 == 2 then Some(f.body) else None
  }

  /** Octets of the length field behind the second octet. */
  function Extra(second: Octet): nat {
    if second % 128 == 126 then 2 else if second % 128 == 127 then 8 else 0
  }

  function Announced(head: Octets): nat
    requires |head| >= 2
  {
    if Extra(head[1]) == 0 then head[1] % 128 else Number(head[2..])
  }

  /** A whole header decides how `recv` splits what is behind it. */
  lemma ReceivedBehind(head: Octets, behind: Octets)
    requires |head| >= 2 && |head| == 2 + Extra(head[1])
    ensures
      var n := Announced(head);
      Received(head + behind) ==
        if |behind| < n then (Err(ConnectionError), [])
        else (Ok(if head[0] % 16 == 1 || head[0] % 16 == 2 then Some(behind[..n]) else None), behind[n..])
  {
    var bs := head + behind;
    assert bs[2..|head|] == head[2..];
    if Announced(head) <= |behind| {
      SlicesBehind(head, behind, Announced(head));
    }
  }

  lemma SlicesBehind(head: Octets, behind: Octets, n: nat)
    requires n <= |behind|
    ensures (head + behind)[|head|..|head| + n] == behind[..n] && (head + behind)[|head| + n..] == behind[n..]
  {
  }

  lemma HeaderAnnounces(f: Incoming)
    requires Fits(f)
    ensures Header(f)[0] == f.first && |Header(f)| == 2 + Extra(Header(f)[1]) && Announced(Header(f)) == |f.body|
  {
    Widths();
    var n := |f.body|;
    match f.width
    case Seven =>
    case Sixteen =>
      BigEndianReadsBack(n, 2);
      assert Header(f)[2..] == BigEndian(n, 2);
    case SixtyFour =>
      BigEndianReadsBack(n, 8);
      assert Header(f)[2..] == BigEndian(n, 8);
  }

  lemma HeaderIsRead(f: Incoming, behind: Octets)
    requires Fits(f)
    ensures
      var n := |f.body|;
      Received(Header(f) + behind) ==
        if |behind| < n then (Err(ConnectionError), [])
        else (Ok(if f.first % 16 == 1 || f.first % 16 == 2 then Some(behind[..n]) else None), behind[n..])
  {
    HeaderAnnounces(f);
    ReceivedBehind(Header(f), behind);
  }

  /** `recv` looks past the mask bit, so it ends at the next frame exactly when there is no mask;
      then its result is the frame's own. */
  lemma BoundaryIsKeptExactlyWithoutMask(f: Incoming, rest: Octets)
    requires Fits(f)
    ensures Received(OnWire(f) + rest).1 == rest <==> f.key.None?
    ensures f.key.None? ==> Received(OnWire(f) + rest) == (Ok(Outcome(f)), rest)
  {
    var key := if f.key.Some? then f.key.value else [];
    var behind := key + f.body + rest;
    assert OnWire(f) + rest == Header(f) + behind;
    HeaderIsRead(f, behind);
    if f.key.None? {
      assert behind == f.body + rest && behind[..|f.body|] == f.body && behind[|f.body|..] == rest;
    } else {
      assert |behind[|f.body|..]| == |rest| + 4;
    }
  }

  function Stream(frames: seq<Incoming>): Octets
    requires forall k :: 0 <= k < |frames| ==> Fits(frames[k])
  {
    if frames == [] then [] else OnWire(frames[0]) + Stream(frames[1..])
  }

  /** `k` calls of `recv` in a row, up to the first error. */
  function ReceivedMany(bs: Octets, k: nat): (seq<Result<Option<Octets>, Failure>>, Octets)
    decreases k
  {
    if k == 0 then ([], bs) else
      var (first, rest) := Received(bs);
      var (others, end) := ReceivedMany(rest, k - 1);
      ([first] + others, end)
  }

  lemma OneReceived(f: Incoming, behind: Octets, k: nat)
    requires Fits(f) && f.key.None?
    ensures
      var (others, end) := ReceivedMany(behind, k);
      ReceivedMany(OnWire(f) + behind, k + 1) == ([Ok(Outcome(f))] + others, end)
  {
    BoundaryIsKeptExactlyWithoutMask(f, behind);
  }

  /** Every frame is received in order, whatever it is, and the calls end where the frames end. */
  lemma {:induction false} FramesComeInOrder(frames: seq<Incoming>, rest: Octets)
    requires forall k :: 0 <= k < |frames| ==> Fits(frames[k]) && frames[k].key.None?
    ensures
      var (results, end) := ReceivedMany(Stream(frames) + rest, |frames|);
      && end == rest && |results| == |frames|
      && forall k :: 0 <= k < |frames| ==>
           results[k] == Ok(if frames[k].first % 16 in {1, 2} then Some(frames[k].body) else None)
  {
    if frames == [] {
      assert Stream(frames) + rest == rest;
    } else {
      var behind := Stream(frames[1..]) + rest;
      assert Stream(frames) + rest == OnWire(frames[0]) + behind;
      OneReceived(frames[0], behind, |frames| - 1);
      FramesComeInOrder(frames[1..], rest);
    }
  }

  /** A stream that ends inside a frame raises, wherever it was cut. */
  lemma CutFramesRaise(f: Incoming, k: nat)
    requires Fits(f) && f.key.None? && k < |OnWire(f)|
    ensures Received(OnWire(f)[..k]) == (Err(ConnectionError), [])
  {
    var h := |Header(f)|;
    if k >= h {
      assert OnWire(f)[..k] == Header(f) + f.body[..k - h];
      HeaderIsRead(f, f.body[..k - h]);
    } else {
      CutHeadersRaise(f, k);
    }
  }

  lemma CutHeadersRaise(f: Incoming, k: nat)
    requires Fits(f) && k < |Header(f)|
    ensures Received(OnWire(f)[..k]) == (Err(ConnectionError), [])
  {
    var bs := OnWire(f)[..k];
    if k >= 2 {
      assert bs[1] == Header(f)[1];
    }
  }

  function Bodies(frames: seq<Incoming>): Octets {
    if frames == [] then [] else frames[0].body + Bodies(frames[1..])
  }

  /** Section 5.4: a message may come as a data frame and continuation frames.  `recv` returns the
      first part only, which is the message exactly when the other parts are empty. */
  lemma FragmentsAreLost(parts: seq<Incoming>, rest: Octets)
    requires |parts| > 0 && forall k :: 0 <= k < |parts| ==> Fits(parts[k]) && parts[k].key.None?
    requires parts[0].first % 16 == 1 || parts[0].first % 16 == 2
    requires forall k :: 0 < k < |parts| ==> parts[k].first % 16 == 0
    ensures
      var (results, end) := ReceivedMany(Stream(parts) + rest, |parts|);
      && end == rest && |results| == |parts|
      && (results[0] == Ok(Some(Bodies(parts))) <==> Bodies(parts[1..]) == [])
      && forall k :: 0 < k < |parts| ==> results[k] == Ok(None)
  {
    FramesComeInOrder(parts, rest);
    assert |Bodies(parts)| == |parts[0].body| + |Bodies(parts[1..])|;
    if Bodies(parts[1..]) == [] {
      assert Bodies(parts) == parts[0].body;
    }
  }

  // ---------------------------------------------------------------- the code

  function Joined(pieces: seq<Octets>): Octets {
    if pieces == [] then [] else pieces[0] + Joined(pieces[1..])
  }

  /** A connection: what the peer sent arrives in pieces cut anywhere, and then it ends. */
  class Socket {
    var pieces: seq<Octets>
    var outgoing: Octets

    ghost predicate Valid()
      reads this
    {
      forall k :: 0 <= k < |pieces| ==> pieces[k] != []
    }

    ghost function Unread(): Octets
      reads this
    {
      Joined(pieces)
    }

    constructor (pieces: seq<Octets>)
      requires forall k :: 0 <= k < |pieces| ==> pieces[k] != []
      ensures Valid() && this.pieces == pieces && outgoing == []
    {
      this.pieces := pieces;
      outgoing := [];
    }

    /** At most `n` octets of what has arrived; none only at the end. */
    method Recv(n: nat) returns (c: Octets)
      requires Valid() && n > 0
      modifies `pieces
      ensures Valid() && |c| <= n && |c| <= |old(Unread())|
      ensures c == old(Unread())[..|c|] && Unread() == old(Unread())[|c|..]
      ensures c == [] <==> old(Unread()) == []
    {
      if pieces == [] {
        return [];
      }
      if |pieces[0]| <= n {
        c := pieces[0];
        pieces := pieces[1..];
      } else {
        c := pieces[0][..n];
        ghost var others := Joined(pieces[1..]);
        assert pieces[0] + others == c + (pieces[0][n..] + others);
        pieces := [pieces[0][n..]] + pieces[1..];
      }
    }

    method SendAll(bs: Octets)
      modifies `outgoing
      ensures outgoing == old(outgoing) + bs
    {
      outgoing := outgoing + bs;
    }
  }

  lemma SliceOfRest(all: Octets, k: nat, n: nat)
    requires k + n <= |all|
    ensures all[k..][..n] == all[k..k + n] && all[k..][n..] == all[k + n..]
    ensures all[..k] + all[k..k + n] == all[..k + n]
  {
  }

  class WS {
    const s: Socket

    constructor (s: Socket)
      ensures this.s == s
    {
      this.s := s;
    }

    /** `mask` is `os.urandom(4)`; `struct.pack(">Q", n)` refuses 2^64 and more. */
    method Send(data: Octets, mask: Octets) returns (r: Result<(), Failure>)
      requires |mask| == 4
      modifies s`outgoing
      ensures |data| < TWO64 ==> r == Ok(()) && s.outgoing == old(s.outgoing) + Sent(data, mask)
      ensures |data| >= TWO64 ==> r == Err(TooLong) && s.outgoing == old(s.outgoing)
    {
      var hdr: Octets := [0x81];
      var n := |data|;
      if n < 126 {
        hdr := hdr + [128 + n];
      } else if n < 65536 {
        hdr := hdr + [128 + 126];
        hdr := hdr + BigEndian(n, 2);
      } else {
        hdr := hdr + [128 + 127];
        if n >= TWO64 {
          return Err(TooLong);
        }
        hdr := hdr + BigEndian(n, 8);
      }
      hdr := hdr + mask;
      assert hdr + Masked(data, mask) == Sent(data, mask);
      s.SendAll(hdr + Masked(data, mask));
      r := Ok(());
    }

    /** `_read`: exactly `n` octets, over as many socket reads as it takes. */
    method Read(n: nat) returns (r: Result<Octets, Failure>)
      requires s.Valid()
      modifies s`pieces
      ensures s.Valid()
      ensures if |old(s.Unread())| < n then r == Err(ConnectionError) && s.Unread() == []
              else r == Ok(old(s.Unread())[..n]) && s.Unread() == old(s.Unread())[n..]
    {
      var d: Octets := [];
      ghost var all := s.Unread();
      while |d| < n
        invariant s.Valid() && |d| <= n && |d| <= |all| && d == all[..|d|] && s.Unread() == all[|d|..]
        decreases n - |d|
      {
        var c := s.Recv(n - |d|);
        if c == [] {
          return Err(ConnectionError);
        }
        SliceOfRest(all, |d|, |c|);
        d := d + c;
      }
      r := Ok(d);
    }

    method Recv() returns (r: Result<Option<Octets>, Failure>)
      requires s.Valid()
      modifies s`pieces
      ensures s.Valid() && (r, s.Unread()) == Received(old(s.Unread()))
    {
      ghost var bs := s.Unread();
      var one := Read(1);
      if one.Err? {
        return Err(ConnectionError);
      }
      var b0 := one.value[0];
      one := Read(1);
      if one.Err? {
        return Err(ConnectionError);
      }
      var b1 := one.value[0];
      assert s.Unread() == bs[2..] && b0 == bs[0] && b1 == bs[1];
      var ln: nat := b1 % 128;
      ghost var w := if ln == 126 then 2 else if ln == 127 then 8 else 0;
      if ln == 126 {
        var ext := Read(2);
        if ext.Err? {
          return Err(ConnectionError);
        }
        ln := Number(ext.value);
        assert ext.value == bs[2..4] && s.Unread() == bs[4..];
      } else if ln == 127 {
        var ext := Read(8);
        if ext.Err? {
          return Err(ConnectionError);
        }
        ln := Number(ext.value);
        assert ext.value == bs[2..10] && s.Unread() == bs[10..];
      }
      assert s.Unread() == bs[2 + w..];
      var payload := Read(ln);
      if payload.Err? {
        return Err(ConnectionError);
      }
      SliceOfRest(bs, 2 + w, ln);
      if b0 % 16 != 1 && b0 % 16 != 2 {
        return Ok(None);
      }
      r := Ok(Some(payload.value));
    }
  }
}
