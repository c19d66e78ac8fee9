/**
 The wire format: length-prefixed control frames and framed datagrams over a byte stream.
 Strings are byte sequences; the JSON inside a control frame is not looked at.
 */
module Wire {

  newtype byte = x: int | 0 <= x < 256

  type Bytes = seq<byte>

  const MAX_FRAME := 0x10_0000
  const MAX_ADDR := 0xFFFF

  // --- big-endian integers ---

  function Octet(n: nat): byte {
    (n % 256) as byte
  }

  // The conversion to 32 or 16 bits wraps around.
  function PutU32(n: nat): (r: Bytes)
    ensures |r| == 4
  {
    [Octet(n / 0x100_0000), Octet(n / 0x1_0000), Octet(n / 0x100), Octet(n)]
  }

  function PutU16(n: nat): (r: Bytes)
    ensures |r| == 2
  {
    [Octet(n / 0x100), Octet(n)]
  }

  function U32(s: Bytes): nat
    requires |s| >= 4
  {
    s[0] as nat * 0x100_0000 + s[1] as nat * 0x1_0000 + s[2] as nat * 0x100 + s[3] as nat
  }

  function U16(s: Bytes): nat
    requires |s| >= 2
  {
    s[0] as nat * 0x100 + s[1] as nat
  }

  lemma By8(n: nat, q: nat, r: nat)
    requires n == 0x100 * q + r && r < 0x100
    ensures n / 0x100 == q && n % 0x100 == r
  {
  }

  lemma By16(n: nat, q: nat, r: nat)
    requires n == 0x1_0000 * q + r && r < 0x1_0000
    ensures n / 0x1_0000 == q && n % 0x1_0000 == r
  {
  }

  lemma By24(n: nat, q: nat, r: nat)
    requires n == 0x100_0000 * q + r && r < 0x100_0000
    ensures n / 0x100_0000 == q
  {
  }

  lemma By32(n: nat, q: nat, r: nat)
    requires n == 0x1_0000_0000 * q + r && r < 0x1_0000_0000
    ensures n % 0x1_0000_0000 == r
  {
  }

  // The octets of a number, least significant first, and what is left.
  lemma Octets(n: nat) returns (q: nat, r0: nat, r1: nat, r2: nat, r3: nat)
    ensures r0 < 0x100 && r1 < 0x100 && r2 < 0x100 && r3 < 0x100
    ensures n == 0x1_0000_0000 * q + (0x100_0000 * r3 + 0x1_0000 * r2 + 0x100 * r1 + r0)
  {
    var a := n / 0x100;
    var b := a / 0x100;
    var c := b / 0x100;
    q, r0, r1, r2, r3 := c / 0x100, n % 0x100, a % 0x100, b % 0x100, c % 0x100;
  }

  lemma PutU32Octets(n: nat, q: nat, r0: nat, r1: nat, r2: nat, r3: nat)
    requires r0 < 0x100 && r1 < 0x100 && r2 < 0x100 && r3 < 0x100
    requires n == 0x1_0000_0000 * q + (0x100_0000 * r3 + 0x1_0000 * r2 + 0x100 * r1 + r0)
    ensures PutU32(n) == [r3 as byte, r2 as byte, r1 as byte, r0 as byte]
  {
    var c := 0x100 * q + r3;
    var b := 0x100 * c + r2;
    var a := 0x100 * b + r1;
    By8(n, a, r0);
    By16(n, b, 0x100 * r1 + r0);
    By24(n, c, 0x1_0000 * r2 + 0x100 * r1 + r0);
    By8(a, b, r1);
    By8(b, c, r2);
    By8(c, q, r3);
  }

  lemma U32Wraps(n: nat)
    ensures U32(PutU32(n)) == n % 0x1_0000_0000
  {
    var q, r0, r1, r2, r3 := Octets(n);
    PutU32Octets(n, q, r0, r1, r2, r3);
    hide PutU32;
    By32(n, q, 0x100_0000 * r3 + 0x1_0000 * r2 + 0x100 * r1 + r0);
  }

  lemma U16Wraps(n: nat)
    ensures U16(PutU16(n)) == n % 0x1_0000
  {
    var a := n / 0x100;
    var (q, r1, r0) := (a / 0x100, a % 0x100, n % 0x100);
    By16(n, q, 0x100 * r1 + r0);
  }

  lemma U32IsInverse(s: Bytes)
    requires |s| == 4
    ensures PutU32(U32(s)) == s
  {
    PutU32Octets(U32(s), 0, s[3] as nat, s[2] as nat, s[1] as nat, s[0] as nat);
    hide PutU32;
  }

  lemma U16IsInverse(s: Bytes)
    requires |s| == 2
    ensures PutU16(U16(s)) == s
  {
  }

  // --- one datagram ---

  datatype Datagram = Datagram(addr: Bytes, data: Bytes)

  // `Eof`: a read found nothing at all; `Short`: it found less than it needed.
  datatype Error = Eof | Short | BadLength | BadAddrLength

  datatype Result<T> = Ok(value: T, rest: Bytes) | Err(error: Error)

  // The writer's guard.
  predicate Fits(d: Datagram) {
    |d.addr| <= 65535 && 2 + |d.addr| + |d.data| <= 1048576
  }

  // The frame, whether or not its lengths fit the fields.
  function Frame(d: Datagram): Bytes {
    PutU32(2 + |d.addr| + |d.data|) + (PutU16(|d.addr|) + (d.addr + d.data))
  }

  lemma FourParts(a: Bytes, b: Bytes, c: Bytes, d: Bytes)
    requires |a| == 4 && |b| == 2
    ensures var f := a + (b + (c + d));
      && |f| == 6 + |c| + |d| && f[6..6 + |c|] == c && f[6 + |c|..] == d
      && f[0] == a[0] && f[1] == a[1] && f[2] == a[2] && f[3] == a[3] && f[4] == b[0] && f[5] == b[1]
  {
  }

  // The bytes on the wire: the length of what follows in four, the length of the address in two,
  // both most significant byte first, then the address, then the data.
  lemma FrameLayout(d: Datagram)
    requires Fits(d)
    ensures var f := Frame(d);
      && |f| == 6 + |d.addr| + |d.data|
      && f[0] as int * 16777216 + f[1] as int * 65536 + f[2] as int * 256 + f[3] as int == 2 + |d.addr| + |d.data|
      && f[4] as int * 256 + f[5] as int == |d.addr|
      && f[6..6 + |d.addr|] == d.addr && f[6 + |d.addr|..] == d.data
  {
    var (n, a) := (2 + |d.addr| + |d.data|, |d.addr|);
    assert PutU32Is(n) by { PutU32Says(n); }
    assert PutU16Is(a) by { PutU16Says(a); }
    FourParts(PutU32(n), PutU16(a), d.addr, d.data);
    hide PutU32, PutU16;
  }

  predicate PutU32Is(n: nat) {
    var s := PutU32(n);
    s[0] as int * 16777216 + s[1] as int * 65536 + s[2] as int * 256 + s[3] as int == n
  }

  predicate PutU16Is(n: nat) {
    PutU16(n)[0] as int * 256 + PutU16(n)[1] as int == n
  }

  lemma PutU32Says(n: nat)
    requires n < 0x1_0000_0000
    ensures PutU32Is(n)
  {
    U32Wraps(n);
    hide PutU32;
  }

  lemma PutU16Says(n: nat)
    requires n < 0x1_0000
    ensures PutU16Is(n)
  {
    U16Wraps(n);
    hide PutU16;
  }

  // A full read of `n` bytes.
  function Take(s: Bytes, n: nat): Result<Bytes> {
    if |s| >= n then Ok(s[..n], s[n..]) else Err(if s == [] then Eof else Short)
  }

  function Decode(s: Bytes): Result<Datagram> {
    match Take(s, 4)
    case Err(e) => Err(e)
    case Ok(hdr, body) =>
      var total := U32(hdr);
      if total < 2 || total > MAX_FRAME then Err(BadLength)
      else
        match Take(body, total)
        case Err(e) => Err(e)
        case Ok(buf, rest) =>
          var alen := U16(buf);
          if 2 + alen > |buf| then Err(BadAddrLength)
          else Ok(Datagram(buf[2..2 + alen], buf[2 + alen..]), rest)
  }

  // A frame is read back exactly when the writer would have written it, and then whatever
  // follows is left for the next read.
  lemma DecodeFrame(d: Datagram, rest: Bytes)
    ensures Decode(Frame(d) + rest) == Ok(d, rest) <==> Fits(d)
  {
    if Fits(d) {
      DecodeFitting(d, rest);
    } else if Decode(Frame(d) + rest) == Ok(d, rest) {
      OnlyFramesDecode(Frame(d) + rest);
      assert false;
    }
  }

  lemma Front(a: Bytes, b: Bytes)
    ensures (a + b)[..|a|] == a && (a + b)[|a|..] == b
  {
  }

  // The guard keeps both length fields from wrapping around.
  lemma FieldsHoldTheLengths(d: Datagram)
    requires Fits(d)
    ensures U32(Frame(d)) == 2 + |d.addr| + |d.data| && U16(Frame(d)[4..]) == |d.addr|
  {
    hide PutU32, PutU16, U32, U16;
    U32Wraps(2 + |d.addr| + |d.data|);
    U16Wraps(|d.addr|);
    var n, a := PutU32(2 + |d.addr| + |d.data|), PutU16(|d.addr|);
    Front(n, a + (d.addr + d.data));
    Front(a, d.addr + d.data);
    SamePrefix(Frame(d), n);
    SameShortPrefix(Frame(d)[4..], a);
  }

  lemma DecodeFitting(d: Datagram, rest: Bytes)
    requires Fits(d)
    ensures Decode(Frame(d) + rest) == Ok(d, rest)
  {
    var s, n := Frame(d) + rest, 2 + |d.addr| + |d.data|;
    FieldsHoldTheLengths(d);
    var body := s[4..];
    var buf := body[..n];
    hide PutU32, PutU16, U32, U16;
    assert s[..4] == Frame(d)[..4];
    SamePrefix(s[..4], Frame(d));
    assert buf == Frame(d)[4..];
    assert body[n..] == rest;
    assert buf[2..2 + |d.addr|] == d.addr;
    assert buf[2 + |d.addr|..] == d.data;
  }

  lemma SamePrefix(s: Bytes, t: Bytes)
    requires |s| >= 4 && |t| >= 4 && s[..4] == t[..4]
    ensures U32(s) == U32(t)
  {
    assert forall i :: 0 <= i < 4 ==> s[i] == s[..4][i] == t[..4][i] == t[i];
  }

  lemma SameShortPrefix(s: Bytes, t: Bytes)
    requires |s| >= 2 && |t| >= 2 && s[..2] == t[..2]
    ensures U16(s) == U16(t)
  {
    assert forall i :: 0 <= i < 2 ==> s[i] == s[..2][i] == t[..2][i] == t[i];
  }

  // Whatever is accepted is the frame the writer makes of it, byte for byte.
  lemma OnlyFramesDecode(s: Bytes)
    ensures var r := Decode(s); r.Ok? ==> Fits(r.value) && s == Frame(r.value) + r.rest
  {
    hide PutU32, PutU16, U32, U16;
    var r := Decode(s);
    if r.Ok? {
      var hdr, body := s[..4], s[4..];
      var buf := body[..U32(hdr)];
      SameShortPrefix(buf, buf[..2]);
      U16Small(buf);
      U32IsInverse(hdr);
      U16IsInverse(buf[..2]);
      assert buf == buf[..2] + (r.value.addr + r.value.data);
      assert s == hdr + (buf + r.rest);
      Associates(hdr, buf, r.rest);
    }
  }

  lemma U16Small(s: Bytes)
    requires |s| >= 2
    ensures U16(s) <= MAX_ADDR
  {
  }

  lemma Associates<T>(a: seq<T>, b: seq<T>, c: seq<T>)
    ensures a + b + c == a + (b + c)
  {
  }

  // --- a stream of datagrams ---

  function EncodeAll(ds: seq<Datagram>): Bytes {
    if ds == [] then [] else Frame(ds[0]) + EncodeAll(ds[1..])
  }

  // What a reader sees until its first error.
  function DecodeAll(s: Bytes): (seq<Datagram>, Error)
    decreases |s|
  {
    match Decode(s)
    case Err(e) => ([], e)
    case Ok(d, rest) =>
      OnlyFramesDecode(s);
      var (ds, e) := DecodeAll(rest);
      ([d] + ds, e)
  }

  ghost predicate AllFit(ds: seq<Datagram>) {
    forall d :: d in ds ==> Fits(d)
  }

  lemma DecodeOneMore(d: Datagram, rest: Bytes)
    requires Fits(d)
    ensures DecodeAll(Frame(d) + rest) == ([d] + DecodeAll(rest).0, DecodeAll(rest).1)
  {
    DecodeFrame(d, rest);
    hide Frame, Decode;
  }

  lemma DecodeAnother(d: Datagram, ds: seq<Datagram>, written: Bytes, rest: Bytes)
    requires Fits(d) && DecodeAll(written + rest) == (ds + DecodeAll(rest).0, DecodeAll(rest).1)
    ensures DecodeAll(Frame(d) + written + rest) == ([d] + ds + DecodeAll(rest).0, DecodeAll(rest).1)
  {
    hide *;
    DecodeOneMore(d, written + rest);
    Associates(Frame(d), written, rest);
    Associates([d], ds, DecodeAll(rest).0);
  }

  // Reading what was written gives back the same datagrams, and then the error that the bytes
  // after them give on their own.
  lemma {:induction false} DecodeWritten(ds: seq<Datagram>, rest: Bytes)
    requires AllFit(ds)
    ensures DecodeAll(EncodeAll(ds) + rest) == (ds + DecodeAll(rest).0, DecodeAll(rest).1)
  {
    hide DecodeAll, Frame, Fits;
    if ds == [] {
      assert EncodeAll(ds) + rest == rest;
      assert ds + DecodeAll(rest).0 == DecodeAll(rest).0;
    } else {
      DecodeWritten(ds[1..], rest);
      DecodeAnother(ds[0], ds[1..], EncodeAll(ds[1..]), rest);
      assert [ds[0]] + ds[1..] == ds;
    }
  }

  lemma StreamRoundTrip(ds: seq<Datagram>)
    requires AllFit(ds)
    ensures DecodeAll(EncodeAll(ds)) == (ds, Eof)
  {
    DecodeWritten(ds, []);
    assert EncodeAll(ds) + [] == EncodeAll(ds);
    assert DecodeAll([]) == ([], Eof);
    assert ds + [] == ds;
  }

  // Any stream at all: what is read is exactly what a writer wrote at its front.
  lemma {:induction false} OnlyWrittenIsRead(s: Bytes)
    ensures AllFit(DecodeAll(s).0) && EncodeAll(DecodeAll(s).0) <= s
    ensures Decode(s[|EncodeAll(DecodeAll(s).0)|..]) == Err(DecodeAll(s).1)
    decreases |s|
  {
    var r := Decode(s);
    if r.Ok? {
      OnlyFramesDecode(s);
      OnlyWrittenIsRead(r.rest);
      hide Frame, Decode, Fits;
      var ds := DecodeAll(r.rest).0;
      assert ([r.value] + ds)[1..] == ds;
      Front(Frame(r.value), r.rest);
      PrefixBehind(Frame(r.value), EncodeAll(ds), r.rest);
    }
  }

  lemma PrefixBehind(a: Bytes, b: Bytes, c: Bytes)
    requires b <= c
    ensures a + b <= a + c && (a + c)[|a + b|..] == c[|b|..]
  {
  }

  // No two lists of datagrams look the same on the wire.
  lemma EncodeAllInjective(ds: seq<Datagram>, es: seq<Datagram>)
    requires AllFit(ds) && AllFit(es) && EncodeAll(ds) == EncodeAll(es)
    ensures ds == es
  {
    StreamRoundTrip(ds);
    StreamRoundTrip(es);
  }

  // A frame cut short: the reader sees an error, and the clean end of a stream when nothing or
  // exactly the length field is left.
  lemma CutFrame(d: Datagram, n: nat)
    requires Fits(d) && n < |Frame(d)|
    ensures Decode(Frame(d)[..n]) == Err(if n == 0 || n == 4 then Eof else Short)
  {
    FieldsHoldTheLengths(d);
    var s := Frame(d)[..n];
    hide PutU32, PutU16, U32, U16;
    if n >= 4 {
      assert s[..4] == Frame(d)[..4];
      SamePrefix(s[..4], Frame(d));
    }
  }

  lemma EncodeOneMore(d: Datagram, ds: seq<Datagram>)
    ensures EncodeAll([d] + ds) == Frame(d) + EncodeAll(ds)
  {
    hide Frame;
    assert ([d] + ds)[1..] == ds;
  }

  // Cutting behind the first frame is cutting the rest.
  lemma CutBehind(d: Datagram, rest: Bytes, n: nat)
    requires Fits(d) && |Frame(d)| <= n <= |Frame(d)| + |rest|
    ensures var (got, e) := DecodeAll(rest[..n - |Frame(d)|]);
      DecodeAll((Frame(d) + rest)[..n]) == ([d] + got, e)
  {
    hide DecodeAll, Frame, Fits;
    DecodeOneMore(d, rest[..n - |Frame(d)|]);
    assert (Frame(d) + rest)[..n] == Frame(d) + rest[..n - |Frame(d)|];
  }

  lemma CutInside(d: Datagram, rest: Bytes, n: nat)
    requires Fits(d) && n < |Frame(d)|
    ensures DecodeAll((Frame(d) + rest)[..n]) == ([], if n == 0 || n == 4 then Eof else Short)
  {
    CutFrame(d, n);
    hide Frame, Fits, Decode;
    assert (Frame(d) + rest)[..n] == Frame(d)[..n];
  }

  // A stream cut anywhere gives exactly the whole frames before the cut, and then an error.
  lemma {:induction false} CutStream(ds: seq<Datagram>, n: nat) returns (k: nat)
    requires AllFit(ds) && n < |EncodeAll(ds)|
    ensures k < |ds| && |EncodeAll(ds[..k])| <= n < |EncodeAll(ds[..k + 1])|
    ensures var left := n - |EncodeAll(ds[..k])|;
      DecodeAll(EncodeAll(ds)[..n]) == (ds[..k], if left == 0 || left == 4 then Eof else Short)
  {
    hide Frame, Fits, Decode, DecodeAll;
    var d, more := ds[0], ds[1..];
    if n < |Frame(d)| {
      k := 0;
      CutInside(d, EncodeAll(more), n);
      assert ds[..1] == [d] + [];
      EncodeOneMore(d, []);
    } else {
      var j := CutStream(more, n - |Frame(d)|);
      k := j + 1;
      CutBehind(d, EncodeAll(more), n);
      assert ds[..k] == [d] + more[..j] && ds[..k + 1] == [d] + more[..k];
      EncodeOneMore(d, more[..j]);
      EncodeOneMore(d, more[..k]);
    }
  }

  // --- control frames ---

  function MsgFrame(payload: Bytes): Bytes {
    PutU32(|payload|) + payload
  }

  function DecodeMsg(s: Bytes): Result<Bytes> {
    match Take(s, 4)
    case Err(e) => Err(e)
    case Ok(hdr, body) =>
      var n := U32(hdr);
      if n == 0 || n > MAX_FRAME then Err(BadLength) else Take(body, n)
  }

  // Four bytes of length, most significant first, then the payload.
  lemma MsgLayout(payload: Bytes)
    requires |payload| < 0x1_0000_0000
    ensures var f := MsgFrame(payload);
      && |f| == 4 + |payload| && f[4..] == payload
      && f[0] as int * 16777216 + f[1] as int * 65536 + f[2] as int * 256 + f[3] as int == |payload|
  {
    assert PutU32Is(|payload|) by { PutU32Says(|payload|); }
    assert MsgFrame(payload)[..4] == PutU32(|payload|);
    hide PutU32;
  }

  // The reader is stricter than the writer, which would also send an empty payload.
  lemma DecodeMsgFrame(payload: Bytes, rest: Bytes)
    ensures DecodeMsg(MsgFrame(payload) + rest) == Ok(payload, rest) <==> 0 < |payload| <= 1048576
  {
    hide PutU32, U32;
    var hdr := PutU32(|payload|);
    var s := MsgFrame(payload) + rest;
    Associates(hdr, payload, rest);
    Front(hdr, payload + rest);
    Front(payload, rest);
    if 0 < |payload| <= MAX_FRAME {
      U32Wraps(|payload|);
    }
  }

  lemma OnlyMsgFramesDecode(s: Bytes)
    ensures var r := DecodeMsg(s); r.Ok? ==> 0 < |r.value| <= MAX_FRAME && s == MsgFrame(r.value) + r.rest
  {
    hide PutU32, U32;
    var r := DecodeMsg(s);
    if r.Ok? {
      U32IsInverse(s[..4]);
      Associates(s[..4], r.value, r.rest);
    }
  }

  // --- the code: buffers filled in place, and a connection that delivers in pieces ---

  class Conn {
    var bytes: Bytes

    constructor (bytes: Bytes)
      ensures this.bytes == bytes
    {
      this.bytes := bytes;
    }

    method Write(buf: array<byte>)
      modifies this
      ensures bytes == old(bytes) + buf[..]
    {
      bytes := bytes + buf[..];
    }

    // Any non-empty piece of what has arrived; none only at the end.
    method Read(room: nat) returns (piece: Bytes)
      requires room > 0
      modifies this
      ensures old(bytes) == piece + bytes && |piece| <= room
      ensures piece == [] ==> old(bytes) == []
    {
      if bytes == [] {
        return [];
      }
      var n: nat :| 1 <= n <= room && n <= |bytes|;
      piece := bytes[..n];
      bytes := bytes[n..];
    }

    method ReadFull(buf: array<byte>) returns (r: Result<Bytes>)
      modifies this, buf
      ensures r == Take(old(bytes), buf.Length)
      ensures r.Ok? ==> buf[..] == r.value && bytes == r.rest
    {
      var got := 0;
      while got < buf.Length
        invariant 0 <= got <= buf.Length
        invariant old(bytes) == buf[..got] + bytes
      {
        var piece := Read(buf.Length - got);
        if piece == [] {
          return Err(if got == 0 then Eof else Short);
        }
        Associates(buf[..got], piece, bytes);
        CopyInto(buf, got, piece);
        got := got + |piece|;
      }
      assert buf[..got] == buf[..];
      Front(buf[..], bytes);
      r := Ok(buf[..], bytes);
    }
  }

  method CopyInto(buf: array<byte>, at: nat, piece: Bytes)
    requires at + |piece| <= buf.Length
    modifies buf
    ensures buf[..at + |piece|] == old(buf[..at]) + piece
  {
    for i := 0 to |piece|
      invariant forall j :: 0 <= j < buf.Length && !(at <= j < at + i) ==> buf[j] == old(buf[j])
      invariant forall j :: 0 <= j < i ==> buf[at + j] == piece[j]
    {
      buf[at + i] := piece[i];
    }
  }

  method WriteDatagram(w: Conn, addr: Bytes, data: Bytes) returns (ok: bool)
    modifies w
    ensures ok == Fits(Datagram(addr, data))
    ensures w.bytes == old(w.bytes) + if ok then Frame(Datagram(addr, data)) else []
  {
    if |addr| > MAX_ADDR || 2 + |addr| + |data| > MAX_FRAME {
      return false;
    }
    FrameParts(Datagram(addr, data));
    hide PutU32, PutU16, Take, Frame;
    var total := 2 + |addr| + |data|;
    var buf := new byte[4 + total];
    CopyInto(buf, 0, PutU32(total));
    assert buf[..4] == PutU32(total);
    CopyInto(buf, 4, PutU16(|addr|));
    CopyInto(buf, 6, addr);
    CopyInto(buf, 6 + |addr|, data);
    assert buf[..] == buf[..6 + |addr| + |data|];
    w.Write(buf);
    ok := true;
  }

  lemma FrameParts(d: Datagram)
    ensures PutU32(2 + |d.addr| + |d.data|) + PutU16(|d.addr|) + d.addr + d.data == Frame(d)
  {
    hide PutU32, PutU16;
    Associates(PutU32(2 + |d.addr| + |d.data|), PutU16(|d.addr|), d.addr + d.data);
    Associates(PutU32(2 + |d.addr| + |d.data|) + PutU16(|d.addr|), d.addr, d.data);
  }

  method ReadDatagram(r: Conn) returns (d: Result<Datagram>)
    modifies r
    ensures d == Decode(old(r.bytes))
    ensures d.Ok? ==> r.bytes == d.rest
  {
    hide U32, U16;
    var hdr := new byte[4];
    var got := r.ReadFull(hdr);
    if got.Err? {
      return Err(got.error);
    }
    var total := U32(hdr[..]);
    if total < 2 || total > MAX_FRAME {
      return Err(BadLength);
    }
    var buf := new byte[total];
    got := r.ReadFull(buf);
    if got.Err? {
      return Err(got.error);
    }
    var alen := U16(buf[..]);
    if 2 + alen > buf.Length {
      return Err(BadAddrLength);
    }
    d := Ok(Datagram(buf[2..2 + alen], buf[2 + alen..]), r.bytes);
  }

  method WriteMsg(w: Conn, payload: Bytes) returns (ok: bool)
    modifies w
    ensures ok == (|payload| <= 1048576)
    ensures w.bytes == old(w.bytes) + if ok then MsgFrame(payload) else []
  {
    if |payload| > MAX_FRAME {
      return false;
    }
    hide PutU32;
    var hdr := new byte[4];
    CopyInto(hdr, 0, PutU32(|payload|));
    assert hdr[..] == hdr[..4];
    w.Write(hdr);
    var body := new byte[|payload|];
    CopyInto(body, 0, payload);
    assert body[..] == body[..|payload|];
    Associates(old(w.bytes), PutU32(|payload|), payload);
    w.Write(body);
    ok := true;
  }

  method ReadMsg(r: Conn) returns (m: Result<Bytes>)
    modifies r
    ensures m == DecodeMsg(old(r.bytes))
    ensures m.Ok? ==> r.bytes == m.rest
  {
    hide U32;
    var hdr := new byte[4];
    m := r.ReadFull(hdr);
    if m.Err? {
      return;
    }
    var n := U32(hdr[..]);
    if n == 0 || n > MAX_FRAME {
      return Err(BadLength);
    }
    var buf := new byte[n];
    m := r.ReadFull(buf);
  }
}
