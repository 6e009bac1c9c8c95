/** Text frames as the realtime hub writes them, against a reader for section 5.2 of RFC 6455. */
module WebSocket {
  import opened Jobs

  newtype byte = b: int | 0 <= b < 256

  /** The largest payload length a frame can declare: the top bit of the 64-bit form must be clear. */
  const LENGTH_LIMIT: nat := 0x8000_0000_0000_0000

  // ----- network byte order -----

  function BigEndian(n: nat, width: nat): (s: seq<byte>)
    ensures |s| == width
  {
    if width == 0 then [] else BigEndian(n / 256, width - 1) + [(n % 256) as byte]
  }

  function Value(s: seq<byte>): nat {
    if s == [] then 0 else Value(s[..|s| - 1]) * 256 + s[|s| - 1] as nat
  }

  function Capacity(width: nat): nat {
    if width == 0 then 1 else 256 * Capacity(width - 1)
  }

  lemma {:induction false} ValueReadsBigEndian(n: nat, width: nat)
    requires n < Capacity(width)
    ensures Value(BigEndian(n, width)) == n
  {
    if width > 0 {
      var s := BigEndian(n, width);
      assert s[..|s| - 1] == BigEndian(n / 256, width - 1);
      ValueReadsBigEndian(n / 256, width - 1);
    }
  }

  lemma {:induction false} BigEndianWritesValue(s: seq<byte>)
    ensures Value(s) < Capacity(|s|) && BigEndian(Value(s), |s|) == s
  {
    if s != [] {
      var front, last := s[..|s| - 1], s[|s| - 1];
      BigEndianWritesValue(front);
      assert Value(s) == Value(front) * 256 + last as nat;
      assert Value(s) / 256 == Value(front) && Value(s) % 256 == last as nat;
      assert s == front + [last];
    }
  }

  lemma Capacities()
    ensures Capacity(2) == 0x1_0000 && Capacity(8) == 2 * LENGTH_LIMIT
  {
  }

  // ----- writing -----

  function Header(length: nat): seq<byte> {
    if length <= 125 then [0x81, length as byte]
    else if length <= 65535 then [0x81, 126] + BigEndian(length, 2)
    else [0x81, 127] + BigEndian(length, 8)
  }

  function Frame(payload: seq<byte>): seq<byte> { Header(|payload|) + payload }

  lemma ValueOfTwo(s: seq<byte>)
    requires |s| == 2
    ensures Value(s) == s[0] as nat * 256 + s[1] as nat
  {
    assert Value(s) == Value(s[..1]) * 256 + s[1] as nat;
    assert Value(s[..1]) == Value(s[..1][..0]) * 256 + s[..1][0] as nat;
  }

  lemma ValueOfEight(s: seq<byte>)
    requires |s| == 8
    ensures Value(s) == (((((((s[0] as nat * 256 + s[1] as nat) * 256 + s[2] as nat) * 256 + s[3] as nat) * 256
                            + s[4] as nat) * 256 + s[5] as nat) * 256 + s[6] as nat) * 256) + s[7] as nat
  {
    assert s[..7][..6] == s[..6] && s[..6][..5] == s[..5] && s[..5][..4] == s[..4] && s[..4][..3] == s[..3];
    assert s[..3][..2] == s[..2];
    ValueOfTwo(s[..2]);
    assert Value(s[..3]) == Value(s[..2]) * 256 + s[2] as nat && Value(s[..4]) == Value(s[..3]) * 256 + s[3] as nat;
    assert Value(s[..5]) == Value(s[..4]) * 256 + s[4] as nat && Value(s[..6]) == Value(s[..5]) * 256 + s[5] as nat;
    assert Value(s[..7]) == Value(s[..6]) * 256 + s[6] as nat && Value(s) == Value(s[..7]) * 256 + s[7] as nat;
  }

  /** The bytes of a text frame: final text opcode, unmasked length in its shortest form, payload. */
  lemma FrameBytes(payload: seq<byte>)
    requires |payload| < LENGTH_LIMIT
    ensures
      var f, n := Frame(payload), |payload|;
      && |f| >= 2 && f[0] == 0x81
      && (n <= 125 ==> f[1] as nat == n && f[2..] == payload)
      && (126 <= n <= 65535 ==>
            f[1] == 126 && |f| >= 4 && f[2] as nat * 256 + f[3] as nat == n && f[4..] == payload)
      && (n > 65535 ==>
            && f[1] == 127 && |f| >= 10 && f[10..] == payload
            && (((((((f[2] as nat * 256 + f[3] as nat) * 256 + f[4] as nat) * 256 + f[5] as nat) * 256
                   + f[6] as nat) * 256 + f[7] as nat) * 256 + f[8] as nat) * 256) + f[9] as nat == n)
  {
    var n := |payload|;
    Capacities();
    if 126 <= n <= 65535 {
      ValueReadsBigEndian(n, 2);
      ValueOfTwo(BigEndian(n, 2));
    } else if n > 65535 {
      ValueReadsBigEndian(n, 8);
      ValueOfEight(BigEndian(n, 8));
    }
  }

  class Connection {
    var sent: seq<byte>

    constructor ()
      ensures sent == []
    {
      sent := [];
    }

    method Write(bytes: seq<byte>)
      modifies this
      ensures sent == old(sent) + bytes
    {
      sent := sent + bytes;
    }
  }

  /** Stores a number in network byte order, as encoding/binary does. */
  method PutBigEndian(header: array<byte>, value: nat)
    requires header.Length >= 2
    modifies header
    ensures header[..] == old(header[..2]) + BigEndian(value, header.Length - 2)
  {
    var i, v := header.Length, value;
    while i > 2
      invariant 2 <= i <= header.Length
      invariant header[..2] == old(header[..2])
      invariant BigEndian(value, header.Length - 2) == BigEndian(v, i - 2) + header[i..]
    {
      i := i - 1;
      header[i] := (v % 256) as byte;
      ghost var after := header[i + 1..];
      assert header[i..] == [(v % 256) as byte] + after;
      v := v / 256;
      assert BigEndian(value, header.Length - 2) == BigEndian(v, i - 2) + header[i..];
    }
    assert header[..] == header[..2] + header[2..];
  }

  method WriteTextFrame(rw: Connection, payload: seq<byte>)
    modifies rw
    ensures rw.sent == old(rw.sent) + Frame(payload)
  {
    var length := |payload|;
    var header: array<byte>;
    if length <= 125 {
      header := new byte[2];
      header[0], header[1] := 0x81, length as byte;
    } else if length <= 65535 {
      header := new byte[4];
      header[0], header[1] := 0x81, 126;
      PutBigEndian(header, length);
    } else {
      header := new byte[10];
      header[0], header[1] := 0x81, 127;
      PutBigEndian(header, length);
    }
    assert header[..] == Header(length);
    rw.Write(header[..]);
    rw.Write(payload);
  }

  /** The hub's broadcasts to one client, one frame each. */
  method WriteAll(rw: Connection, payloads: seq<seq<byte>>)
    requires rw.sent == []
    requires forall i :: 0 <= i < |payloads| ==> |payloads[i]| < LENGTH_LIMIT
    modifies rw
    ensures DecodeAll(rw.sent) == Some(payloads)
  {
    for i := 0 to |payloads|
      invariant rw.sent == Frames(payloads[..i])
    {
      WriteTextFrame(rw, payloads[i]);
      assert payloads[..i + 1] == payloads[..i] + [payloads[i]];
      FramesAppend(payloads[..i], payloads[i]);
    }
    assert payloads[..|payloads|] == payloads;
    FramesRoundTrip(payloads);
  }

  // ----- reading -----

  /** The payload length a header declares and the header's size, if the form is legal and shortest. */
  function DecodeLength(s: seq<byte>): (r: Option<(nat, nat)>)
    requires |s| >= 2
    ensures r.Some? ==> 2 <= r.value.1 <= |s|
  {
    var short := s[1] as nat % 128;
    if short <= 125 then Some((short, 2))
    else if short == 126 then
      if |s| < 4 || Value(s[2..4]) <= 125 then None else Some((Value(s[2..4]), 4))
    else
      if |s| < 10 || Value(s[2..10]) <= 65535 || Value(s[2..10]) >= LENGTH_LIMIT then None
      else Some((Value(s[2..10]), 10))
  }

  /**
   One unfragmented, unmasked text frame: FIN set, no reserved bits, opcode 1, MASK clear, and a length in
   its shortest legal form.  Returns the payload and what follows the frame.
   */
  function Decode(s: seq<byte>): (r: Option<(seq<byte>, seq<byte>)>)
    ensures r.Some? ==> |r.value.1| < |s|
  {
    if |s| < 2 then None
    else
      var fin, reserved, opcode, masked := s[0] as nat / 128, s[0] as nat / 16 % 8, s[0] as nat % 16, s[1] as nat / 128;
      if fin != 1 || reserved != 0 || opcode != 1 || masked != 0 then None
      else
        var length := DecodeLength(s);
        if length.None? || |s| < length.value.1 + length.value.0 then None
        else
          var (n, size) := length.value;
          Some((s[size..size + n], s[size + n..]))
  }

  function DecodeAll(s: seq<byte>): Option<seq<seq<byte>>> {
    if s == [] then Some([])
    else
      var first := Decode(s);
      if first.None? then None
      else
        var others := DecodeAll(first.value.1);
        if others.None? then None else Some([first.value.0] + others.value)
  }

  function Frames(payloads: seq<seq<byte>>): seq<byte> {
    if payloads == [] then [] else Frame(payloads[0]) + Frames(payloads[1..])
  }

  lemma {:induction false} FramesAppend(payloads: seq<seq<byte>>, last: seq<byte>)
    ensures Frames(payloads + [last]) == Frames(payloads) + Frame(last)
  {
    if payloads == [] {
      assert payloads + [last] == [last] && [last][1..] == [];
    } else {
      assert (payloads + [last])[1..] == payloads[1..] + [last];
      FramesAppend(payloads[1..], last);
    }
  }

  // ----- round trip -----

  lemma HeaderRoundTrip(length: nat, rest: seq<byte>)
    requires length < LENGTH_LIMIT
    ensures DecodeLength(Header(length) + rest) == Some((length, |Header(length)|))
  {
    Capacities();
    var s := Header(length) + rest;
    if 125 < length <= 65535 {
      ValueReadsBigEndian(length, 2);
      assert s[2..4] == BigEndian(length, 2);
    } else if length > 65535 {
      ValueReadsBigEndian(length, 8);
      assert s[2..10] == BigEndian(length, 8);
    }
  }

  /** A frame decodes to its payload and exactly what followed it. */
  lemma FrameRoundTrip(payload: seq<byte>, rest: seq<byte>)
    requires |payload| < LENGTH_LIMIT
    ensures Decode(Frame(payload) + rest) == Some((payload, rest))
  {
    var header := Header(|payload|);
    var s := Frame(payload) + rest;
    assert s == header + (payload + rest);
    HeaderRoundTrip(|payload|, payload + rest);
    assert s[|header|..|header| + |payload|] == payload;
    assert s[|header| + |payload|..] == rest;
  }

  lemma HeaderIsShortest(s: seq<byte>)
    requires |s| >= 2 && s[0] == 0x81 && s[1] < 128 && DecodeLength(s).Some?
    ensures
      var (n, size) := DecodeLength(s).value;
      n < LENGTH_LIMIT && s[..size] == Header(n)
  {
    var (n, size) := DecodeLength(s).value;
    if size == 4 {
      BigEndianWritesValue(s[2..4]);
      assert s[..4] == [s[0], s[1]] + s[2..4];
    } else if size == 10 {
      BigEndianWritesValue(s[2..10]);
      assert s[..10] == [s[0], s[1]] + s[2..10];
    }
  }

  /** Input the reader accepts is a frame this writer would have written: the encoding of a payload is unique. */
  lemma DecodedIsFrame(s: seq<byte>)
    requires Decode(s).Some?
    ensures s == Frame(Decode(s).value.0) + Decode(s).value.1 && |Decode(s).value.0| < LENGTH_LIMIT
  {
    var (payload, rest) := Decode(s).value;
    FirstBytes(s);
    HeaderIsShortest(s);
    var (n, size) := DecodeLength(s).value;
    assert s == s[..size] + payload + rest;
  }

  /** The two fixed bytes: FIN and the text opcode, and no mask. */
  lemma FirstBytes(s: seq<byte>)
    requires Decode(s).Some?
    ensures |s| >= 2 && s[0] == 0x81 && s[1] < 128
  {
    var b := s[0] as nat;
    assert b == 128 * (b / 128) + 16 * (b / 16 % 8) + b % 16;
  }

  /** Any sequence of broadcasts is read back frame by frame, and nothing else. */
  lemma {:induction false} FramesRoundTrip(payloads: seq<seq<byte>>)
    requires forall i :: 0 <= i < |payloads| ==> |payloads[i]| < LENGTH_LIMIT
    ensures DecodeAll(Frames(payloads)) == Some(payloads)
  {
    if payloads != [] {
      FramesRoundTrip(payloads[1..]);
      FrameRoundTrip(payloads[0], Frames(payloads[1..]));
      assert payloads == [payloads[0]] + payloads[1..];
    }
  }
}
