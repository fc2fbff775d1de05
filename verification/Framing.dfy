/** Messages on a byte stream: a little-endian length, then the encoded message. */
module Framing {
  import opened Basics
  import opened Session

  datatype Msg = Msg(tag: nat, data: seq<byte>, ok: bool)

  // The encoding of messages; decoding what was encoded gives it back.
  datatype Codec = Codec(encode: Msg -> seq<byte>, decode: seq<byte> -> Msg)
  {
    ghost predicate Faithful() {
      forall m {:trigger encode(m)} :: decode(encode(m)) == m
    }
  }

  // Of the two errors a read can end with, Eof says that it got no byte at all.
  datatype ReadError = Eof | UnexpectedEof

  datatype Read = Message(message: Msg, rest: seq<byte>) | Error(error: ReadError)

  // ------------------------------------------------------------------- lengths

  // The low k bytes of a number, lowest first.
  function LittleEndian(n: nat, k: nat): (h: seq<byte>)
    ensures |h| == k
  {
    if k == 0 then [] else [(n % 256) as byte] + LittleEndian(n / 256, k - 1)
  }

  function Value(h: seq<byte>): nat {
    if |h| == 0 then 0 else h[0] as nat + 256 * Value(h[1..])
  }

  function Header(n: nat): (h: seq<byte>)
    ensures |h| == 4
  {
    LittleEndian(n, 4)
  }

  lemma TwoDigits(n: nat)
    ensures n % 0x1_0000 == n % 256 + 256 * (n / 256 % 0x100)
  {
  }

  lemma ThreeDigits(n: nat)
    ensures n % 0x100_0000 == n % 256 + 256 * (n / 256 % 0x1_0000)
  {
  }

  lemma FourDigits(n: nat)
    ensures n % WORD == n % 256 + 256 * (n / 256 % 0x100_0000)
  {
  }

  lemma LittleEndianStep(n: nat, k: nat)
    requires k > 0
    ensures Value(LittleEndian(n, k)) == n % 256 + 256 * Value(LittleEndian(n / 256, k - 1))
  {
    assert LittleEndian(n, k)[1..] == LittleEndian(n / 256, k - 1);
  }

  /** A header keeps a length up to 2^32. */
  lemma HeaderRoundTrip(n: nat)
    ensures Value(Header(n)) == n % WORD
  {
    var a, b, c := n / 256, n / 256 / 256, n / 256 / 256 / 256;
    LittleEndianStep(n, 4);
    LittleEndianStep(a, 3);
    LittleEndianStep(b, 2);
    LittleEndianStep(c, 1);
    TwoDigits(b);
    ThreeDigits(a);
    FourDigits(n);
  }

  /** The lowest byte comes first. */
  lemma HeaderBytes(n: nat)
    ensures Header(n) == [(n % 256) as byte, (n / 256 % 256) as byte, (n / 256 / 256 % 256) as byte, (n / 256 / 256 / 256 % 256) as byte]
  {
    var a, b, c := n / 256, n / 256 / 256, n / 256 / 256 / 256;
    assert LittleEndian(c, 1) == [(c % 256) as byte];
    assert LittleEndian(b, 2) == [(b % 256) as byte] + LittleEndian(c, 1);
    assert LittleEndian(a, 3) == [(a % 256) as byte] + LittleEndian(b, 2);
  }

  // ------------------------------------------------------------ one message, many

  function Frame(c: Codec, m: Msg): seq<byte> {
    Header(|c.encode(m)|) + c.encode(m)
  }

  // The error for a read of n bytes from a stream that has only s.
  function Short(s: seq<byte>): ReadError {
    if |s| == 0 then Eof else UnexpectedEof
  }

  function ReadOne(c: Codec, s: seq<byte>): (r: Read)
    ensures r.Message? ==> |r.rest| + 4 <= |s|
  {
    if |s| < 4 then Error(Short(s))
    else
      var n := Value(s[..4]);
      if |s| - 4 < n then Error(Short(s[4..]))
      else Message(c.decode(s[4..4 + n]), s[4 + n..])
  }

  function WriteAll(c: Codec, ms: seq<Msg>): seq<byte> {
    if |ms| == 0 then [] else Frame(c, ms[0]) + WriteAll(c, ms[1..])
  }

  // Reading until the first error.
  function ReadAll(c: Codec, s: seq<byte>): (seq<Msg>, ReadError)
    decreases |s|
  {
    match ReadOne(c, s)
    case Error(e) => ([], e)
    case Message(m, rest) =>
      var (ms, e) := ReadAll(c, rest);
      ([m] + ms, e)
  }

  lemma ReadAllOnce(c: Codec, ms: seq<Msg>, s: seq<byte>)
    ensures match ReadOne(c, s)
            case Error(e) => ms + ReadAll(c, s).0 == ms && ReadAll(c, s).1 == e
            case Message(m, rest) =>
              && ms + ReadAll(c, s).0 == (ms + [m]) + ReadAll(c, rest).0
              && ReadAll(c, s).1 == ReadAll(c, rest).1
  {
  }

  // ------------------------------------------------------------------ round trip

  /** A message comes back, and the rest of the stream with it, exactly if its
      encoding is shorter than 2^32 bytes: the length written is its low 32 bits. */
  lemma FrameRoundTrip(c: Codec, m: Msg, rest: seq<byte>)
    requires c.Faithful()
    ensures |c.encode(m)| < WORD ==> ReadOne(c, Frame(c, m) + rest) == Message(m, rest)
    ensures |c.encode(m)| >= WORD ==>
              var r := ReadOne(c, Frame(c, m) + rest);
              r.Message? && |r.rest| > |rest|
  {
    var b := c.encode(m);
    HeaderRoundTrip(|b|);
    if |b| < WORD {
      ReadFramed(c, Header(|b|), b, rest);
    } else {
      ReadPart(c, Header(|b|), b, rest);
    }
  }

  lemma ReadFramed(c: Codec, h: seq<byte>, b: seq<byte>, rest: seq<byte>)
    requires |h| == 4 && Value(h) == |b|
    ensures ReadOne(c, h + b + rest) == Message(c.decode(b), rest)
  {
    var s := h + b + rest;
    assert s[..4] == h && s[4..4 + |b|] == b && s[4 + |b|..] == rest;
  }

  lemma ReadPart(c: Codec, h: seq<byte>, b: seq<byte>, rest: seq<byte>)
    requires |h| == 4 && Value(h) < |b|
    ensures var r := ReadOne(c, h + b + rest); r.Message? && |r.rest| > |rest|
  {
    assert (h + b + rest)[..4] == h;
  }

  ghost predicate Fits(c: Codec, ms: seq<Msg>) {
    forall i {:trigger ms[i]} :: 0 <= i < |ms| ==> |c.encode(ms[i])| < WORD
  }

  // How many whole messages the first k bytes hold.
  function Whole(c: Codec, ms: seq<Msg>, k: nat): (j: nat)
    ensures j <= |ms|
    decreases |ms|
  {
    if |ms| == 0 || k < |Frame(c, ms[0])| then 0
    else 1 + Whole(c, ms[1..], k - |Frame(c, ms[0])|)
  }

  /** Whole is what it says: the messages before it fit into the first k bytes,
      and one more does not. */
  lemma {:induction false} WholeFits(c: Codec, ms: seq<Msg>, k: nat)
    ensures var j := Whole(c, ms, k);
            |WriteAll(c, ms[..j])| <= k && (j < |ms| ==> k < |WriteAll(c, ms[..j + 1])|)
    decreases |ms|
  {
    if |ms| == 0 || k < |Frame(c, ms[0])| {
      if |ms| > 0 {
        assert ms[..1][1..] == [];
      }
    } else {
      WholeFits(c, ms[1..], k - |Frame(c, ms[0])|);
      var j := Whole(c, ms[1..], k - |Frame(c, ms[0])|);
      assert ms[..j + 1][1..] == ms[1..][..j];
      if j < |ms[1..]| {
        assert ms[..j + 2][1..] == ms[1..][..j + 1];
      }
    }
  }

  // The stream ends before a message, or between a length and its message.
  ghost predicate CleanCut(c: Codec, ms: seq<Msg>, k: nat) {
    var j := Whole(c, ms, k);
    k == |WriteAll(c, ms[..j])| || (j < |ms| && k == |WriteAll(c, ms[..j])| + 4)
  }

  /** Truncation: a stream cut after k bytes reads as the messages it holds whole,
      then an error; the error is Eof also when the cut is right after a length. */
  lemma {:induction false} TruncatedStream(c: Codec, ms: seq<Msg>, k: nat)
    requires c.Faithful() && Fits(c, ms) && k <= |WriteAll(c, ms)|
    ensures ReadAll(c, WriteAll(c, ms)[..k]) ==
            (ms[..Whole(c, ms, k)], if CleanCut(c, ms, k) then Eof else UnexpectedEof)
    decreases |ms|
  {
    var s := WriteAll(c, ms)[..k];
    if |ms| > 0 {
      var f := Frame(c, ms[0]);
      if k < |f| {
        assert |c.encode(ms[0])| < WORD;
        CutFrame(c, ms[0], k);
        assert s == f[..k];
      } else {
        FrameRoundTrip(c, ms[0], WriteAll(c, ms[1..])[..k - |f|]);
        TruncatedStream(c, ms[1..], k - |f|);
        CutLater(c, ms, k);
      }
    }
  }

  // A cut after the first message is a cut in the rest.
  lemma CutLater(c: Codec, ms: seq<Msg>, k: nat)
    requires |ms| > 0 && |Frame(c, ms[0])| <= k <= |WriteAll(c, ms)|
    ensures var i := k - |Frame(c, ms[0])|;
            && WriteAll(c, ms)[..k] == Frame(c, ms[0]) + WriteAll(c, ms[1..])[..i]
            && ms[..Whole(c, ms, k)] == [ms[0]] + ms[1..][..Whole(c, ms[1..], i)]
            && (CleanCut(c, ms, k) <==> CleanCut(c, ms[1..], i))
  {
    var j := Whole(c, ms[1..], k - |Frame(c, ms[0])|);
    assert ms[..j + 1][1..] == ms[1..][..j];
    assert WriteAll(c, ms[..j + 1]) == Frame(c, ms[0]) + WriteAll(c, ms[1..][..j]);
  }

  lemma CutFrame(c: Codec, m: Msg, k: nat)
    requires |c.encode(m)| < WORD && k < |Frame(c, m)|
    ensures ReadOne(c, Frame(c, m)[..k]) == Error(if k == 0 || k == 4 then Eof else UnexpectedEof)
  {
    var b := c.encode(m);
    HeaderRoundTrip(|b|);
    CutAfterHeader(c, Header(|b|), b, k);
  }

  lemma CutAfterHeader(c: Codec, h: seq<byte>, b: seq<byte>, k: nat)
    requires |h| == 4 && Value(h) == |b| && k < |h + b|
    ensures ReadOne(c, (h + b)[..k]) == Error(if k == 0 || k == 4 then Eof else UnexpectedEof)
  {
    if k >= 4 {
      assert (h + b)[..k][..4] == h;
    }
  }

  lemma {:induction false} AllWhole(c: Codec, ms: seq<Msg>)
    ensures Whole(c, ms, |WriteAll(c, ms)|) == |ms| && ms[..|ms|] == ms
    decreases |ms|
  {
    if |ms| > 0 {
      AllWhole(c, ms[1..]);
    }
  }

  /** Round trip: whatever messages are written, the reader of all their bytes gets
      exactly them, then the end of the stream. */
  lemma StreamRoundTrip(c: Codec, ms: seq<Msg>)
    requires c.Faithful() && Fits(c, ms)
    ensures ReadAll(c, WriteAll(c, ms)) == (ms, Eof)
  {
    var k := |WriteAll(c, ms)|;
    assert WriteAll(c, ms)[..k] == WriteAll(c, ms);
    TruncatedStream(c, ms, k);
    AllWhole(c, ms);
  }

  // ----------------------------------------------------------------- the transport

  // What a connection that fails after this many bytes carries of s.
  function Carried(limit: nat, s: seq<byte>): seq<byte> {
    if |s| <= limit then s else s[..limit]
  }

  /** A connection that fails in the middle: the reader gets exactly the messages that
      the connection carried whole. */
  lemma FailingConnection(c: Codec, ms: seq<Msg>, limit: nat)
    requires c.Faithful() && Fits(c, ms)
    ensures ReadAll(c, Carried(limit, WriteAll(c, ms))).0 == ms[..Whole(c, ms, limit)]
  {
    var s := WriteAll(c, ms);
    if limit < |s| {
      TruncatedStream(c, ms, limit);
    } else {
      assert s[..|s|] == s;
      TruncatedStream(c, ms, |s|);
      MoreThanWhole(c, ms, limit);
    }
  }

  lemma {:induction false} MoreThanWhole(c: Codec, ms: seq<Msg>, k: nat)
    requires |WriteAll(c, ms)| <= k
    ensures Whole(c, ms, k) == Whole(c, ms, |WriteAll(c, ms)|)
    decreases |ms|
  {
    if |ms| > 0 {
      MoreThanWhole(c, ms[1..], k - |Frame(c, ms[0])|);
    }
  }

  // One end of a connection: the bytes still to be read, and those written so far. It
  // fails once it has carried limit bytes, which may be more than are ever written.
  class Transport {
    const codec: Codec
    const limit: nat
    var input: seq<byte>
    var output: seq<byte>

    predicate Valid()
      reads this
    {
      |output| <= limit
    }

    constructor (codec: Codec, limit: nat, input: seq<byte>)
      ensures Valid() && this.codec == codec && this.limit == limit && this.input == input && output == []
    {
      this.codec, this.limit, this.input, this.output := codec, limit, input, [];
    }

    // Fills b from the stream as far as it goes.
    method ReadFull(b: array<byte>) returns (n: nat)
      modifies this`input, b
      ensures n == if |old(input)| < b.Length then |old(input)| else b.Length
      ensures b[..n] == old(input)[..n] && input == old(input)[n..]
    {
      n := 0;
      while n < b.Length && |input| > 0
        invariant n <= b.Length && n <= |old(input)|
        invariant b[..n] == old(input)[..n] && input == old(input)[n..]
      {
        b[n] := input[0];
        input := input[1..];
        n := n + 1;
      }
    }

    method ReadCall() returns (r: Read)
      modifies this`input
      ensures r == ReadOne(codec, old(input))
      ensures input == if r.Message? then r.rest else []
    {
      var h := new byte[4];
      var n := ReadFull(h);
      if n < 4 {
        return Error(if n == 0 then Eof else UnexpectedEof);
      }
      assert h[..] == h[..4];
      ghost var after := input;
      var length := Value(h[..]);
      var b := new byte[length];
      n := ReadFull(b);
      if n < length {
        return Error(if n == 0 then Eof else UnexpectedEof);
      }
      assert b[..] == b[..n] == old(input)[4..4 + length];
      assert input == old(input)[4 + length..];
      r := Message(codec.decode(b[..]), input);
    }

    // Writes the bytes as far as the connection carries them.
    method Write(b: seq<byte>) returns (ok: bool)
      requires Valid()
      modifies this`output
      ensures Valid() && output == Carried(limit, old(output) + b) && (ok <==> |old(output) + b| <= limit)
    {
      ok := |b| <= limit - |output|;
      output := output + if ok then b else b[..limit - |output|];
    }

    // The message goes out whole, or the connection fails within it.
    method WriteCall(m: Msg) returns (ok: bool)
      requires Valid()
      modifies this`output
      ensures Valid() && output == Carried(limit, old(output) + Frame(codec, m))
      ensures ok <==> |old(output) + Frame(codec, m)| <= limit
    {
      var b := codec.encode(m);
      ok := Write(Header(|b|));
      if !ok {
        assert Carried(limit, old(output) + Frame(codec, m)) == Carried(limit, old(output) + Header(|b|));
        return;
      }
      assert old(output) + Header(|b|) + b == old(output) + Frame(codec, m);
      ok := Write(b);
    }

    // The reader's loop: every message up to the first error.
    method ReadUntilError() returns (ms: seq<Msg>, e: ReadError)
      modifies this`input
      ensures (ms, e) == ReadAll(codec, old(input))
    {
      ms := [];
      while true
        invariant ms + ReadAll(codec, input).0 == ReadAll(codec, old(input)).0
        invariant ReadAll(codec, input).1 == ReadAll(codec, old(input)).1
        decreases |input|
      {
        ReadAllOnce(codec, ms, input);
        var r := ReadCall();
        if r.Error? {
          return ms, r.error;
        }
        ms := ms + [r.message];
      }
    }
  }
}
