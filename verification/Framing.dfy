/** Length-prefixed framing: four big-endian bytes, then the body. */
module Framing {
  import opened Words

  type Byte = x: nat | x < 256

  type Message = seq<Byte>

  /** 10 * 1024 * 1024 */
  const MAX_BODY: nat := 10485760

  predicate ValidLength(n: nat) { 0 < n <= MAX_BODY }

  predicate AllValid(ms: seq<Message>) {
    forall i :: 0 <= i < |ms| ==> ValidLength(|ms[i]|)
  }

  /** The header of a body of n bytes; n is first truncated to 32 bits. */
  function Header(n: nat): (h: seq<Byte>)
    ensures |h| == 4
  {
    var w := n % WORD32;
    [w / 0x100_0000, w / 0x1_0000 % 256, w / 0x100 % 256, w % 256]
  }

  function Length(h: seq<Byte>): (n: nat)
    requires |h| == 4
    ensures n < WORD32
  {
    var b0: int, b1: int, b2: int, b3: int := h[0], h[1], h[2], h[3];
    b0 * 0x100_0000 + b1 * 0x1_0000 + b2 * 0x100 + b3
  }

  lemma LengthOfHeader(n: nat)
    ensures Length(Header(n)) == n % WORD32
  {
    var w := n % WORD32;
    assert w == w / 0x100 * 0x100 + w % 256;
    assert w / 0x100 / 0x100 == w / 0x1_0000 && w / 0x1_0000 / 0x100 == w / 0x100_0000;
  }

  lemma SplitByte(hi: nat, lo: nat)
    requires lo < 256
    ensures (hi * 256 + lo) / 256 == hi && (hi * 256 + lo) % 256 == lo
  {
  }

  lemma DivideTwice(n: nat)
    ensures n / 0x1_0000 == n / 256 / 256 && n / 0x100_0000 == n / 256 / 256 / 256
  {
  }

  lemma HeaderOfLength(h: seq<Byte>)
    requires |h| == 4
    ensures Header(Length(h)) == h
  {
    var b0: int, b1: int, b2: int, b3: int := h[0], h[1], h[2], h[3];
    var n := Length(h);
    assert n == ((b0 * 256 + b1) * 256 + b2) * 256 + b3;
    SplitByte((b0 * 256 + b1) * 256 + b2, b3);
    SplitByte(b0 * 256 + b1, b2);
    SplitByte(b0, b1);
    DivideTwice(n);
    assert n % WORD32 == n;
    assert Header(n) == [b0, b1, b2, b3];
  }

  function FrameOf(m: Message): (f: seq<Byte>)
    ensures |f| == 4 + |m|
  {
    Header(|m|) + m
  }

  /** The bytes of a list of messages. */
  function Stream(ms: seq<Message>): seq<Byte>
    decreases |ms|
  {
    if |ms| == 0 then [] else FrameOf(ms[0]) + Stream(ms[1..])
  }

  lemma {:induction false} StreamAppend(ms: seq<Message>, m: Message)
    ensures Stream(ms + [m]) == Stream(ms) + FrameOf(m)
    decreases |ms|
  {
    if |ms| == 0 {
      assert ms + [m] == [m];
      assert Stream([m]) == FrameOf(m) + Stream([]);
    } else {
      assert (ms + [m])[1..] == ms[1..] + [m];
      StreamAppend(ms[1..], m);
    }
  }

  lemma {:induction false} StreamConcat(ms: seq<Message>, ns: seq<Message>)
    ensures Stream(ms + ns) == Stream(ms) + Stream(ns)
    decreases |ms|
  {
    if |ms| == 0 {
      assert ms + ns == ns;
    } else {
      assert (ms + ns)[1..] == ms[1..] + ns;
      StreamConcat(ms[1..], ns);
    }
  }

  /**
   Every byte string is the beginning of some sequence of frames, so that what is proved of a reader
   of posted messages holds of a reader of arbitrary bytes.
   */
  lemma {:induction false} EveryStream(s: seq<Byte>) returns (ms: seq<Message>)
    ensures s <= Stream(ms)
    decreases |s|
  {
    if |s| == 0 {
      ms := [];
    } else {
      var n := Length(Padded(s, 4)[..4]);
      var whole := Padded(s, 4 + n);
      var m := whole[4..4 + n];
      var more := EveryStream(if |s| <= 4 + n then [] else s[4 + n..]);
      ms := [m] + more;
      FirstFrameOf(whole, n);
      assert ms[0] == m && ms[1..] == more;
      assert s <= whole[..4 + n] + Stream(more);
    }
  }

  /** Zero bytes appended up to length n. */
  function Padded(s: seq<Byte>, n: nat): (r: seq<Byte>)
    ensures s <= r && |r| >= n && (|s| >= n ==> r == s)
  {
    if |s| >= n then s else s + seq(n - |s|, _ => 0)
  }

  lemma FirstFrameOf(s: seq<Byte>, n: nat)
    requires |s| >= 4 + n && n == Length(s[..4])
    ensures FrameOf(s[4..4 + n]) == s[..4 + n]
  {
    HeaderOfLength(s[..4]);
  }

  // ---------------------------------------------------------------- the one-shot parser

  /** All complete valid frames at the front, what is left, and whether that starts with a bad length. */
  datatype Parsed = Parsed(messages: seq<Message>, rest: seq<Byte>, bad: bool)

  function Parse(s: seq<Byte>): Parsed
    decreases |s|
  {
    if |s| < 4 then Parsed([], s, false)
    else
      var n := Length(s[..4]);
      if !ValidLength(n) then Parsed([], s, true)
      else if |s| < 4 + n then Parsed([], s, false)
      else
        var p := Parse(s[4 + n..]);
        p.(messages := [s[4..4 + n]] + p.messages)
  }

  lemma FrameParts(m: Message, t: seq<Byte>)
    ensures var s := FrameOf(m) + t;
      && |s| == 4 + |m| + |t| && s[..4] == Header(|m|)
      && s[4..4 + |m|] == m && s[4 + |m|..] == t
  {
  }

  lemma ParseStep(s: seq<Byte>, n: nat)
    requires |s| >= 4 && Length(s[..4]) == n && ValidLength(n) && |s| >= 4 + n
    ensures Parse(s) == Parse(s[4 + n..]).(messages := [s[4..4 + n]] + Parse(s[4 + n..]).messages)
  {
  }

  lemma ParseIncomplete(h: seq<Byte>, body: seq<Byte>)
    requires |h| == 4 && ValidLength(Length(h)) && |body| < Length(h)
    ensures Parse(h + body) == Parsed([], h + body, false)
  {
    assert (h + body)[..4] == h;
  }

  lemma ParseFrame(m: Message, t: seq<Byte>)
    requires ValidLength(|m|)
    ensures Parse(FrameOf(m) + t) == Prefixed([m], Parse(t))
  {
    FrameParts(m, t);
    var s := FrameOf(m) + t;
    assert Length(s[..4]) == |m| by { LengthOfHeader(|m|); }
    ParseStep(s, |m|);
  }

  lemma StreamCons(m: Message, ms: seq<Message>, rest: seq<Byte>)
    ensures Stream([m] + ms) + rest == FrameOf(m) + (Stream(ms) + rest)
  {
    assert ([m] + ms)[1..] == ms;
  }

  function Prefixed(ms: seq<Message>, p: Parsed): Parsed {
    p.(messages := ms + p.messages)
  }

  lemma PrefixedTwice(m: Message, ms: seq<Message>, p: Parsed)
    ensures Prefixed([m], Prefixed(ms, p)) == Prefixed([m] + ms, p)
    ensures Prefixed([], p) == p
  {
    assert [m] + (ms + p.messages) == [m] + ms + p.messages;
    assert [] + p.messages == p.messages;
  }

  /** Complete valid frames in front are parsed, whatever follows. */
  lemma {:induction false} ParseStream(ms: seq<Message>, tail: seq<Byte>)
    requires AllValid(ms)
    ensures Parse(Stream(ms) + tail) == Prefixed(ms, Parse(tail))
    decreases |ms|
  {
    var p := Parse(tail);
    if |ms| == 0 {
      assert Stream(ms) + tail == tail && ms == [];
      PrefixedTwice([], [], p);
    } else {
      var m, ns := ms[0], ms[1..];
      var t := Stream(ns) + tail;
      assert ms == [m] + ns;
      StreamCons(m, ns, tail);
      calc {
        Parse(Stream(ms) + tail);
        Parse(FrameOf(m) + t);
        { ParseFrame(m, t); }
        Prefixed([m], Parse(t));
        { ParseStream(ns, tail); }
        Prefixed([m], Prefixed(ns, p));
        { PrefixedTwice(m, ns, p); }
        Prefixed(ms, p);
      }
    }
  }

  /** The parser's result is a decomposition of the stream into valid frames and a rest. */
  lemma {:induction false} ParseSound(s: seq<Byte>)
    ensures AllValid(Parse(s).messages) && s == Stream(Parse(s).messages) + Parse(s).rest
    decreases |s|
  {
    if |s| < 4 || !ValidLength(Length(s[..4])) || |s| < 4 + Length(s[..4]) {
      assert Parse(s).messages == [] && Parse(s).rest == s;
    } else {
      var n := Length(s[..4]);
      var m, t := s[4..4 + n], s[4 + n..];
      ParseStep(s, n);
      ParseSound(t);
      assert s == FrameOf(m) + t by { HeaderOfLength(s[..4]); }
      StreamCons(m, Parse(t).messages, Parse(t).rest);
    }
  }

  lemma ParseLongest(s: seq<Byte>, ds: seq<Message>, tail: seq<Byte>)
    requires AllValid(ds) && s == Stream(ds) + tail
    ensures ds <= Parse(s).messages
  {
    ParseStream(ds, tail);
  }

  // ---------------------------------------------------------------- when framing is faithful

  /**
   The first message whose size is not in 1..MAX_BODY, if any, must not look valid after its size is
   truncated to 32 bits.
   */
  predicate Framed(ms: seq<Message>)
    decreases |ms|
  {
    |ms| == 0 || (if ValidLength(|ms[0]|) then Framed(ms[1..]) else !ValidLength(|ms[0]| % WORD32))
  }

  /** Below 2^32 bytes no size is truncated: what a 32-bit serializer produces is always framed. */
  lemma {:induction false} SmallIsFramed(ms: seq<Message>)
    requires forall i :: 0 <= i < |ms| ==> |ms[i]| < WORD32
    ensures Framed(ms)
    decreases |ms|
  {
    if |ms| > 0 && ValidLength(|ms[0]|) { SmallIsFramed(ms[1..]); }
  }

  /** Among framed messages, only the valid ones parse to the end. */
  lemma {:induction false} ParsedIsValid(ms: seq<Message>)
    requires Framed(ms) && !Parse(Stream(ms)).bad
    ensures AllValid(ms)
    decreases |ms|
  {
    if |ms| > 0 {
      var m, t := ms[0], Stream(ms[1..]);
      if ValidLength(|m|) {
        ParseFrame(m, t);
        ParsedIsValid(ms[1..]);
        forall i | 0 <= i < |ms| ensures ValidLength(|ms[i]|) {
          if i > 0 { assert ms[i] == ms[1..][i - 1]; }
        }
      } else {
        BadFrame(m, t);
      }
    }
  }

  lemma SameHeader(d: Message, x: seq<Byte>, m: Message, y: seq<Byte>)
    requires FrameOf(d) + x <= FrameOf(m) + y
    ensures |d| % WORD32 == |m| % WORD32
  {
    var s, u := FrameOf(d) + x, FrameOf(m) + y;
    assert Header(|d|) == s[..4] && Header(|m|) == u[..4];
    assert u[..4] == s[..4];
    LengthOfHeader(|d|);
    LengthOfHeader(|m|);
  }

  lemma SameBody(h: seq<Byte>, d: Message, x: seq<Byte>, m: Message, y: seq<Byte>)
    requires |d| == |m| && h + d + x <= h + m + y
    ensures d == m && x <= y
  {
    var s, u, n := h + d + x, h + m + y, |h| + |d|;
    assert u[..n] == s[..n] && s[..n] == h + d && u[..n] == h + m;
    assert (h + d)[|h|..] == d && (h + m)[|h|..] == m;
    assert s[n..] == x && u[n..] == y;
    assert u[n..][..|x|] == s[n..];
  }

  /** A valid frame at the front of a longer stream of frames is that stream's first message. */
  lemma FirstFrame(d: Message, x: seq<Byte>, m: Message, y: seq<Byte>)
    requires FrameOf(d) + x <= FrameOf(m) + y
    requires ValidLength(|d|) && (ValidLength(|m|) || !ValidLength(|m| % WORD32))
    ensures d == m && x <= y
  {
    SameHeader(d, x, m, y);
    assert |d| == |m|;
    SameBody(Header(|d|), d, x, m, y);
  }

  /** Whatever valid frames can be read off a prefix of the posted bytes are the posted messages. */
  lemma {:induction false} FramesArePrefix(ds: seq<Message>, tail: seq<Byte>, ms: seq<Message>)
    requires AllValid(ds) && Framed(ms) && Stream(ds) + tail <= Stream(ms)
    ensures ds <= ms
    decreases |ds|
  {
    if |ds| > 0 {
      var d, m, x, y := ds[0], ms[0], Stream(ds[1..]) + tail, Stream(ms[1..]);
      assert Stream(ds) + tail == FrameOf(d) + x;
      FirstFrame(d, x, m, y);
      FramesArePrefix(ds[1..], tail, ms[1..]);
      assert ds == [d] + ds[1..] && ms == [m] + ms[1..];
    }
  }

  /** A size outside 1..MAX_BODY that truncates to a valid length is read as a shorter message. */
  lemma TruncatedFrame(m: Message, t: seq<Byte>)
    requires !ValidLength(|m|) && ValidLength(|m| % WORD32)
    ensures var p := Parse(FrameOf(m) + t).messages; |p| > 0 && p[0] == m[..|m| % WORD32] && p[0] != m
  {
    var n := |m| % WORD32;
    var s := FrameOf(m) + t;
    FrameParts(m, t);
    LengthOfHeader(|m|);
    assert n < |m|;
    assert s[4..4 + n] == m[..n];
  }

  lemma BadFrame(m: Message, t: seq<Byte>)
    requires !ValidLength(|m| % WORD32)
    ensures Parse(FrameOf(m) + t) == Parsed([], FrameOf(m) + t, true)
  {
    FrameParts(m, t);
    LengthOfHeader(|m|);
  }

  lemma SameHead(m: Message, ps: seq<Message>, qs: seq<Message>)
    ensures [m] + ps <= [m] + qs <==> ps <= qs
  {
    assert ps == ([m] + ps)[1..] && qs == ([m] + qs)[1..];
  }

  /** Sizes from 1 byte to 10 MiB are read back whole; any other below 2^32 stops the reader. */
  lemma SizeLimit(m: Message, t: seq<Byte>)
    requires |m| < 0x1_0000_0000
    ensures 1 <= |m| <= 10 * 1024 * 1024 ==>
      Parse(FrameOf(m) + t).messages == [m] + Parse(t).messages && Parse(FrameOf(m) + t).rest == Parse(t).rest
    ensures |m| == 0 || |m| > 10 * 1024 * 1024 ==>
      Parse(FrameOf(m) + t) == Parsed([], FrameOf(m) + t, true)
  {
    if ValidLength(|m|) {
      ParseFrame(m, t);
    } else {
      BadFrame(m, t);
    }
  }

  /** The receiver reads only posted messages off the stream, in order. */
  ghost predicate ReadsPosted(ms: seq<Message>) {
    Parse(Stream(ms)).messages <= ms
  }

  lemma ValidHead(m: Message, ms: seq<Message>)
    requires ValidLength(|m|)
    ensures ReadsPosted([m] + ms) <==> ReadsPosted(ms)
  {
    StreamCons(m, ms, []);
    assert Stream([m] + ms) + [] == Stream([m] + ms) && Stream(ms) + [] == Stream(ms);
    ParseFrame(m, Stream(ms));
    SameHead(m, Parse(Stream(ms)).messages, ms);
  }

  lemma BadHead(m: Message, ms: seq<Message>)
    requires !ValidLength(|m|)
    ensures ReadsPosted([m] + ms) <==> !ValidLength(|m| % WORD32)
  {
    StreamCons(m, ms, []);
    assert Stream([m] + ms) + [] == Stream([m] + ms) && Stream(ms) + [] == Stream(ms);
    if ValidLength(|m| % WORD32) {
      TruncatedFrame(m, Stream(ms));
      assert ([m] + ms)[0] == m;
    } else {
      BadFrame(m, Stream(ms));
    }
  }

  /** That is so exactly when `Framed`. */
  lemma {:induction false} FaithfulIff(ms: seq<Message>)
    ensures Parse(Stream(ms)).messages <= ms <==> Framed(ms)
    decreases |ms|
  {
    assert ReadsPosted(ms) <==> Parse(Stream(ms)).messages <= ms;
    if |ms| > 0 {
      assert ms == [ms[0]] + ms[1..];
      if ValidLength(|ms[0]|) {
        ValidHead(ms[0], ms[1..]);
        FaithfulIff(ms[1..]);
      } else {
        BadHead(ms[0], ms[1..]);
      }
    }
  }

  /** A body of 2^32 + 1 bytes is announced as one byte, and read as a message nobody posted. */
  lemma OversizeMisframes(m: Message)
    requires |m| == WORD32 + 1
    ensures Parse(Stream([m])).messages != [] && Parse(Stream([m])).messages[0] == m[..1]
    ensures !(Parse(Stream([m])).messages <= [m])
  {
    assert |m| % WORD32 == 1;
    assert Stream([m]) == FrameOf(m) + Stream([]);
    TruncatedFrame(m, Stream([]));
  }
}
