/** Container logs as Docker sends them, in frames: eight bytes, of which the last four give a length, then that many bytes. */
module Framing {

  type Byte = x: int | 0 <= x < 256

  type Bytes = seq<Byte>

  const HEADER: nat := 8

  datatype Result = Ok(text: Bytes) | Failed

  /** Four bytes, most significant first. */
  function Size(b: Bytes): nat
    requires |b| == 4
  {
    0x100_0000 * b[0] as int + 0x1_0000 * b[1] as int + 256 * b[2] as int + b[3] as int
  }

  lemma Digits(n: nat)
    requires n < 0x1_0000_0000
    ensures n / 0x100_0000 < 256
    ensures 0x100_0000 * (n / 0x100_0000) + 0x1_0000 * (n / 0x1_0000 % 256) + 256 * (n / 256 % 256) + n % 256 == n
  {
    assert n / 256 / 256 == n / 0x1_0000 && n / 0x1_0000 / 256 == n / 0x100_0000;
  }

  function SizeBytes(n: nat): (b: Bytes)
    requires n < 0x1_0000_0000
    ensures |b| == 4 && Size(b) == n
  {
    Digits(n);
    [n / 0x100_0000, n / 0x1_0000 % 256, n / 256 % 256, n % 256]
  }

  function Then(text: Bytes, r: Result): Result {
    if r.Ok? then Ok(text + r.text) else Failed
  }

  /** What reading the stream gives; `broken` says that after its last byte comes an error rather than the end. */
  function Demux(s: Bytes, broken: bool): Result
    decreases |s|
  {
    if |s| < HEADER then if broken then Failed else Ok([])
    else if |s| - HEADER < Size(s[4..8]) then Failed
    else Then(s[HEADER..HEADER + Size(s[4..8])], Demux(s[HEADER + Size(s[4..8])..], broken))
  }

  method DemuxLogs(s: Bytes, broken: bool) returns (r: Result)
    ensures r == Demux(s, broken)
  {
    hide Size;
    var buf, pos := [], 0;
    while |s| - pos >= HEADER
      invariant 0 <= pos <= |s| && Demux(s, broken) == Then(buf, Demux(s[pos..], broken))
      decreases |s| - pos
    {
      var size := Size(s[pos + 4..pos + 8]);
      assert s[pos..][4..8] == s[pos + 4..pos + 8];
      pos := pos + HEADER;
      if |s| - pos < size {
        return Failed;
      }
      assert s[pos - HEADER..][HEADER..HEADER + size] == s[pos..pos + size];
      assert s[pos - HEADER..][HEADER + size..] == s[pos + size..];
      ThenThen(buf, s[pos..pos + size], Demux(s[pos + size..], broken));
      buf := buf + s[pos..pos + size];
      pos := pos + size;
    }
    if broken {
      return Failed;
    }
    assert buf + [] == buf;
    r := Ok(buf);
  }

  lemma ThenThen(a: Bytes, b: Bytes, r: Result)
    ensures Then(a, Then(b, r)) == Then(a + b, r)
  {
    if r.Ok? {
      assert a + (b + r.text) == (a + b) + r.text;
    }
  }

  // ---- What the daemon writes ----

  /** The stream type and the three bytes after it don't matter to the reader. */
  datatype Frame = Frame(kind: Bytes, payload: Bytes)

  ghost predicate Sound(f: Frame) {
    |f.kind| == 4 && |f.payload| < 0x1_0000_0000
  }

  ghost predicate AllSound(frames: seq<Frame>) {
    forall i :: 0 <= i < |frames| ==> Sound(frames[i])
  }

  ghost function Encode(f: Frame): (s: Bytes)
    requires Sound(f)
    ensures |s| == HEADER + |f.payload| && Size(s[4..8]) == |f.payload|
    ensures s[HEADER..] == f.payload
  {
    var s := f.kind + SizeBytes(|f.payload|) + f.payload;
    assert s[4..8] == SizeBytes(|f.payload|);
    s
  }

  ghost function EncodeAll(frames: seq<Frame>): Bytes
    requires AllSound(frames)
  {
    if frames == [] then [] else Encode(frames[0]) + EncodeAll(frames[1..])
  }

  function Texts(frames: seq<Frame>): Bytes {
    if frames == [] then [] else frames[0].payload + Texts(frames[1..])
  }

  /** One whole frame is read off the front. */
  lemma DemuxFirst(f: Frame, rest: Bytes, broken: bool)
    requires Sound(f)
    ensures Demux(Encode(f) + rest, broken) == Then(f.payload, Demux(rest, broken))
  {
    var s := Encode(f) + rest;
    assert s[4..8] == Encode(f)[4..8];
    assert s[HEADER..HEADER + |f.payload|] == Encode(f)[HEADER..];
    assert s[HEADER + |f.payload|..] == rest;
  }

  lemma {:induction false} DemuxWhole(frames: seq<Frame>, rest: Bytes, broken: bool)
    requires AllSound(frames)
    ensures Demux(EncodeAll(frames) + rest, broken) == Then(Texts(frames), Demux(rest, broken))
  {
    if frames == [] {
      assert EncodeAll(frames) + rest == rest;
      assert Demux(rest, broken).Ok? ==> [] + Demux(rest, broken).text == Demux(rest, broken).text;
    } else {
      var tail := EncodeAll(frames[1..]) + rest;
      assert EncodeAll(frames) + rest == Encode(frames[0]) + tail;
      DemuxFirst(frames[0], tail, broken);
      DemuxWhole(frames[1..], rest, broken);
      ThenThen(frames[0].payload, Texts(frames[1..]), Demux(rest, broken));
    }
  }

  /** Reading what was written gives every payload, in order. */
  lemma {:induction false} RoundTrip(frames: seq<Frame>)
    requires AllSound(frames)
    ensures Demux(EncodeAll(frames), false) == Ok(Texts(frames))
  {
    DemuxWhole(frames, [], false);
    assert EncodeAll(frames) + [] == EncodeAll(frames);
    assert Texts(frames) + [] == Texts(frames);
  }

  // ---- Streams that stop anywhere ----

  /** How many whole frames the first `cut` bytes hold. */
  ghost function Whole(frames: seq<Frame>, cut: nat): (k: nat)
    requires AllSound(frames)
    ensures k <= |frames|
  {
    if frames == [] || cut < |Encode(frames[0])| then 0
    else 1 + Whole(frames[1..], cut - |Encode(frames[0])|)
  }

  lemma EncodeFirst(frames: seq<Frame>, k: nat)
    requires AllSound(frames) && k < |frames|
    ensures EncodeAll(frames[..k + 1]) == Encode(frames[0]) + EncodeAll(frames[1..][..k])
  {
    hide Encode;
    assert frames[..k + 1][0] == frames[0] && frames[..k + 1][1..] == frames[1..][..k];
  }

  lemma {:induction false} EncodeSplit(frames: seq<Frame>, k: nat)
    requires AllSound(frames) && k <= |frames|
    ensures EncodeAll(frames) == EncodeAll(frames[..k]) + EncodeAll(frames[k..])
  {
    hide Encode, Size, Sound;
    if k == 0 {
      assert frames[..0] == [] && frames[0..] == frames;
      assert [] + EncodeAll(frames) == EncodeAll(frames);
    } else {
      EncodeSplit(frames[1..], k - 1);
      EncodeFirst(frames, k - 1);
      assert frames[1..][k - 1..] == frames[k..];
      var a, b, c := Encode(frames[0]), EncodeAll(frames[1..][..k - 1]), EncodeAll(frames[k..]);
      assert a + (b + c) == (a + b) + c;
    }
  }

  /** They fit, and the next one doesn't. */
  lemma {:induction false} WholeIsMost(frames: seq<Frame>, cut: nat)
    requires AllSound(frames) && cut <= |EncodeAll(frames)|
    ensures var k := Whole(frames, cut);
      && |EncodeAll(frames[..k])| <= cut
      && (k == |frames| ==> |EncodeAll(frames[..k])| == cut)
      && (k < |frames| ==> cut < |EncodeAll(frames[..k])| + |Encode(frames[k])|)
  {
    hide Encode, Size;
    if frames == [] || cut < |Encode(frames[0])| {
      assert frames[..0] == [];
    } else {
      var k := Whole(frames[1..], cut - |Encode(frames[0])|);
      WholeIsMost(frames[1..], cut - |Encode(frames[0])|);
      EncodeFirst(frames, k);
    }
  }

  lemma DemuxTail(s: Bytes)
    requires |s| < HEADER
    ensures Demux(s, false) == Ok([])
  {
  }

  /** Part of a frame: nothing while in the header, an error once in the payload. */
  lemma DemuxPart(f: Frame, rest: Bytes, cut: nat)
    requires Sound(f) && cut < |Encode(f)|
    ensures Demux((Encode(f) + rest)[..cut], false) == if cut < HEADER then Ok([]) else Failed
  {
    var s := (Encode(f) + rest)[..cut];
    if cut >= HEADER {
      assert s[4..8] == Encode(f)[4..8];
    }
  }

  /**
   * A stream cut off anywhere: between frames or inside a header, the whole frames before the cut; inside a payload,
   * an error and nothing else.
   */
  lemma CutAnywhere(frames: seq<Frame>, cut: nat)
    requires AllSound(frames) && cut <= |EncodeAll(frames)|
    ensures var k := Whole(frames, cut);
      Demux(EncodeAll(frames)[..cut], false)
        == if cut - |EncodeAll(frames[..k])| < HEADER then Ok(Texts(frames[..k])) else Failed
  {
    hide Encode, Size, Demux, Whole;
    var k := Whole(frames, cut);
    WholeIsMost(frames, cut);
    EncodeSplit(frames, k);
    var before, after := EncodeAll(frames[..k]), EncodeAll(frames[k..]);
    var left := cut - |before|;
    assert EncodeAll(frames)[..cut] == before + after[..left] by {
      assert (before + after)[..cut] == before + after[..left];
    }
    DemuxWhole(frames[..k], after[..left], false);
    if k < |frames| {
      assert frames[k..][0] == frames[k];
      DemuxPart(frames[k], EncodeAll(frames[k..][1..]), left);
    } else {
      DemuxTail(after[..left]);
    }
    assert Texts(frames[..k]) + [] == Texts(frames[..k]);
  }

  // ---- Every stream ----

  /** The stream taken apart: the whole frames, and what is left. */
  function Parse(s: Bytes): (seq<Frame>, Bytes)
    decreases |s|
  {
    if |s| < HEADER || |s| - HEADER < Size(s[4..8]) then ([], s)
    else
      var size := Size(s[4..8]);
      var (frames, rest) := Parse(s[HEADER + size..]);
      ([Frame(s[..4], s[HEADER..HEADER + size])] + frames, rest)
  }

  lemma SizeIsBytes(b: Bytes)
    requires |b| == 4
    ensures Size(b) < 0x1_0000_0000 && SizeBytes(Size(b)) == b
  {
    var n := Size(b);
    var low := 0x1_0000 * b[1] as int + 256 * b[2] as int + b[3] as int;
    assert n / 0x100_0000 == b[0] as int by {
      assert n == 0x100_0000 * b[0] as int + low && 0 <= low < 0x100_0000;
    }
    assert n / 0x1_0000 == 256 * b[0] as int + b[1] as int;
    assert n / 256 == 256 * (256 * b[0] as int + b[1] as int) + b[2] as int;
  }

  lemma FirstFrame(s: Bytes)
    requires |s| >= HEADER && |s| - HEADER >= Size(s[4..8])
    ensures var f := Frame(s[..4], s[HEADER..HEADER + Size(s[4..8])]);
      Sound(f) && s == Encode(f) + s[HEADER + Size(s[4..8])..]
  {
    SizeIsBytes(s[4..8]);
    var size := Size(s[4..8]);
    assert s == s[..4] + s[4..8] + s[HEADER..HEADER + size] + s[HEADER + size..];
  }

  lemma {:induction false} ParsedIsStream(s: Bytes)
    ensures AllSound(Parse(s).0) && s == EncodeAll(Parse(s).0) + Parse(s).1
    ensures Demux(s, false) == if |Parse(s).1| < HEADER then Ok(Texts(Parse(s).0)) else Failed
    decreases |s|
  {
    if |s| < HEADER || |s| - HEADER < Size(s[4..8]) {
    } else {
      var size := Size(s[4..8]);
      var rest := s[HEADER + size..];
      var f := Frame(s[..4], s[HEADER..HEADER + size]);
      FirstFrame(s);
      ParsedIsStream(rest);
      var (frames, left) := Parse(rest);
      assert Parse(s).0[1..] == frames;
      assert Encode(f) + (EncodeAll(frames) + left) == (Encode(f) + EncodeAll(frames)) + left;
    }
  }

  ghost predicate Spells(s: Bytes, frames: seq<Frame>, tail: Bytes) {
    AllSound(frames) && |tail| < HEADER && s == EncodeAll(frames) + tail
  }

  /** Over every stream of bytes: reading succeeds exactly on frames followed by less than a header, and gives their payloads. */
  lemma ReadsExactlyFrames(s: Bytes, text: Bytes)
    ensures Demux(s, false) == Ok(text) <==> exists frames, tail :: Spells(s, frames, tail) && text == Texts(frames)
  {
    ParsedIsStream(s);
    if Demux(s, false) == Ok(text) {
      assert Spells(s, Parse(s).0, Parse(s).1);
    }
    if frames, tail :| Spells(s, frames, tail) && text == Texts(frames) {
      DemuxWhole(frames, tail, false);
      assert Texts(frames) + [] == Texts(frames);
    }
  }

  /** Of a stream that breaks off with an error nothing is kept. */
  lemma {:induction false} BrokenStreamFails(s: Bytes)
    ensures Demux(s, true) == Failed
    decreases |s|
  {
    if |s| >= HEADER && |s| - HEADER >= Size(s[4..8]) {
      BrokenStreamFails(s[HEADER + Size(s[4..8])..]);
    }
  }
}
