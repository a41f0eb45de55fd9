/**
 Docker's attach stream: frames of an eight-byte header, whose last four bytes
 are the length of the payload, and the payload.  One header buffer is reused
 for every frame, and a header may be cut off by the end of the stream.
 */
module Demux {
  import opened MessagePack

  const HEADER_SIZE := 8

  /** The header buffer to begin with. */
  const ZEROS: Bytes := [0, 0, 0, 0, 0, 0, 0, 0]

  // ------------------------------------------------------------------ reading

  /** How many bytes the `i`-th header read returns, if the stream has any: between one and eight. */
  type Chunks = nat -> nat

  function Min(a: nat, b: nat): nat { if a < b then a else b }

  function ReadLength(chunks: Chunks, i: nat, left: nat): (n: nat)
    requires left > 0
    ensures 1 <= n <= Min(HEADER_SIZE, left)
  {
    var n := Min(chunks(i), Min(HEADER_SIZE, left));
    if n == 0 then 1 else n
  }

  /** The buffer after a read of `n` bytes: what the read did not reach is from before. */
  function Filled(header: Bytes, b: Bytes, n: nat): Bytes
    requires |header| == HEADER_SIZE && n <= HEADER_SIZE && n <= |b|
  {
    b[..n] + header[n..]
  }

  function Size(header: Bytes): nat
    requires |header| == HEADER_SIZE
  {
    Value(header[4..8])
  }

  /** What the loop writes from its `i`-th header read on. */
  function Written(chunks: Chunks, i: nat, header: Bytes, b: Bytes): Bytes
    requires |header| == HEADER_SIZE
    decreases |b|
  {
    if b == [] then []
    else
      var n := ReadLength(chunks, i, |b|);
      var h, r := Filled(header, b, n), b[n..];
      if Size(h) > |r| then r else r[..Size(h)] + Written(chunks, i + 1, h, r[Size(h)..])
  }

  /** One read into the buffer. */
  method ReadHeader(header: array<byte>, b: Bytes, n: nat)
    requires header.Length == HEADER_SIZE && n <= HEADER_SIZE && n <= |b|
    modifies header
    ensures header[..] == Filled(old(header[..]), b, n)
  {
    for j := 0 to n
      invariant forall t :: 0 <= t < j ==> header[t] == b[t]
      invariant forall t :: j <= t < HEADER_SIZE ==> header[t] == old(header[t])
    {
      header[j] := b[j];
    }
  }

  method CollectOutput(stream: Bytes, chunks: Chunks) returns (written: Bytes)
    ensures written == Written(chunks, 0, ZEROS, stream)
  {
    var header := new byte[HEADER_SIZE](_ => 0);
    ghost var zeros := header[..];
    assert zeros == ZEROS;
    written := [];
    var b, i := stream, 0;
    while b != []
      invariant written + Written(chunks, i, header[..], b) == Written(chunks, 0, zeros, stream)
      decreases |b|
    {
      hide Value, Filled, ReadLength;
      var n := ReadLength(chunks, i, |b|);
      ReadHeader(header, b, n);
      var r, size := b[n..], Size(header[..]);
      if size > |r| {
        return written + r;
      }
      Assoc(written, r[..size], Written(chunks, i + 1, header[..], r[size..]));
      written := written + r[..size];
      b, i := r[size..], i + 1;
    }
  }

  // ------------------------------------------------------------------- frames

  datatype Frame = Frame(prefix: Bytes, payload: Bytes)

  predicate Valid(fs: seq<Frame>) {
    forall i :: 0 <= i < |fs| ==> |fs[i].prefix| == 4 && |fs[i].payload| < 0x1_0000_0000
  }

  function Header(f: Frame): Bytes { f.prefix + BigEndian(|f.payload|, 4) }

  function Encoded(fs: seq<Frame>): Bytes {
    if |fs| == 0 then [] else Header(fs[0]) + (fs[0].payload + Encoded(fs[1..]))
  }

  /** The payload bytes among the first `n` bytes of the stream, in order. */
  function Present(fs: seq<Frame>, n: nat): Bytes {
    if |fs| == 0 || n <= HEADER_SIZE then []
    else
      var m := n - HEADER_SIZE;
      if m <= |fs[0].payload| then fs[0].payload[..m] else fs[0].payload + Present(fs[1..], m - |fs[0].payload|)
  }

  /** Header reads are short only at the end of the stream. */
  ghost predicate FullReads(chunks: Chunks) { forall i :: chunks(i) >= HEADER_SIZE }

  lemma HeaderRead(f: Frame, header: Bytes, rest: Bytes)
    requires |f.prefix| == 4 && |f.payload| < 0x1_0000_0000 && |header| == HEADER_SIZE
    ensures |Header(f)| == HEADER_SIZE
    ensures Filled(header, Header(f) + rest, HEADER_SIZE) == Header(f) && Size(Header(f)) == |f.payload|
    ensures (Header(f) + rest)[HEADER_SIZE..] == rest
  {
    BigEndianValue(|f.payload|, 4);
    assert Pow256(4) == 0x1_0000_0000;
    assert Header(f)[4..8] == BigEndian(|f.payload|, 4);
  }

  /** A whole header: its payload, as far as it is there, is written, and the rest follows. */
  lemma FrameWritten(chunks: Chunks, i: nat, header: Bytes, f: Frame, rest: Bytes)
    requires chunks(i) >= HEADER_SIZE && |header| == HEADER_SIZE
    requires |f.prefix| == 4 && |f.payload| < 0x1_0000_0000
    ensures |Header(f)| == HEADER_SIZE
    ensures
      Written(chunks, i, header, Header(f) + rest) ==
      if |f.payload| > |rest| then rest else rest[..|f.payload|] + Written(chunks, i + 1, Header(f), rest[|f.payload|..])
  {
    HeaderRead(f, header, rest);
    hide Header, Size, Filled;
    assert ReadLength(chunks, i, |Header(f) + rest|) == HEADER_SIZE;
  }

  /** No more than a header is left: nothing is written, whatever size the buffer then shows. */
  lemma ShortStream(chunks: Chunks, i: nat, header: Bytes, b: Bytes)
    requires chunks(i) >= HEADER_SIZE && |header| == HEADER_SIZE && |b| <= HEADER_SIZE
    ensures Written(chunks, i, header, b) == []
  {
    if b == [] {
    } else {
      assert ReadLength(chunks, i, |b|) == |b| && b[|b|..] == [];
    }
  }

  lemma EncodedCut(fs: seq<Frame>, n: nat)
    requires |fs| > 0 && Valid(fs) && HEADER_SIZE < n <= |Encoded(fs)|
    ensures
      var rest := fs[0].payload + Encoded(fs[1..]);
      |Header(fs[0])| == HEADER_SIZE && n - HEADER_SIZE <= |rest| && Encoded(fs)[..n] == Header(fs[0]) + rest[..n - HEADER_SIZE]
  {
    HeaderRead(fs[0], ZEROS, fs[0].payload + Encoded(fs[1..]));
  }

  lemma PayloadCut(f: Frame, rest: Bytes, m: nat)
    requires |f.payload| <= m <= |f.payload| + |rest|
    ensures (f.payload + rest)[..m][..|f.payload|] == f.payload
    ensures (f.payload + rest)[..m][|f.payload|..] == rest[..m - |f.payload|]
  {
  }

  /** The payload there is in the first `n` bytes is written. */
  ghost predicate Right(chunks: Chunks, i: nat, header: Bytes, fs: seq<Frame>, n: nat)
    requires Valid(fs) && |header| == HEADER_SIZE && n <= |Encoded(fs)|
  {
    Written(chunks, i, header, Encoded(fs)[..n]) == Present(fs, n)
  }

  lemma RightHeader(chunks: Chunks, i: nat, header: Bytes, fs: seq<Frame>, n: nat)
    requires chunks(i) >= HEADER_SIZE && Valid(fs) && |header| == HEADER_SIZE && n <= |Encoded(fs)| && n <= HEADER_SIZE
    ensures Right(chunks, i, header, fs, n)
  {
    hide Written, Encoded, Present;
    ShortStream(chunks, i, header, Encoded(fs)[..n]);
    PresentHeader(fs, n);
  }

  lemma RightFrame(chunks: Chunks, i: nat, header: Bytes, fs: seq<Frame>, n: nat)
    requires chunks(i) >= HEADER_SIZE && |fs| > 0 && Valid(fs) && Valid(fs[1..]) && |header| == |Header(fs[0])| == HEADER_SIZE
    requires HEADER_SIZE < n <= |Encoded(fs)| && n - HEADER_SIZE - |fs[0].payload| <= |Encoded(fs[1..])|
    requires
      var k := n - HEADER_SIZE - |fs[0].payload|;
      k >= 0 ==> Right(chunks, i + 1, Header(fs[0]), fs[1..], k)
    ensures Right(chunks, i, header, fs, n)
  {
    hide Written, Encoded, Present, Header, Valid;
    WholeFrame(chunks, i, header, fs, n);
    PresentFrame(fs, n);
  }

  lemma {:induction false} RightThroughout(chunks: Chunks, i: nat, header: Bytes, fs: seq<Frame>, n: nat)
    requires FullReads(chunks) && Valid(fs) && |header| == HEADER_SIZE && n <= |Encoded(fs)|
    ensures Right(chunks, i, header, fs, n)
    decreases |fs|
  {
    ReadsInFull(chunks, i);
    hide *;
    if n <= HEADER_SIZE {
      RightHeader(chunks, i, header, fs, n);
    } else {
      FirstFrame(fs, n);
      if n - HEADER_SIZE >= |fs[0].payload| {
        RightThroughout(chunks, i + 1, Header(fs[0]), fs[1..], n - HEADER_SIZE - |fs[0].payload|);
      }
      RightFrame(chunks, i, header, fs, n);
    }
  }

  /**
   For every stream of frames cut off anywhere, and whatever the buffer holds to
   begin with, what is written is exactly the payload that is there.
   */
  lemma AllPayload(chunks: Chunks, i: nat, header: Bytes, fs: seq<Frame>, n: nat)
    requires FullReads(chunks) && Valid(fs) && |header| == HEADER_SIZE && n <= |Encoded(fs)|
    ensures Written(chunks, i, header, Encoded(fs)[..n]) == Present(fs, n)
  {
    RightThroughout(chunks, i, header, fs, n);
  }

  lemma ReadsInFull(chunks: Chunks, i: nat)
    requires FullReads(chunks)
    ensures chunks(i) >= HEADER_SIZE
  {
  }

  lemma FirstFrame(fs: seq<Frame>, n: nat)
    requires Valid(fs) && HEADER_SIZE < n <= |Encoded(fs)|
    ensures |fs| > 0 && Valid(fs[1..]) && |Header(fs[0])| == HEADER_SIZE
    ensures n - HEADER_SIZE - |fs[0].payload| <= |Encoded(fs[1..])|
  {
    assert |fs| > 0;
    EncodedCut(fs, n);
  }

  lemma PresentHeader(fs: seq<Frame>, n: nat)
    requires n <= HEADER_SIZE
    ensures Present(fs, n) == []
  {
  }

  lemma PresentFrame(fs: seq<Frame>, n: nat)
    requires |fs| > 0 && n > HEADER_SIZE
    ensures
      var f, m := fs[0], n - HEADER_SIZE;
      Present(fs, n) == if m < |f.payload| then f.payload[..m] else f.payload + Present(fs[1..], m - |f.payload|)
  {
    var f := fs[0];
    assert f.payload[..|f.payload|] == f.payload && f.payload + [] == f.payload;
    assert Present(fs[1..], 0) == [];
  }

  /** The first frame of a stream that is cut off behind its header. */
  lemma WholeFrame(chunks: Chunks, i: nat, header: Bytes, fs: seq<Frame>, n: nat)
    requires chunks(i) >= HEADER_SIZE && Valid(fs) && |header| == HEADER_SIZE && |fs| > 0
    requires HEADER_SIZE < n <= |Encoded(fs)|
    ensures |Header(fs[0])| == HEADER_SIZE && n - HEADER_SIZE - |fs[0].payload| <= |Encoded(fs[1..])|
    ensures
      var f, m := fs[0], n - HEADER_SIZE;
      Written(chunks, i, header, Encoded(fs)[..n]) ==
      if m < |f.payload| then f.payload[..m]
      else f.payload + Written(chunks, i + 1, Header(f), Encoded(fs[1..])[..m - |f.payload|])
  {
    hide Header, Encoded, Written;
    var f, tail, m := fs[0], Encoded(fs[1..]), n - HEADER_SIZE;
    EncodedCut(fs, n);
    FrameWritten(chunks, i, header, f, (f.payload + tail)[..m]);
    if m >= |f.payload| {
      PayloadCut(f, tail, m);
    } else {
      assert (f.payload + tail)[..m] == f.payload[..m];
    }
  }

  // ------------------------------------------------------------- short reads

  /** Nothing is written while no size byte in the buffer or to come is set. */
  lemma {:induction false} NoSizes(chunks: Chunks, i: nat, header: Bytes, b: Bytes)
    requires |header| == HEADER_SIZE && forall j :: 4 <= j < HEADER_SIZE ==> header[j] == 0
    requires forall j :: 4 <= j < |b| ==> b[j] == 0
    ensures Written(chunks, i, header, b) == []
    decreases |b|
  {
    if b == [] {
    } else {
      var n := ReadLength(chunks, i, |b|);
      var h := Filled(header, b, n);
      ZeroSize(h);
      NoSizes(chunks, i + 1, h, b[n..]);
    }
  }

  lemma FourBytes(z: Bytes)
    requires |z| == 4
    ensures Value(z) == 0x100_0000 * (z[0] as int) + 0x1_0000 * (z[1] as int) + 0x100 * (z[2] as int) + z[3] as int
  {
    var a, b, c := z[..3], z[..2], z[..1];
    assert a[..2] == b && b[..1] == c && c[..0] == [];
    assert Value(c) == 256 * Value([]) + z[0] && Value(b) == 256 * Value(c) + z[1] && Value(a) == 256 * Value(b) + z[2];
  }

  lemma ZeroSize(h: Bytes)
    requires |h| == HEADER_SIZE && forall j :: 4 <= j < HEADER_SIZE ==> h[j] == 0
    ensures Size(h) == 0
  {
    FourBytes(h[4..8]);
  }

  /** The first size byte is the most significant. */
  lemma LargeSize(h: Bytes)
    requires |h| == HEADER_SIZE && h[4] == 1
    ensures Size(h) > 1
  {
    FourBytes(h[4..8]);
  }

  /** How many bytes a short read returns when there are enough. */
  function Short(chunks: Chunks, k: nat): (c: nat)
    requires chunks(k) < HEADER_SIZE
    ensures 1 <= c < HEADER_SIZE
  {
    if chunks(k) == 0 then 1 else chunks(k)
  }

  const LONG: nat := 0x100_0000

  /** A frame whose header has one byte set, the first of its size. */
  function LongFrame(): (f: Frame)
    ensures |f.prefix| == 4 && |f.payload| == LONG && Header(f) == [0, 0, 0, 0, 1, 0, 0, 0]
  {
    LongHeader();
    Frame([0, 0, 0, 0], seq(LONG, _ => 0))
  }

  lemma LongHeader()
    ensures BigEndian(LONG, 4) == [1, 0, 0, 0]
  {
    assert BigEndian(1, 1) == [1] && BigEndian(256, 2) == [1, 0] && BigEndian(65536, 3) == [1, 0, 0];
  }

  lemma LongBytes()
    ensures
      var f := LongFrame();
      Valid([f]) && Encoded([f]) == Header(f) + f.payload && forall j :: 5 <= j < HEADER_SIZE + LONG ==> Encoded([f])[j] == 0
  {
    var f := LongFrame();
    assert [f][1..] == [] && Encoded([]) == [] && f.payload + [] == f.payload;
  }

  /** If the very first read stops before the size, the whole stream is taken for headers. */
  lemma ShortBeforeSize(chunks: Chunks)
    requires chunks(0) < HEADER_SIZE && Short(chunks, 0) <= 4
    ensures Written(chunks, 0, ZEROS, Encoded([LongFrame()])) == []
  {
    var c, all := Short(chunks, 0), Encoded([LongFrame()]);
    LongBytes();
    hide Encoded, LongFrame, Header;
    assert ReadLength(chunks, 0, |all|) == c;
    var h := Filled(ZEROS, all, c);
    ZeroSize(h);
    NoSizes(chunks, 1, h, all[c..]);
  }

  /** If it stops within the size, header bytes are written. */
  lemma ShortWithinSize(chunks: Chunks)
    requires chunks(0) < HEADER_SIZE && Short(chunks, 0) > 4
    ensures
      var n := Short(chunks, 0) + 1;
      n <= |Encoded([LongFrame()])| && |Written(chunks, 0, ZEROS, Encoded([LongFrame()])[..n])| == 1
  {
    var c := Short(chunks, 0);
    LongBytes();
    var b := Encoded([LongFrame()])[..c + 1];
    assert b[4] == 1;
    hide Encoded, LongFrame, Header;
    assert ReadLength(chunks, 0, c + 1) == c;
    LargeSize(Filled(ZEROS, b, c));
    hide Size;
    assert |b[c..]| == 1;
  }

  /** If the very first read is short, a long frame comes out wrong. */
  lemma ShortAtOnce(chunks: Chunks) returns (fs: seq<Frame>, n: nat)
    requires chunks(0) < HEADER_SIZE
    ensures Valid(fs) && n <= |Encoded(fs)| && Written(chunks, 0, ZEROS, Encoded(fs)[..n]) != Present(fs, n)
  {
    hide Written, Header, Encoded, Short;
    LongBytes();
    fs := [LongFrame()];
    if Short(chunks, 0) <= 4 {
      n := |Encoded(fs)|;
      assert Encoded(fs)[..n] == Encoded(fs);
      ShortBeforeSize(chunks);
      assert |Present(fs, n)| >= LONG;
    } else {
      n := Short(chunks, 0) + 1;
      ShortWithinSize(chunks);
      assert Present(fs, n) == [];
    }
  }

  const TWO := Frame([1, 1, 1, 1], [0, 0])

  function Copies(j: nat): (fs: seq<Frame>)
    ensures |fs| == j && forall i :: 0 <= i < j ==> fs[i] == TWO
  {
    if j == 0 then [] else [TWO] + Copies(j - 1)
  }

  lemma OneByte(n: byte)
    ensures BigEndian(n, 4) == [0, 0, 0, n]
  {
    assert BigEndian(0, 1) == [0];
    assert BigEndian(0, 2) == [0, 0];
    assert BigEndian(0, 3) == [0, 0, 0];
    assert (n as int) / 256 == 0 && (n as int) % 256 == n;
  }

  lemma TwoHeader()
    ensures Header(TWO) == [1, 1, 1, 1, 0, 0, 0, 2] && Size(Header(TWO)) == 2
  {
    hide BigEndian, Value;
    OneByte(2);
    assert Header(TWO)[4..8] == [0, 0, 0, 2];
    FourBytes([0, 0, 0, 2]);
  }

  lemma CopiesTail(j: nat)
    requires j > 0
    ensures Copies(j)[1..] == Copies(j - 1) && Valid(Copies(j)) && |Encoded(Copies(j))| == |Encoded(Copies(j - 1))| + 10
  {
    TwoHeader();
  }

  lemma {:induction false} CopiesLength(j: nat)
    ensures |Encoded(Copies(j))| == 10 * j
  {
    if j == 0 {
    } else {
      CopiesTail(j);
      CopiesLength(j - 1);
    }
  }

  /** If a later read is short, the size of the frame before it is still in the buffer, and a header byte is written. */
  lemma {:induction false} StaleSize(chunks: Chunks, i: nat, header: Bytes, j: nat)
    requires |header| == HEADER_SIZE && chunks(i + j) < HEADER_SIZE && forall t :: i <= t < i + j ==> chunks(t) >= HEADER_SIZE
    requires j == 0 ==> header == Header(TWO)
    ensures
      var n := 10 * j + Short(chunks, i + j) + 1;
      && Valid(Copies(j + 1)) && n <= |Encoded(Copies(j + 1))|
      && |Written(chunks, i, header, Encoded(Copies(j + 1))[..n])| == 2 * j + 1
      && |Present(Copies(j + 1), n)| == 2 * j
    decreases j
  {
    hide Written, Encoded, Header, Short, Size;
    var fs, c := Copies(j + 1), Short(chunks, i + j);
    var n := 10 * j + c + 1;
    CopiesLength(j + 1);
    CopiesTail(j + 1);
    TwoHeader();
    if j == 0 {
      StaleHeader(chunks, i);
    } else {
      WholeFrame(chunks, i, header, fs, n);
      StaleSize(chunks, i + 1, Header(TWO), j - 1);
    }
  }

  lemma StaleHeader(chunks: Chunks, i: nat)
    requires chunks(i) < HEADER_SIZE
    ensures
      var n := Short(chunks, i) + 1;
      && n <= |Encoded(Copies(1))| && |Header(TWO)| == HEADER_SIZE
      && |Written(chunks, i, Header(TWO), Encoded(Copies(1))[..n])| == 1
  {
    var c := Short(chunks, i);
    TwoHeader();
    var h := Header(TWO);
    hide Header, Size;
    assert Copies(1)[1..] == [] && Encoded(Copies(1)) == h + (TWO.payload + Encoded([]));
    var b := Encoded(Copies(1))[..c + 1];
    hide Encoded;
    assert b == h[..c + 1];
    assert ReadLength(chunks, i, c + 1) == c;
    assert Filled(h, b, c) == h;
  }

  lemma FirstShort(chunks: Chunks, k: nat) returns (f: nat)
    requires chunks(k) < HEADER_SIZE
    ensures f <= k && chunks(f) < HEADER_SIZE && forall i :: 0 <= i < f ==> chunks(i) >= HEADER_SIZE
    decreases k
  {
    if i :| 0 <= i < k && chunks(i) < HEADER_SIZE {
      f := FirstShort(chunks, i);
    } else {
      f := k;
    }
  }

  /** Exactly the payload is written, of every stream and every cut, if and only if header reads are short only at the end. */
  lemma FullReadsExactly(chunks: Chunks)
    ensures FullReads(chunks) <==>
      forall fs: seq<Frame>, n: nat :: Valid(fs) && n <= |Encoded(fs)| ==> Written(chunks, 0, ZEROS, Encoded(fs)[..n]) == Present(fs, n)
  {
    if FullReads(chunks) {
      hide FullReads, Written, Present, Encoded, Valid;
      forall fs: seq<Frame>, n: nat | Valid(fs) && n <= |Encoded(fs)|
        ensures Written(chunks, 0, ZEROS, Encoded(fs)[..n]) == Present(fs, n)
      {
        AllPayload(chunks, 0, ZEROS, fs, n);
      }
    } else {
      hide Written, Present, Encoded, Valid;
      var k :| chunks(k) < HEADER_SIZE;
      var f := FirstShort(chunks, k);
      if f == 0 {
        var fs, n := ShortAtOnce(chunks);
      } else {
        StaleSize(chunks, 0, ZEROS, f);
        assert Written(chunks, 0, ZEROS, Encoded(Copies(f + 1))[..10 * f + Short(chunks, f) + 1])
            != Present(Copies(f + 1), 10 * f + Short(chunks, f) + 1);
      }
    }
  }
}
