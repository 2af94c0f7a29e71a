/** Request framing: how `Connection` cuts the inbound byte stream into requests. */
module Framing {
  import opened Bytes

  /** `size_t` is 64 bits wide and its arithmetic wraps. */
  const SIZE_MODULUS: nat := 0x1_0000_0000_0000_0000

  const LENGTH_KEY: Text := "content-length:"

  /** What `parseContentLength` reads out of a header text: the digits after the first, case-folded
      occurrence of the key, and 0 if there is no key, no digit, or a number `stoul` cannot hold. */
  function AnnouncedLength(headers: Text): (n: nat)
    ensures n < SIZE_MODULUS
  {
    var low := Lower(headers);
    var key := Find(low, LENGTH_KEY, 0);
    if key == -1 then 0
    else
      var from := SpanEnd(low, key + |LENGTH_KEY|, IsBlank);
      var end := SpanEnd(low, from, IsDigit);
      if from == end || Value(low[from..end]) >= SIZE_MODULUS then 0 else Value(low[from..end])
  }

  datatype Extraction = Incomplete | Request(raw: Text, rest: Text)

  /** Where the header block of a buffer ends, just after its blank line; -1 if there is none yet. */
  function HeaderEnd(buf: Text): (r: int)
    ensures r == -1 || 4 <= r <= |buf|
  {
    var blank := Find(buf, BLANK, 0);
    if blank == -1 then -1 else blank + 4
  }

  /** Addition of two `size_t`. */
  function AddSizes(a: nat, b: nat): (r: nat)
    requires b < SIZE_MODULUS
    ensures a + b < SIZE_MODULUS ==> r == a + b
    ensures r >= a <==> a + b < SIZE_MODULUS
    ensures a < SIZE_MODULUS && a + b >= SIZE_MODULUS ==> r == a + b - SIZE_MODULUS
  {
    if a + b < SIZE_MODULUS then a + b else (a + b) % SIZE_MODULUS
  }

  function BodyLength(buf: Text): (n: nat)
    requires HeaderEnd(buf) >= 0
    ensures n < SIZE_MODULUS
  {
    AnnouncedLength(buf[..HeaderEnd(buf)])
  }

  /** `headersLen + contentLength`, in `size_t` arithmetic. */
  function FrameLength(buf: Text): nat
    requires HeaderEnd(buf) >= 0
  {
    AddSizes(HeaderEnd(buf), BodyLength(buf))
  }

  /** The sum does not wrap: a test on the buffered header alone. */
  predicate NoWrap(buf: Text)
    requires HeaderEnd(buf) >= 0
  {
    HeaderEnd(buf) + BodyLength(buf) < SIZE_MODULUS
  }

  function Extract(buf: Text): Extraction {
    if HeaderEnd(buf) == -1 || |buf| < FrameLength(buf) then Incomplete
    else Request(buf[..FrameLength(buf)], buf[FrameLength(buf)..])
  }

  lemma NothingFramed()
    ensures Extract([]).Incomplete?
  {
  }

  lemma ExtractConserves(buf: Text)
    requires Extract(buf).Request?
    ensures Extract(buf).raw + Extract(buf).rest == buf
  {
  }

  /** The extracted request holds its whole header block exactly when the sum does not wrap, and
      then exactly the announced number of body bytes follows. */
  lemma ExtractWhole(buf: Text)
    requires Extract(buf).Request?
    ensures NoWrap(buf) <==> |Extract(buf).raw| >= HeaderEnd(buf)
    ensures NoWrap(buf) ==>
              && HeaderEnd(Extract(buf).raw) == HeaderEnd(buf)
              && Extract(buf).raw[..HeaderEnd(buf)] == buf[..HeaderEnd(buf)]
              && |Extract(buf).raw| == HeaderEnd(buf) + BodyLength(buf)
  {
    if NoWrap(buf) {
      HeaderEndOfPrefix(buf, FrameLength(buf));
    }
  }

  lemma HeaderEndOfPrefix(buf: Text, n: nat)
    requires HeaderEnd(buf) >= 0 && HeaderEnd(buf) <= n <= |buf|
    ensures HeaderEnd(buf[..n]) == HeaderEnd(buf)
    ensures buf[..n][..HeaderEnd(buf)] == buf[..HeaderEnd(buf)]
  {
    var pre := buf[..n];
    forall i | 0 <= i <= HeaderEnd(buf) - 4
      ensures At(pre, BLANK, i) <==> At(buf, BLANK, i)
    {
      AtBlank(pre, i);
      AtBlank(buf, i);
      AtCrlf(pre, i);
      AtCrlf(pre, i + 2);
      AtCrlf(buf, i);
      AtCrlf(buf, i + 2);
    }
    FindIs(pre, BLANK, 0, HeaderEnd(buf) - 4);
  }

  lemma HeaderEndStable(buf: Text, more: Text)
    requires HeaderEnd(buf) >= 0
    ensures HeaderEnd(buf + more) == HeaderEnd(buf)
    ensures (buf + more)[..HeaderEnd(buf)] == buf[..HeaderEnd(buf)]
  {
    FindStable(buf, more, BLANK, 0);
  }

  lemma FrameLengthStable(buf: Text, more: Text)
    requires HeaderEnd(buf) >= 0
    ensures HeaderEnd(buf + more) >= 0 && FrameLength(buf + more) == FrameLength(buf)
  {
    HeaderEndStable(buf, more);
  }

  /** More input never changes a request that is already complete. */
  lemma ExtractStable(buf: Text, more: Text)
    requires Extract(buf).Request?
    ensures Extract(buf + more) == Request(Extract(buf).raw, Extract(buf).rest + more)
  {
    FrameLengthStable(buf, more);
    CutStable(buf, more, FrameLength(buf));
  }

  // ---------- the stream as a sequence of requests ----------

  /** `raws` are the first requests framed off `stream`. */
  predicate Leads(stream: Text, raws: seq<Text>) {
    raws == [] ||
    (var x := Extract(stream);
     x.Request? && x.raw == raws[0] && Leads(x.rest, raws[1..]))
  }

  /** What is left of `stream` once `raws` have been framed off it. */
  function After(stream: Text, raws: seq<Text>): Text
    requires Leads(stream, raws)
  {
    if raws == [] then stream else After(Extract(stream).rest, raws[1..])
  }

  /** The framing of the whole stream: every complete request, up to one that wraps to no bytes. */
  function Frames(stream: Text): seq<Text>
    decreases |stream|
  {
    var x := Extract(stream);
    if x.Request? && x.raw != [] then
      ExtractConserves(stream);
      [x.raw] + Frames(x.rest)
    else []
  }

  lemma {:induction false} LeadsMore(stream: Text, more: Text, raws: seq<Text>)
    requires Leads(stream, raws)
    ensures Leads(stream + more, raws) && After(stream + more, raws) == After(stream, raws) + more
  {
    if raws != [] {
      ExtractStable(stream, more);
      LeadsMore(Extract(stream).rest, more, raws[1..]);
    }
  }

  lemma {:induction false} LeadsSnoc(stream: Text, raws: seq<Text>)
    requires Leads(stream, raws) && Extract(After(stream, raws)).Request?
    ensures var x := Extract(After(stream, raws));
            Leads(stream, raws + [x.raw]) && After(stream, raws + [x.raw]) == x.rest
  {
    var x := Extract(After(stream, raws));
    var all := raws + [x.raw];
    if raws == [] {
      assert all[1..] == [];
    } else {
      assert all[0] == raws[0] && all[1..] == raws[1..] + [x.raw];
      LeadsSnoc(Extract(stream).rest, raws[1..]);
    }
  }

  lemma {:induction false} LeadsPrefix(stream: Text, raws: seq<Text>, n: nat)
    requires Leads(stream, raws) && n <= |raws|
    ensures Leads(stream, raws[..n])
  {
    if n > 0 {
      assert raws[..n][0] == raws[0] && raws[..n][1..] == raws[1..][..n - 1];
      LeadsPrefix(Extract(stream).rest, raws[1..], n - 1);
    }
  }

  lemma {:induction false} LeadsConserves(stream: Text, raws: seq<Text>)
    requires Leads(stream, raws)
    ensures Flat(raws) + After(stream, raws) == stream
  {
    if raws != [] {
      ExtractConserves(stream);
      LeadsConserves(Extract(stream).rest, raws[1..]);
      assert Flat(raws) + After(stream, raws)
          == raws[0] + (Flat(raws[1..]) + After(Extract(stream).rest, raws[1..]));
    }
  }

  /** Framed requests are a prefix of the framing of the whole stream, and all of it exactly when
      nothing complete is left over. */
  lemma {:induction false} LeadsFrames(stream: Text, raws: seq<Text>)
    requires Leads(stream, raws) && [] !in raws
    ensures raws <= Frames(stream)
    ensures Frames(After(stream, raws)) == [] <==> raws == Frames(stream)
  {
    if raws != [] {
      var x := Extract(stream);
      LeadsFrames(x.rest, raws[1..]);
      assert Frames(stream) == [x.raw] + Frames(x.rest);
      assert raws == [raws[0]] + raws[1..];
      assert Frames(stream)[1..] == Frames(x.rest);
    }
  }

  /** Extracting again and again yields the whole framing; what is left holds no complete request, or
      starts with one whose length sum wraps to nothing. */
  lemma {:induction false} FramesLead(stream: Text)
    ensures Leads(stream, Frames(stream)) && [] !in Frames(stream)
    ensures var left := Extract(After(stream, Frames(stream))); left.Incomplete? || left.raw == []
    decreases |stream|
  {
    var x := Extract(stream);
    if x.Request? && x.raw != [] {
      ExtractConserves(stream);
      FramesLead(x.rest);
      assert Frames(stream)[1..] == Frames(x.rest);
    }
  }

  // ---------- appending and extracting, interleaved ----------

  /** What happens to a connection's read buffer: bytes arrive, or someone asks for a request. */
  datatype BufferOp = Arrive(data: Text) | Take

  datatype Feed = Feed(arrived: Text, taken: seq<Text>, buf: Text)

  function Play(ops: seq<BufferOp>): Feed {
    if ops == [] then Feed([], [], [])
    else
      var f := Play(ops[..|ops| - 1]);
      match ops[|ops| - 1]
      case Arrive(data) => f.(arrived := f.arrived + data, buf := f.buf + data)
      case Take =>
        match Extract(f.buf)
        case Incomplete => f
        case Request(raw, rest) => f.(taken := f.taken + [raw], buf := rest)
  }

  /** For every interleaving of arrivals and extractions, no byte is lost, duplicated or reordered,
      and the extracted requests lead the framing of all that arrived, however it was chunked. */
  lemma {:induction false} PlayConserves(ops: seq<BufferOp>)
    ensures var f := Play(ops);
            && Flat(f.taken) + f.buf == f.arrived
            && Leads(f.arrived, f.taken)
            && After(f.arrived, f.taken) == f.buf
  {
    if ops != [] {
      var f := Play(ops[..|ops| - 1]);
      PlayConserves(ops[..|ops| - 1]);
      match ops[|ops| - 1]
      case Arrive(data) =>
        LeadsMore(f.arrived, data, f.taken);
      case Take =>
        if Extract(f.buf).Request? {
          LeadsSnoc(f.arrived, f.taken);
        }
    }
    LeadsConserves(Play(ops).arrived, Play(ops).taken);
  }

  /** An empty request stays at the front of the buffer for ever. */
  lemma {:induction false} EmptyForEver(stream: Text, raws: seq<Text>, i: nat)
    requires Leads(stream, raws) && i < |raws|
    ensures raws[i] == [] ==> Extract(After(stream, raws)).Request? && Extract(After(stream, raws)).raw == []
    ensures raws[i] == [] ==> forall k :: i <= k < |raws| ==> raws[k] == []
    decreases |raws|
  {
    hide Extract;
    var x := Extract(stream);
    ExtractConserves(stream);
    if i > 0 {
      EmptyForEver(x.rest, raws[1..], i - 1);
      assert raws[i] == raws[1..][i - 1] && forall k :: i <= k < |raws| ==> raws[k] == raws[1..][k - 1];
    } else if raws[0] == [] {
      assert x.rest == stream;
      if |raws| > 1 {
        EmptyForEver(x.rest, raws[1..], 0);
        assert forall k :: 1 <= k < |raws| ==> raws[k] == raws[1..][k - 1];
      } else {
        assert After(stream, raws) == stream;
      }
    }
  }

  /** Framed requests are the framing of the whole stream as far as that goes; any beyond are empty. */
  lemma {:induction false} LeadsFramesAt(stream: Text, raws: seq<Text>, i: nat)
    requires Leads(stream, raws) && i < |raws|
    ensures raws[i] == if i < |Frames(stream)| then Frames(stream)[i] else []
    decreases |raws|
  {
    hide Extract;
    var x := Extract(stream);
    if x.raw == [] {
      EmptyForEver(stream, raws, 0);
    } else {
      assert Frames(stream) == [x.raw] + Frames(x.rest);
      if i > 0 {
        LeadsFramesAt(x.rest, raws[1..], i - 1);
      }
    }
  }

  /** Two runs over the same bytes agree on every request both have extracted, however the bytes
      were chunked and whenever extraction was tried: each is that of the framing of the whole
      stream, or empty beyond it. A run that has drained its buffer has all of the framing. */
  lemma ChunkingIrrelevant(ops: seq<BufferOp>, ops': seq<BufferOp>)
    requires Play(ops).arrived == Play(ops').arrived
    ensures forall i :: 0 <= i < |Play(ops).taken| ==>
              Play(ops).taken[i] == if i < |Frames(Play(ops).arrived)| then Frames(Play(ops).arrived)[i] else []
    ensures Extract(Play(ops).buf).Incomplete? ==>
              Play(ops).taken == Frames(Play(ops).arrived) && Play(ops').taken <= Play(ops).taken
    ensures Extract(Play(ops).buf).Incomplete? && Extract(Play(ops').buf).Incomplete? ==>
              Play(ops).taken == Play(ops').taken && Play(ops).buf == Play(ops').buf
  {
    hide Play, Extract;
    PlayFrames(ops);
    PlayFrames(ops');
    if Extract(Play(ops).buf).Incomplete? {
      TakenByOther(ops, ops');
    }
  }

  lemma PlayFrames(ops: seq<BufferOp>)
    ensures var f := Play(ops);
            && Leads(f.arrived, f.taken) && After(f.arrived, f.taken) == f.buf
            && (forall i :: 0 <= i < |f.taken| ==>
                  f.taken[i] == if i < |Frames(f.arrived)| then Frames(f.arrived)[i] else [])
            && (Extract(f.buf).Incomplete? ==> f.taken == Frames(f.arrived) && [] !in f.taken)
  {
    hide Play, Extract;
    var f := Play(ops);
    PlayConserves(ops);
    forall i | 0 <= i < |f.taken|
      ensures f.taken[i] == if i < |Frames(f.arrived)| then Frames(f.arrived)[i] else []
      ensures Extract(f.buf).Incomplete? ==> f.taken[i] != []
    {
      LeadsFramesAt(f.arrived, f.taken, i);
      EmptyForEver(f.arrived, f.taken, i);
    }
    if Extract(f.buf).Incomplete? {
      NothingMore(f.buf);
      LeadsFrames(f.arrived, f.taken);
    }
  }

  lemma NothingMore(buf: Text)
    requires Extract(buf).Incomplete?
    ensures Frames(buf) == []
  {
  }

  /** What another run over the same bytes has taken, a drained run has taken too. */
  lemma TakenByOther(ops: seq<BufferOp>, ops': seq<BufferOp>)
    requires Play(ops).arrived == Play(ops').arrived && Extract(Play(ops).buf).Incomplete?
    ensures Play(ops').taken <= Frames(Play(ops).arrived)
    ensures Extract(Play(ops').buf).Incomplete? ==> Play(ops).buf == Play(ops').buf
  {
    hide Play, Extract;
    PlayFrames(ops);
    PlayFrames(ops');
    var f := Play(ops');
    forall i | 0 <= i < |f.taken| ensures f.taken[i] != [] {
      DrainedHasNone(f.arrived, Play(ops).taken, f.taken, i);
    }
    LeadsFrames(f.arrived, f.taken);
  }

  /** If some extraction of a stream ends with nothing complete left, no extraction of it meets an
      empty request. */
  lemma {:induction false} DrainedHasNone(stream: Text, all: seq<Text>, raws: seq<Text>, i: nat)
    requires Leads(stream, all) && Extract(After(stream, all)).Incomplete?
    requires Leads(stream, raws) && i < |raws|
    ensures raws[i] != []
    decreases |raws|
  {
    var x := Extract(stream);
    assert all != [];
    if x.raw == [] {
      EmptyForEver(stream, all, 0);
    } else if i > 0 {
      DrainedHasNone(x.rest, all[1..], raws[1..], i - 1);
    }
  }

  /** A frame is empty exactly when the announced length wraps the sum to zero; every other
      extraction shortens the buffer, so draining it ends. */
  lemma EmptyFrame(buf: Text)
    requires Extract(buf).Request?
    requires HeaderEnd(buf) < SIZE_MODULUS
    ensures Extract(buf).raw == [] <==> HeaderEnd(buf) + BodyLength(buf) == SIZE_MODULUS
    ensures |Extract(buf).rest| < |buf| <==> HeaderEnd(buf) + BodyLength(buf) != SIZE_MODULUS
  {
    ExtractWhole(buf);
  }
}
