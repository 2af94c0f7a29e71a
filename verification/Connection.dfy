/** One client connection: the read buffer requests are cut from, and the two-segment write cursor
    that sends a header and then a mapped file. */
module Connections {
  import opened Bytes
  import opened Framing

  /** The fields of a connection, as a value. */
  datatype Conn = Conn(
    readBuf: Text,
    writeBuf: Text,
    file: Option<Text>,
    writeOffset: nat,
    fileOffset: nat,
    writeReady: bool,
    closeAfterWrite: bool,
    processing: bool,
    closed: bool)

  const FRESH := Conn([], [], None, 0, 0, false, false, false, false)

  function FileSize(c: Conn): nat {
    if c.file.Some? then |c.file.value| else 0
  }

  /** Both offsets stay in bounds, and the file cursor moves only once the header is out. */
  predicate Cursor(c: Conn) {
    && c.writeOffset <= |c.writeBuf|
    && c.fileOffset <= FileSize(c)
    && (c.fileOffset > 0 ==> c.writeOffset == |c.writeBuf|)
  }

  function HeaderLeft(c: Conn): Text
    requires Cursor(c)
  {
    c.writeBuf[c.writeOffset..]
  }

  function FileLeft(c: Conn): Text
    requires Cursor(c)
  {
    if c.file.Some? then c.file.value[c.fileOffset..] else []
  }

  /** The bytes still to be sent: rest of the header, then rest of the file. */
  function Unsent(c: Conn): Text
    requires Cursor(c)
  {
    HeaderLeft(c) + FileLeft(c)
  }

  predicate HasWriteData(c: Conn) {
    c.writeOffset < |c.writeBuf| || (c.file.Some? && c.fileOffset < |c.file.value|)
  }

  function AppendRead(c: Conn, data: Text): Conn {
    c.(readBuf := c.readBuf + data)
  }

  function SetText(c: Conn, data: Text): Conn {
    c.(writeBuf := data, writeOffset := 0, fileOffset := 0, file := None, writeReady := data != [])
  }

  function SetMapped(c: Conn, header: Text, file: Text): Conn {
    c.(writeBuf := header, writeOffset := 0, fileOffset := 0, file := Some(file),
       writeReady := header != [] || file != [])
  }

  /** `consumeWriteData`: `n` bytes come off the header first, what is left of `n` off the file. */
  function Consume(c: Conn, n: nat): Conn
    requires Cursor(c)
  {
    var fromHeader := if n < |HeaderLeft(c)| then n else |HeaderLeft(c)|;
    var left := n - fromHeader;
    var fromFile := if left < |FileLeft(c)| then left else |FileLeft(c)|;
    c.(writeOffset := c.writeOffset + fromHeader, fileOffset := c.fileOffset + fromFile)
  }

  function ClearWrite(c: Conn): Conn {
    c.(writeBuf := [], file := None, writeOffset := 0, fileOffset := 0)
  }

  /** Loading a response leaves all of it, and nothing else, to be sent. */
  lemma LoadedUnsent(c: Conn, text: Text, file: Text)
    ensures Cursor(SetText(c, text)) && Unsent(SetText(c, text)) == text
    ensures Cursor(SetMapped(c, text, file)) && Unsent(SetMapped(c, text, file)) == text + file
    ensures SetText(c, text).writeReady <==> Unsent(SetText(c, text)) != []
    ensures SetMapped(c, text, file).writeReady <==> Unsent(SetMapped(c, text, file)) != []
    ensures Cursor(ClearWrite(c)) && Unsent(ClearWrite(c)) == []
  {
    assert text[0..] == text && file[0..] == file;
  }

  /** The vectors handed to `writev`. */
  function Gather(c: Conn): seq<Text>
    requires Cursor(c)
  {
    (if HeaderLeft(c) != [] then [HeaderLeft(c)] else []) +
    (if FileLeft(c) != [] then [FileLeft(c)] else [])
  }

  lemma GatherIsUnsent(c: Conn)
    requires Cursor(c)
    ensures Flat(Gather(c)) == Unsent(c)
    ensures HasWriteData(c) <==> Unsent(c) != []
    ensures HasWriteData(c) <==> Gather(c) != []
  {
    FlatConcat(if HeaderLeft(c) != [] then [HeaderLeft(c)] else [],
               if FileLeft(c) != [] then [FileLeft(c)] else []);
    FlatSnoc([], HeaderLeft(c));
    FlatSnoc([], FileLeft(c));
  }

  /** Whatever part of the unsent bytes the kernel takes, the cursor ends on exactly the rest. */
  lemma ConsumeDrops(c: Conn, n: nat)
    requires Cursor(c) && n <= |Unsent(c)|
    ensures Cursor(Consume(c, n))
    ensures Unsent(Consume(c, n)) == Unsent(c)[n..]
  {
    var header, file, c' := HeaderLeft(c), FileLeft(c), Consume(c, n);
    if n <= |header| {
      assert HeaderLeft(c') == header[n..];
      assert FileLeft(c') == file;
      assert (header + file)[n..] == header[n..] + file;
    } else {
      assert HeaderLeft(c') == [];
      assert FileLeft(c') == file[n - |header|..];
      assert (header + file)[n..] == file[n - |header|..];
    }
  }

  /** The bytes the kernel has taken so far and the connection they leave. */
  datatype Progress = Progress(taken: Text, conn: Conn)

  /** One `writev` over the gathered segments, of which the kernel takes `n` bytes. */
  function Write(p: Progress, n: nat): (r: Progress)
    requires Cursor(p.conn) && n <= |Unsent(p.conn)|
    ensures Cursor(r.conn)
  {
    GatherIsUnsent(p.conn);
    ConsumeDrops(p.conn, n);
    Progress(p.taken + Flat(Gather(p.conn))[..n], Consume(p.conn, n))
  }

  /** A run of `writev` calls against the kernel's answers `ns`, where 0 stands for "would block",
      after which the write is resumed; `None` if the kernel claims more bytes than it was offered. */
  function Send(c: Conn, ns: seq<nat>): (r: Option<Progress>)
    requires Cursor(c)
    ensures r.Some? ==> Cursor(r.value.conn)
  {
    if ns == [] then Some(Progress([], c))
    else
      var p := Send(c, ns[..|ns| - 1]);
      if p.Some? && ns[|ns| - 1] <= |Unsent(p.value.conn)| then Some(Write(p.value, ns[|ns| - 1]))
      else None
  }

  function Total(ns: seq<nat>): nat {
    if ns == [] then 0 else Total(ns[..|ns| - 1]) + ns[|ns| - 1]
  }

  lemma WriteExactly(p: Progress, n: nat)
    requires Cursor(p.conn) && n <= |Unsent(p.conn)|
    ensures var r := Write(p, n);
            && r.taken == p.taken + Unsent(p.conn)[..n]
            && Unsent(r.conn) == Unsent(p.conn)[n..]
            && r.taken + Unsent(r.conn) == p.taken + Unsent(p.conn)
  {
    hide Consume, Gather, HeaderLeft, FileLeft, Unsent, Flat, Cursor;
    GatherIsUnsent(p.conn);
    ConsumeDrops(p.conn, n);
    assert Unsent(p.conn)[..n] + Unsent(p.conn)[n..] == Unsent(p.conn);
  }

  /** For every sequence of partial counts and resumptions: bytes taken followed by bytes left are
      the header followed by the file, each sent once; and there is write data left exactly as long
      as bytes are missing. */
  lemma {:induction false} SentExactly(c: Conn, ns: seq<nat>)
    requires Cursor(c) && Send(c, ns).Some?
    ensures var p := Send(c, ns).value;
            && p.taken + Unsent(p.conn) == Unsent(c)
            && |p.taken| == Total(ns)
            && (HasWriteData(p.conn) <==> Total(ns) < |Unsent(c)|)
  {
    if ns != [] {
      var p := Send(c, ns[..|ns| - 1]).value;
      SentExactly(c, ns[..|ns| - 1]);
      WriteExactly(p, ns[|ns| - 1]);
    }
    GatherIsUnsent(Send(c, ns).value.conn);
  }

  lemma {:induction false} SendPrefix(c: Conn, ns: seq<nat>, k: nat)
    requires Cursor(c) && Send(c, ns).Some? && k <= |ns|
    ensures Send(c, ns[..k]).Some?
    decreases |ns|
  {
    if k < |ns| {
      assert ns[..|ns| - 1][..k] == ns[..k];
      SendPrefix(c, ns[..|ns| - 1], k);
    } else {
      assert ns[..k] == ns;
    }
  }

  class Connection {
    var readBuf: Text
    var writeBuf: Text
    var mappedFile: Option<Text>
    var writeOffset: nat
    var fileOffset: nat
    var writeReady: bool
    var closeAfterWrite: bool
    var processing: bool
    var closed: bool

    function View(): Conn
      reads this
    {
      Conn(readBuf, writeBuf, mappedFile, writeOffset, fileOffset, writeReady, closeAfterWrite,
           processing, closed)
    }

    ghost predicate Valid()
      reads this
    {
      Cursor(View())
    }

    constructor ()
      ensures Valid() && View() == FRESH
    {
      readBuf, writeBuf, mappedFile := [], [], None;
      writeOffset, fileOffset := 0, 0;
      writeReady, closeAfterWrite, processing, closed := false, false, false, false;
    }

    method AppendReadData(data: Text)
      requires Valid()
      modifies `readBuf
      ensures Valid() && View() == AppendRead(old(View()), data)
    {
      readBuf := readBuf + data;
    }

    static method ParseContentLength(headersText: Text) returns (length: nat)
      ensures length == AnnouncedLength(headersText)
    {
      var lowered := Lower(headersText);
      var pos := Find(lowered, LENGTH_KEY, 0);
      if pos == -1 {
        return 0;
      }
      pos := pos + |LENGTH_KEY|;
      ghost var start := pos;
      while pos < |lowered| && (lowered[pos] == ' ' || lowered[pos] == '\t')
        invariant start <= pos <= |lowered|
        invariant forall i :: start <= i < pos ==> IsBlank(lowered[i])
      {
        pos := pos + 1;
      }
      SpanEndIs(lowered, start, IsBlank, pos);
      var end := pos;
      while end < |lowered| && IsDigit(lowered[end])
        invariant pos <= end <= |lowered|
        invariant forall i :: pos <= i < end ==> IsDigit(lowered[i])
      {
        end := end + 1;
      }
      SpanEndIs(lowered, pos, IsDigit, end);
      if end == pos || Value(lowered[pos..end]) >= SIZE_MODULUS {
        return 0;
      }
      return Value(lowered[pos..end]);
    }

    method ExtractOneRequest() returns (ok: bool, rawRequest: Text)
      requires Valid()
      modifies `readBuf
      ensures Valid()
      ensures match Extract(old(readBuf))
              case Incomplete => !ok && View() == old(View())
              case Request(raw, rest) =>
                ok && rawRequest == raw && View() == old(View()).(readBuf := rest)
    {
      rawRequest := [];
      var headerEnd := Find(readBuf, BLANK, 0);
      if headerEnd == -1 {
        return false, rawRequest;
      }
      var headersLen := headerEnd + 4;
      assert headersLen == HeaderEnd(readBuf);
      var contentLength := ParseContentLength(readBuf[..headersLen]);
      assert contentLength == BodyLength(readBuf);
      var totalLen := AddSizes(headersLen, contentLength);
      assert totalLen == FrameLength(readBuf);
      if |readBuf| < totalLen {
        return false, rawRequest;
      }
      rawRequest := readBuf[..totalLen];
      readBuf := readBuf[totalLen..];
      ok := true;
    }

    method AppendWriteData(data: Text)
      modifies `writeBuf, `writeOffset, `fileOffset, `mappedFile, `writeReady
      ensures Valid() && View() == SetText(old(View()), data)
    {
      writeBuf := data;
      writeOffset := 0;
      fileOffset := 0;
      mappedFile := None;
      writeReady := |writeBuf| != 0;
    }

    method SetMappedWriteData(header: Text, file: Text)
      modifies `writeBuf, `writeOffset, `fileOffset, `mappedFile, `writeReady
      ensures Valid() && View() == SetMapped(old(View()), header, file)
    {
      writeBuf := header;
      writeOffset := 0;
      fileOffset := 0;
      mappedFile := Some(file);
      writeReady := HasWriteData(View());
    }

    method ConsumeWriteData(bytes: nat)
      requires Valid()
      modifies `writeOffset, `fileOffset
      ensures Valid() && View() == Consume(old(View()), bytes)
    {
      var headerRemaining := |writeBuf| - writeOffset;
      var headerConsumed := if bytes < headerRemaining then bytes else headerRemaining;
      writeOffset := writeOffset + headerConsumed;
      var left := bytes - headerConsumed;
      if left > 0 && mappedFile.Some? {
        var fileRemaining := |mappedFile.value| - fileOffset;
        fileOffset := fileOffset + (if left < fileRemaining then left else fileRemaining);
      }
    }

    method ClearWriteData()
      modifies `writeBuf, `mappedFile, `writeOffset, `fileOffset
      ensures Valid() && View() == ClearWrite(old(View()))
    {
      writeBuf := [];
      mappedFile := None;
      writeOffset := 0;
      fileOffset := 0;
    }

    method GatherSegments() returns (iov: seq<Text>)
      requires Valid()
      ensures iov == Gather(View())
    {
      iov := [];
      if writeOffset < |writeBuf| {
        iov := iov + [writeBuf[writeOffset..]];
      }
      if mappedFile.Some? && fileOffset < |mappedFile.value| {
        iov := iov + [mappedFile.value[fileOffset..]];
      }
    }

    /** The gathering write loop of `handleWrite`, against what the kernel answers to one `writev` after
        the other. It does not start on a connection that is closed or has nothing to send, goes on
        while bytes are taken and left, and stops where the kernel would block or fails; taking no bytes
        at all counts as a failure. */
    method WriteOut(answers: seq<KernelAnswer>) returns (taken: Text, used: nat, end: WriteEnd)
      requires Valid() && Send(View(), Counts(answers)).Some?
      modifies `writeOffset, `fileOffset
      ensures Valid() && used <= |answers|
      ensures Send(old(View()), Counts(answers)[..used]) == Some(Progress(taken, View()))
      ensures taken + Unsent(View()) == Unsent(old(View()))
      ensures closed ==> used == 0 && end == Emptied
      ensures forall i :: 0 <= i < used - 1 ==> answers[i].Took? && answers[i].n > 0
      ensures match end
              case Emptied => closed || !HasWriteData(View())
              case Suspended => HasWriteData(View()) && used > 0 && answers[used - 1] == Blocks
              case Broken =>
                HasWriteData(View()) && used > 0 &&
                (answers[used - 1] == Breaks || answers[used - 1] == Took(0))
              case Unanswered => HasWriteData(View()) && used == |answers|
    {
      hide Send, Consume, Gather, Flat, HeaderLeft, FileLeft, Unsent, HasWriteData;
      taken, used := [], 0;
      ghost var start, ns := View(), Counts(answers);
      SendNothing(start, ns);
      while !closed && HasWriteData(View())
        invariant Valid() && used <= |answers|
        invariant Send(start, ns[..used]) == Some(Progress(taken, View()))
        invariant closed ==> used == 0
        invariant forall i :: 0 <= i < used ==> answers[i].Took? && answers[i].n > 0
        decreases |answers| - used
      {
        if used == |answers| {
          SentExactly(start, ns[..used]);
          return taken, used, Unanswered;
        }
        var iov := GatherSegments();
        SendStep(start, ns, used, Progress(taken, View()));
        if answers[used].Took? && answers[used].n > 0 {
          taken := taken + Flat(iov)[..answers[used].n];
          ConsumeWriteData(answers[used].n);
          used := used + 1;
        } else {
          StopHere(start, ns, used, Progress(taken, View()));
          SentExactly(start, ns[..used]);
          return taken, used + 1, if answers[used] == Blocks then Suspended else Broken;
        }
      }
      SentExactly(start, ns[..used]);
      end := Emptied;
    }
  }

  /** What `writev` answers: some bytes taken, "would block", or a failure. */
  datatype KernelAnswer = Took(n: nat) | Blocks | Breaks

  /** How the loop ends: nothing is left or the connection is closed, the kernel would block, it
      failed, or its next answer is not there yet. */
  datatype WriteEnd = Emptied | Suspended | Broken | Unanswered

  /** The bytes each answer takes. */
  function Counts(answers: seq<KernelAnswer>): (ns: seq<nat>)
    ensures |ns| == |answers|
    ensures forall i :: 0 <= i < |answers| ==> ns[i] == if answers[i].Took? then answers[i].n else 0
  {
    seq(|answers|, i requires 0 <= i < |answers| => if answers[i].Took? then answers[i].n else 0)
  }

  lemma SendNothing(c: Conn, ns: seq<nat>)
    requires Cursor(c)
    ensures Send(c, ns[..0]) == Some(Progress([], c))
  {
  }

  /** An answer that takes nothing leaves the connection as it was. */
  lemma StopHere(c: Conn, ns: seq<nat>, k: nat, p: Progress)
    requires Cursor(c) && Send(c, ns).Some? && k < |ns| && ns[k] == 0
    requires Send(c, ns[..k]) == Some(p)
    ensures Send(c, ns[..k + 1]) == Some(p)
  {
    SendStep(c, ns, k, p);
    assert Consume(p.conn, 0) == p.conn;
    assert p.taken + [] == p.taken;
  }

  lemma SendStep(c: Conn, ns: seq<nat>, k: nat, p: Progress)
    requires Cursor(c) && Send(c, ns).Some? && k < |ns|
    requires Send(c, ns[..k]) == Some(p)
    ensures ns[k] <= |Unsent(p.conn)| == |Flat(Gather(p.conn))|
    ensures Send(c, ns[..k + 1]) ==
            Some(Progress(p.taken + Flat(Gather(p.conn))[..ns[k]], Consume(p.conn, ns[k])))
    ensures ns[k] == 0 ==> HasWriteData(Consume(p.conn, 0)) == HasWriteData(p.conn)
  {
    SendPrefix(c, ns, k + 1);
    assert ns[..k + 1][..k] == ns[..k];
    GatherIsUnsent(p.conn);
  }
}
