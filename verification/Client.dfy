/** The repository's own client, the receiving side of the stress test: one call reads one response
    and throws away whatever else it has received. */
module Clients {
  import opened Bytes
  import opened Framing
  import opened HttpResponses

  // ---------- one call ----------

  /** What has been received decides the call: a whole response, or a length that is no number. */
  predicate Settled(data: Text) {
    var end := HeaderEnd(data);
    end != -1 &&
    match PeerLength(Split(data[..end], CRLF))
    case None => true
    case Some(n) => |data| - end >= n
  }

  lemma SettledStable(data: Text, more: Text)
    requires Settled(data)
    ensures Settled(data + more) && Decode(data + more) == Decode(data)
  {
    hide PeerLength, Split, Find;
    HeaderEndStable(data, more);
    if Decode(data).Response? {
      DecodeStable(data, more);
    }
  }

  /** Undecided data is no response, and a response covers a part of what was received. */
  lemma SettledDecodes(data: Text)
    ensures !Settled(data) ==> Decode(data) == Failed
    ensures Decode(data).Response? ==> Decode(data).headers + Decode(data).body <= data
    ensures !Settled([])
  {
  }

  /** How many of the chunks a socket delivers one call takes: as few as decide it. */
  function Taken(chunks: seq<Text>, k: nat): (used: nat)
    requires k <= |chunks|
    ensures k <= used <= |chunks|
    ensures forall j :: k <= j < used ==> !Settled(Flat(chunks[..j]))
    ensures used < |chunks| ==> Settled(Flat(chunks[..used]))
    decreases |chunks| - k
  {
    if k == |chunks| || Settled(Flat(chunks[..k])) then k else Taken(chunks, k + 1)
  }

  lemma TakenIs(chunks: seq<Text>, k: nat, used: nat)
    requires k <= used <= |chunks|
    requires forall j :: k <= j < used ==> !Settled(Flat(chunks[..j]))
    requires used == |chunks| || Settled(Flat(chunks[..used]))
    ensures Taken(chunks, k) == used
  {
  }

  /** The header scan of the client. */
  method ScanHeaders(headers: Text) returns (length: Option<nat>)
    ensures length == PeerLength(Split(headers, CRLF))
  {
    var lines := Split(headers, CRLF);
    var i := 0;
    while i < |lines|
      invariant 0 <= i <= |lines|
      invariant PeerLength(lines[i..]) == PeerLength(lines)
    {
      assert lines[i..][0] == lines[i] && lines[i..][1..] == lines[i + 1..];
      if StartsWithKey(lines[i]) {
        return Number(Trim(lines[i][|LENGTH_KEY|..]));
      }
      i := i + 1;
    }
    return Some(0);
  }

  lemma FlatTail(chunks: seq<Text>, i: nat)
    requires i < |chunks|
    ensures Flat(chunks[..i + 1]) == Flat(chunks[..i]) + chunks[i]
  {
    assert chunks[..i + 1] == chunks[..i] + [chunks[i]];
    FlatSnoc(chunks[..i], chunks[i]);
  }

  lemma FlatCut(chunks: seq<Text>, i: nat)
    requires i <= |chunks|
    ensures Flat(chunks) == Flat(chunks[..i]) + Flat(chunks[i..])
    ensures i == |chunks| ==> Flat(chunks) == Flat(chunks[..i])
  {
    FlatConcat(chunks[..i], chunks[i..]);
    assert chunks[..i] + chunks[i..] == chunks;
  }

  /** The first loop: grow the data until it holds a blank line, and no further. */
  method RecvHeaders(chunks: seq<Text>) returns (data: Text, used: nat)
    ensures used <= |chunks| && data == Flat(chunks[..used])
    ensures HeaderEnd(data) == -1 ==> used == |chunks|
    ensures forall j :: 0 <= j < used ==> HeaderEnd(Flat(chunks[..j])) == -1
  {
    hide Flat;
    data, used := [], 0;
    FlatNothing(chunks);
    while Find(data, BLANK, 0) == -1 && used < |chunks|
      invariant 0 <= used <= |chunks| && data == Flat(chunks[..used])
      invariant forall j :: 0 <= j < used ==> HeaderEnd(Flat(chunks[..j])) == -1
      decreases |chunks| - used
    {
      FlatTail(chunks, used);
      data := data + chunks[used];
      used := used + 1;
    }
  }

  lemma FlatNothing(chunks: seq<Text>)
    ensures Flat(chunks[..0]) == []
  {
  }

  /** The second loop: grow the body until it has `length` bytes, and no further. */
  method RecvBody(chunks: seq<Text>, start: nat, headers: Text, first: Text, length: nat)
    returns (body: Text, used: nat)
    requires start <= |chunks| && headers + first == Flat(chunks[..start])
    ensures start <= used <= |chunks| && headers + body == Flat(chunks[..used])
    ensures |body| < length ==> used == |chunks|
    ensures forall j :: start <= j < used ==> |Flat(chunks[..j])| < |headers| + length
  {
    hide Flat;
    body, used := first, start;
    while |body| < length && used < |chunks|
      invariant start <= used <= |chunks| && headers + body == Flat(chunks[..used])
      invariant forall j :: start <= j < used ==> |Flat(chunks[..j])| < |headers| + length
      decreases |chunks| - used
    {
      FlatTail(chunks, used);
      assert headers + (body + chunks[used]) == headers + body + chunks[used];
      body := body + chunks[used];
      used := used + 1;
    }
  }

  /** A stretch of chunks with the header block in it but too little body does not decide the call. */
  lemma TooShort(chunks: seq<Text>, start: nat, j: nat, headers: Text, n: nat)
    requires start <= j <= |chunks| && headers <= Flat(chunks[..start]) && HeaderEnd(headers) == |headers|
    requires PeerLength(Split(headers, CRLF)) == Some(n) && |Flat(chunks[..j])| < |headers| + n
    ensures !Settled(Flat(chunks[..j]))
  {
    hide Flat, Find, PeerLength, Split;
    FlatBetween(chunks, start, j);
    var data := Flat(chunks[..j]);
    HeaderEndStable(headers, data[|headers|..]);
    assert headers + data[|headers|..] == data;
    assert data[..|headers|] == headers == headers[..|headers|];
  }

  lemma FlatBetween(chunks: seq<Text>, i: nat, j: nat)
    requires i <= j <= |chunks|
    ensures Flat(chunks[..i]) <= Flat(chunks[..j])
    ensures Flat(chunks[..j]) == Flat(chunks[..i]) + Flat(chunks[i..j])
  {
    FlatConcat(chunks[..i], chunks[i..j]);
    assert chunks[..i] + chunks[i..j] == chunks[..j];
  }

  /** `recv_response` over the chunks a socket delivers: whatever the chunking, it returns what
      decoding the whole stream gives, it fails only if the stream ends too early or announces no
      number, and it takes the fewest chunks that decide it. */
  method RecvResponse(chunks: seq<Text>) returns (r: Received, used: nat)
    ensures r == Decode(Flat(chunks)) && used == Taken(chunks, 0)
  {
    hide Flat, Decode, PeerLength, Split, Find;
    var data;
    data, used := RecvHeaders(chunks);
    FlatCut(chunks, used);
    var headerEnd := HeaderEnd(data);
    if headerEnd == -1 {
      TakenIs(chunks, 0, used);
      SettledDecodes(data);
      return Failed, used;
    }
    var headers, first := data[..headerEnd], data[headerEnd..];
    assert data == headers + first;
    HeaderEndOfPrefix(data, headerEnd);
    HeaderEndStable(data, Flat(chunks[used..]));
    var length := ScanHeaders(headers);
    if length == None {
      TakenIs(chunks, 0, used);
      SettledStable(data, Flat(chunks[used..]));
      NoNumberFails(data);
      return Failed, used;
    }
    var body, start := first, used;
    body, used := RecvBody(chunks, used, headers, first, length.value);
    FlatCut(chunks, used);
    forall j | start <= j < used ensures !Settled(Flat(chunks[..j])) {
      TooShort(chunks, start, j, headers, length.value);
    }
    HeaderEndStable(headers, body);
    assert (headers + body)[..headerEnd] == headers;
    TakenIs(chunks, 0, used);
    if |body| < length.value {
      DecodeShort(headers, body, length.value);
      return Failed, used;
    }
    DecodeLong(headers, body, Flat(chunks[used..]), length.value);
    return Response(headers, body[..length.value]), used;
  }

  lemma NoNumberFails(data: Text)
    requires HeaderEnd(data) != -1 && PeerLength(Split(data[..HeaderEnd(data)], CRLF)) == None
    ensures Settled(data) && Decode(data) == Failed
  {
  }

  // ---------- one call after the other ----------

  /** One call: what it returns, and the chunks that are left for the next. Bytes of its last chunk
      that it does not need are gone. */
  function Call(chunks: seq<Text>): (Received, seq<Text>) {
    (Decode(Flat(chunks)), chunks[Taken(chunks, 0)..])
  }

  /** `n` successive calls on one socket; `None` if one of them fails. */
  function Calls(chunks: seq<Text>, n: nat): (got: Option<seq<Received>>)
    ensures got.Some? ==> |got.value| == n
  {
    if n == 0 then Some([])
    else
      var (r, rest) := Call(chunks);
      var later := Calls(rest, n - 1);
      if r.Failed? || later.None? then None else Some([r] + later.value)
  }

  /** What the calls made so far leave for the later ones to decide. */
  predicate CallsFrom(got: Option<seq<Received>>, before: seq<Received>, chunks: seq<Text>, n: nat) {
    var later := Calls(chunks, n);
    got == if later.None? then None else Some(before + later.value)
  }

  lemma CallsStart(chunks: seq<Text>, n: nat)
    ensures CallsFrom(Calls(chunks, n), [], chunks, n)
  {
    if Calls(chunks, n).Some? {
      assert [] + Calls(chunks, n).value == Calls(chunks, n).value;
    }
  }

  lemma Regroup(before: seq<Received>, r: Received, later: seq<Received>)
    ensures before + ([r] + later) == before + [r] + later
  {
  }

  lemma CallsOn(got: Option<seq<Received>>, before: seq<Received>, chunks: seq<Text>, n: nat)
    requires n > 0 && CallsFrom(got, before, chunks, n)
    ensures var (r, rest) := Call(chunks);
            if r.Failed? then got == None else CallsFrom(got, before + [r], rest, n - 1)
  {
    hide Decode, Taken, Flat, Settled, Call;
    var (r, rest) := Call(chunks);
    var later := Calls(rest, n - 1);
    if r.Response? && later.Some? {
      Regroup(before, r, later.value);
    }
  }

  lemma CallsEnd(got: Option<seq<Received>>, before: seq<Received>, chunks: seq<Text>)
    requires CallsFrom(got, before, chunks, 0)
    ensures got == Some(before)
  {
    assert before + [] == before;
  }

  /** The keep-alive loop of the stress test, as far as it receives. */
  method RecvMany(chunks: seq<Text>, n: nat) returns (got: Option<seq<Received>>)
    ensures got == Calls(chunks, n)
  {
    hide Decode, Taken, Calls, CallsFrom;
    var left, responses := chunks, [];
    CallsStart(chunks, n);
    for i := 0 to n
      invariant CallsFrom(Calls(chunks, n), responses, left, n - i)
    {
      var r, used := RecvResponse(left);
      CallsOn(Calls(chunks, n), responses, left, n - i);
      if r.Failed? {
        return None;
      }
      responses, left := responses + [r], left[used..];
    }
    CallsEnd(Calls(chunks, n), responses, left);
    return Some(responses);
  }

  // ---------- what n calls on a stream of responses return ----------

  ghost predicate AllSelfDelimiting(wires: seq<Text>) {
    forall w :: w in wires ==> SelfDelimiting(w)
  }

  /** The calls returned exactly these responses. */
  predicate Returned(got: Option<seq<Received>>, wires: seq<Text>) {
    && got.Some? && |got.value| == |wires|
    && forall i :: 0 <= i < |wires| ==>
         got.value[i].Response? && got.value[i].headers + got.value[i].body == wires[i]
  }

  /** Some chunk ends where `t` does. */
  ghost predicate AtChunkEnd(chunks: seq<Text>, t: Text) {
    exists k :: 0 <= k <= |chunks| && Flat(chunks[..k]) == t
  }

  /** Every response ends where some chunk does. */
  ghost predicate EndsAtChunks(chunks: seq<Text>, wires: seq<Text>) {
    forall i :: 0 <= i <= |wires| ==> AtChunkEnd(chunks, Flat(wires[..i]))
  }

  /** A decided beginning of a response is all of it. */
  lemma SettledPart(part: Text, wire: Text)
    requires SelfDelimiting(wire) && Settled(part) && part <= wire
    ensures part == wire
  {
    hide Decode, Settled;
    SettledStable(part, wire[|part|..]);
    assert part + wire[|part|..] == wire;
    SettledDecodes(part);
  }

  /** If the response at the front ends where a chunk does, one call takes exactly its chunks. */
  lemma CallTakesOne(chunks: seq<Text>, wire: Text, rest: Text)
    requires SelfDelimiting(wire) && Flat(chunks) == wire + rest && AtChunkEnd(chunks, wire)
    ensures var t := Taken(chunks, 0); Flat(chunks[..t]) == wire && Flat(chunks[t..]) == rest
    ensures Call(chunks).0 == Decode(wire)
  {
    hide Decode, Settled, Flat;
    var k :| 0 <= k <= |chunks| && Flat(chunks[..k]) == wire;
    var t := Taken(chunks, 0);
    SettledWire(wire);
    assert t <= k;
    FlatBetween(chunks, t, k);
    if t < |chunks| {
      SettledPart(Flat(chunks[..t]), wire);
    }
    FlatCut(chunks, t);
    SettledStable(wire, rest);
    Cancel(Flat(chunks[..t]), Flat(chunks[t..]), wire, rest);
  }

  lemma Cancel(a: Text, b: Text, c: Text, d: Text)
    requires a + b == c + d && |a| == |c|
    ensures a == c && b == d
  {
    assert (a + b)[..|a|] == a && (c + d)[..|a|] == c;
    assert (a + b)[|a|..] == b && (c + d)[|a|..] == d;
  }

  lemma SettledWire(wire: Text)
    requires SelfDelimiting(wire)
    ensures Settled(wire)
  {
    hide Decode, Settled;
    SettledDecodes(wire);
  }

  lemma FlatLater(chunks: seq<Text>, t: nat, k: nat)
    requires t <= |chunks| && k <= |chunks|
    ensures |Flat(chunks[..k])| > |Flat(chunks[..t])| ==> k > t
    ensures k >= t ==> Flat(chunks[..k]) == Flat(chunks[..t]) + Flat(chunks[t..][..k - t])
  {
    hide Flat;
    if k >= t {
      FlatBetween(chunks, t, k);
      assert chunks[t..][..k - t] == chunks[t..k];
    } else {
      FlatBetween(chunks, k, t);
    }
  }

  lemma FlatFront(wires: seq<Text>, i: nat)
    requires 1 <= i <= |wires|
    ensures Flat(wires[..i]) == wires[0] + Flat(wires[1..][..i - 1])
  {
    assert wires[..i][0] == wires[0] && wires[..i][1..] == wires[1..][..i - 1];
  }

  lemma FlatFirst(wires: seq<Text>)
    requires wires != []
    ensures Flat(wires) == wires[0] + Flat(wires[1..])
    ensures forall i :: 1 <= i <= |wires| ==> Flat(wires[..i]) == wires[0] + Flat(wires[1..][..i - 1])
    ensures Flat(wires[..1]) == wires[0]
  {
    hide Flat;
    forall i | 1 <= i <= |wires| ensures Flat(wires[..i]) == wires[0] + Flat(wires[1..][..i - 1]) {
      FlatFront(wires, i);
    }
    FlatFront(wires, 1);
    FlatFront(wires, |wires|);
    assert wires[..|wires|] == wires && wires[1..][..|wires| - 1] == wires[1..];
    FlatNone(wires[1..]);
  }

  /** The chunk ends of a stream, after the chunks of its first response. */
  lemma EndsShift(chunks: seq<Text>, t: nat, wires: seq<Text>)
    requires wires != [] && t <= |chunks| && Flat(chunks[..t]) == wires[0] && AllSelfDelimiting(wires)
    ensures EndsAtChunks(chunks, wires) <==> EndsAtChunks(chunks[t..], wires[1..])
  {
    hide Flat, SelfDelimiting;
    var later, rest := wires[1..], chunks[t..];
    FlatFirst(wires);
    if EndsAtChunks(chunks, wires) {
      forall i | 0 <= i <= |later| ensures AtChunkEnd(rest, Flat(later[..i])) {
        assert AtChunkEnd(chunks, Flat(wires[..i + 1]));
        var k :| 0 <= k <= |chunks| && Flat(chunks[..k]) == Flat(wires[..i + 1]);
        EndShifts(chunks, t, k, wires[0], Flat(later[..i]));
      }
    }
    if EndsAtChunks(rest, later) {
      forall i | 0 <= i <= |wires| ensures AtChunkEnd(chunks, Flat(wires[..i])) {
        if i == 0 {
          FlatNone(wires);
          FlatNothing(chunks);
        } else {
          assert AtChunkEnd(rest, Flat(later[..i - 1]));
          var k :| 0 <= k <= |rest| && Flat(rest[..k]) == Flat(later[..i - 1]);
          FlatLater(chunks, t, t + k);
          assert Flat(chunks[..t + k]) == Flat(wires[..i]);
        }
      }
    }
  }

  lemma FlatNone(wires: seq<Text>)
    ensures Flat(wires[..0]) == []
  {
  }

  lemma EndShifts(chunks: seq<Text>, t: nat, k: nat, first: Text, later: Text)
    requires t <= |chunks| && k <= |chunks| && Flat(chunks[..t]) == first && Flat(chunks[..k]) == first + later
    ensures AtChunkEnd(chunks[t..], later)
  {
    hide Flat;
    var rest := chunks[t..];
    if later == [] {
      FlatNothing(rest);
      assert Flat(rest[..0]) == later;
    } else {
      FlatLater(chunks, t, k);
      Cancel(first, Flat(rest[..k - t]), first, later);
    }
  }

  /** If every response ends where a chunk does, the calls return them all, whatever follows. */
  lemma {:induction false} CallsSucceed(chunks: seq<Text>, wires: seq<Text>, more: Text)
    requires AllSelfDelimiting(wires) && Flat(chunks) == Flat(wires) + more && EndsAtChunks(chunks, wires)
    ensures Returned(Calls(chunks, |wires|), wires)
    decreases |wires|
  {
    hide Decode, Settled, Flat, Taken, EndsAtChunks, SelfDelimiting;
    if wires != [] {
      var t := Taken(chunks, 0);
      FlatFirst(wires);
      FirstEnds(chunks, wires);
      assert Flat(chunks) == wires[0] + (Flat(wires[1..]) + more);
      assert wires[0] in wires && forall w :: w in wires[1..] ==> w in wires;
      CallTakesOne(chunks, wires[0], Flat(wires[1..]) + more);
      EndsShift(chunks, t, wires);
      CallsSucceed(chunks[t..], wires[1..], more);
      WireReturns(wires[0]);
    }
  }

  lemma WireReturns(wire: Text)
    requires SelfDelimiting(wire)
    ensures Decode(wire).Response? && Decode(wire).headers + Decode(wire).body == wire
  {
    hide Decode;
  }

  lemma FirstEnds(chunks: seq<Text>, wires: seq<Text>)
    requires wires != [] && EndsAtChunks(chunks, wires)
    ensures AtChunkEnd(chunks, wires[0])
  {
    hide Flat;
    FlatFirst(wires);
    assert AtChunkEnd(chunks, Flat(wires[..1]));
  }

  /** If all the calls succeed, so does the first, and so do the others on what it leaves. */
  lemma LaterReturn(chunks: seq<Text>, wires: seq<Text>)
    requires wires != [] && Returned(Calls(chunks, |wires|), wires)
    ensures Returned(Calls(chunks[Taken(chunks, 0)..], |wires| - 1), wires[1..])
    ensures Decode(Flat(chunks)).Response?
    ensures Decode(Flat(chunks)).headers + Decode(Flat(chunks)).body == wires[0]
  {
    hide Decode, Settled, Flat, Taken;
    var got, later := Calls(chunks, |wires|).value, Calls(chunks[Taken(chunks, 0)..], |wires| - 1);
    assert got[0] == Decode(Flat(chunks)) && got[1..] == later.value;
    assert forall i :: 0 <= i < |later.value| ==> later.value[i] == got[i + 1] && wires[1..][i] == wires[i + 1];
  }

  /** What successive calls return never exceeds what was delivered. */
  lemma {:induction false} ReturnedFits(chunks: seq<Text>, wires: seq<Text>)
    requires Returned(Calls(chunks, |wires|), wires)
    ensures |Flat(wires)| <= |Flat(chunks)|
    ensures wires != [] ==> |wires[0]| <= |Flat(chunks[..Taken(chunks, 0)])|
    decreases |wires|
  {
    hide Decode, Settled, Flat, Taken, Calls, Returned;
    if wires == [] {
      FlatNone(wires);
      assert wires[..0] == wires;
    } else {
      var t := Taken(chunks, 0);
      LaterReturn(chunks, wires);
      ReturnedFits(chunks[t..], wires[1..]);
      TakenDecides(chunks);
      SettledDecodes(Flat(chunks[..t]));
      FlatFirst(wires);
      FlatCut(chunks, t);
    }
  }

  /** A call's result is decided by the chunks it takes. */
  lemma TakenDecides(chunks: seq<Text>)
    ensures Decode(Flat(chunks)) == Decode(Flat(chunks[..Taken(chunks, 0)]))
  {
    hide Decode, Settled, Flat;
    var t := Taken(chunks, 0);
    FlatCut(chunks, t);
    if t < |chunks| {
      SettledStable(Flat(chunks[..t]), Flat(chunks[t..]));
    } else {
      assert chunks[..t] == chunks;
    }
  }

  /** On a stream that consists of these responses, the calls return them all only if every response
      ends where a chunk does: bytes a call has received past its response are lost to the next. */
  lemma {:induction false} CallsNeed(chunks: seq<Text>, wires: seq<Text>)
    requires AllSelfDelimiting(wires) && Flat(chunks) == Flat(wires)
    requires Returned(Calls(chunks, |wires|), wires)
    ensures EndsAtChunks(chunks, wires)
    decreases |wires|
  {
    hide Decode, Settled, Flat, Taken, SelfDelimiting, Calls, Returned;
    if wires == [] {
      FlatNothing(chunks);
      FlatNone(wires);
    } else {
      hide EndsAtChunks;
      var t := Taken(chunks, 0);
      LaterReturn(chunks, wires);
      ReturnedFits(chunks, wires);
      ReturnedFits(chunks[t..], wires[1..]);
      FlatFirst(wires);
      FlatCut(chunks, t);
      Cancel(Flat(chunks[..t]), Flat(chunks[t..]), wires[0], Flat(wires[1..]));
      assert forall w :: w in wires[1..] ==> w in wires;
      CallsNeed(chunks[t..], wires[1..]);
      EndsShift(chunks, t, wires);
    }
  }

  /** For every chunking of a stream of responses: successive calls return exactly these responses if
      and only if every response ends where a chunk does. */
  lemma CallsReturnIff(chunks: seq<Text>, wires: seq<Text>)
    requires AllSelfDelimiting(wires) && Flat(chunks) == Flat(wires)
    ensures Returned(Calls(chunks, |wires|), wires) <==> EndsAtChunks(chunks, wires)
  {
    hide Decode, Flat, Calls, SelfDelimiting, EndsAtChunks, Returned;
    assert Flat(chunks) == Flat(wires) + [];
    if EndsAtChunks(chunks, wires) {
      CallsSucceed(chunks, wires, []);
    }
    if Returned(Calls(chunks, |wires|), wires) {
      CallsNeed(chunks, wires);
    }
  }

  /** Two responses delivered in one chunk: the first call takes both and returns the first, and the
      second call fails. */
  lemma CoalescedIsLost(first: Text, second: Text)
    requires SelfDelimiting(first) && SelfDelimiting(second)
    ensures Call([first + second]) == (Decode(first), [])
    ensures Calls([first + second], 2) == None
  {
    hide Decode, Settled;
    var chunks := [first + second];
    FlatFirst(chunks);
    assert chunks[..1] == chunks;
    SettledWire(first);
    SettledStable(first, second);
    SettledDecodes([]);
    assert chunks[..0] == [] && chunks[..1] == chunks;
    TakenIs(chunks, 0, 1);
    assert chunks[1..] == [];
    assert Call([]).0 == Decode([]) == Failed;
    assert Calls([], 1) == None;
  }
}
