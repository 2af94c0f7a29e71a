/** The repository's client against the server: with one request outstanding it never receives past
    the answer it waits for, so its calls return exactly the server's answers. */
module ServerClient {
  import opened Bytes
  import opened HttpResponses
  import opened Clients
  import opened RequestStreams
  import opened Service
  import opened Server
  import opened ServerData
  import opened ServerToken
  import opened ServerRuns
  import opened ServerGrowth
  import opened ServerTheorems

  /** One call of the client, as it returns: the run so far and the chunks this call received. */
  datatype Turn = Turn(acts: seq<Action>, state: State, chunks: seq<Text>)

  function ChunksOf(turns: seq<Turn>): seq<Text> {
    if turns == [] then [] else ChunksOf(turns[..|turns| - 1]) + turns[|turns| - 1].chunks
  }

  /** What the client knows when call `i` returns: it has sent no more than `i + 1` of its requests,
      what it has received the server has written, and its last chunk decided the call. */
  ghost predicate TurnOk(cfg: Config, now: int, id: ConnId, ms: seq<Message>, turns: seq<Turn>, i: nat)
    requires i < |turns| && i < |ms|
  {
    var t := turns[i];
    && Run(Init(cfg, now), t.acts, t.state, true) && id in t.state.hist
    && t.state.hist[id].input <= Flat(Prints(ms[..i + 1]))
    && Flat(ChunksOf(turns[..i + 1])) <= t.state.hist[id].tx
    && Settled(Flat(t.chunks))
    && (i > 0 ==> turns[i - 1].acts <= t.acts)
  }

  /** A client of a careful run that sends its next request only after its last call has returned. */
  ghost predicate OneOutstanding(cfg: Config, now: int, id: ConnId, ms: seq<Message>, turns: seq<Turn>) {
    |turns| <= |ms| && forall i :: 0 <= i < |turns| ==> TurnOk(cfg, now, id, ms, turns, i)
  }

  lemma Fewer(cfg: Config, now: int, id: ConnId, ms: seq<Message>, turns: seq<Turn>)
    requires OneOutstanding(cfg, now, id, ms, turns) && turns != []
    ensures OneOutstanding(cfg, now, id, ms, turns[..|turns| - 1])
    ensures TurnOk(cfg, now, id, ms, turns, |turns| - 1)
  {
    hide Run, Settled, Flat, Prints, ChunksOf;
    var n := |turns| - 1;
    forall i | 0 <= i < n ensures TurnOk(cfg, now, id, ms, turns[..n], i) {
      assert TurnOk(cfg, now, id, ms, turns, i);
      assert turns[..n][..i + 1] == turns[..i + 1];
    }
  }

  lemma StreamNext(served: seq<Exchange>, n: nat)
    requires n < |served|
    ensures Stream(served[..n + 1]) == Stream(served[..n]) + served[n].reply.Wire()
  {
    hide Stream, Flat;
    assert served[..n + 1] == served[..n] + [served[n]];
    ServeSnoc(served[..n], served[n]);
  }

  lemma StreamStart(served: seq<Exchange>, longer: seq<Exchange>, n: nat)
    requires served <= longer && n <= |served|
    ensures served[..n] == longer[..n]
  {
  }

  /** No more requests sent than `n`, no more served; so no more bytes are out than `n` answers. */
  lemma ServedAtMost(cfg: Config, now: int, acts: seq<Action>, s: State, id: ConnId, ms: seq<Message>)
    requires cfg.respond == Respond && Run(Init(cfg, now), acts, s, true) && id in s.hist
    requires AllWellFormed(ms) && s.hist[id].input <= Flat(Prints(ms))
    ensures |s.hist[id].served| <= |ms| && s.hist[id].tx <= Stream(s.hist[id].served)
    ensures GivenBy(Respond, s.hist[id].served) && LegalWorlds(s.hist[id].served)
  {
    hide Run, Flat, Prints, WellFormed, Understood, Stream, GivenBy, LegalWorlds, Sequential, ClosesLast, Speaks,
         Respond;
    var h, stream := s.hist[id], Flat(Prints(ms));
    assert h.input + stream[|h.input|..] == stream;
    PeerIsUnderstood(cfg, now, acts, s, id, ms, stream[|h.input|..]);
    ServiceSpeaks();
    EndToEnd(cfg, now, acts, s, id);
  }

  lemma NothingAfter(before: Text, received: Text)
    requires before + received <= before
    ensures received == []
  {
  }

  /** Decided bytes that are a beginning of one answer, or of nothing, are that answer. */
  lemma DecidedIsAnswer(before: Text, received: Text, served: seq<Exchange>, n: nat)
    requires n <= |served| <= n + 1 && before == Stream(served[..n]) && before + received <= Stream(served)
    requires Settled(received) && GivenBy(Respond, served) && LegalWorlds(served)
    ensures |served| == n + 1 && received == served[n].reply.Wire()
    ensures before + received == Stream(served[..n + 1])
  {
    hide Stream, Settled, Respond, GivenBy, LegalWorlds, Decode;
    assert served[..|served|] == served;
    if |served| == n {
      NothingAfter(before, received);
      SettledDecodes([]);
      assert false;
    }
    StreamNext(served, n);
    var wire := served[n].reply.Wire();
    assert (before + received)[|before|..] == received;
    assert (before + wire)[|before|..] == wire;
    AllRepliesSelfDelimiting(served);
    SettledPart(received, wire);
  }

  lemma ChunksLast(turns: seq<Turn>)
    requires turns != []
    ensures Flat(ChunksOf(turns)) == Flat(ChunksOf(turns[..|turns| - 1])) + Flat(turns[|turns| - 1].chunks)
  {
    hide Flat;
    FlatConcat(ChunksOf(turns[..|turns| - 1]), turns[|turns| - 1].chunks);
  }

  lemma NoChunks(turns: seq<Turn>)
    requires turns == []
    ensures Flat(ChunksOf(turns)) == []
  {
  }

  /** A call that one request is outstanding for ends exactly at the end of its answer. */
  lemma {:induction false} TurnsMatch(cfg: Config, now: int, id: ConnId, ms: seq<Message>, turns: seq<Turn>)
    requires cfg.respond == Respond && AllWellFormed(ms) && OneOutstanding(cfg, now, id, ms, turns)
    ensures turns != [] ==>
              var h := turns[|turns| - 1].state.hist;
              && id in h && |h[id].served| == |turns|
              && Flat(ChunksOf(turns)) == Stream(h[id].served)
              && h[id].served[|turns| - 1].reply.Wire() == Flat(turns[|turns| - 1].chunks)
    ensures turns == [] ==> Flat(ChunksOf(turns)) == []
    decreases |turns|
  {
    hide Run, Flat, Prints, WellFormed, Settled, Stream, GivenBy, LegalWorlds, Respond, Grown, Speaks;
    hide ChunksOf;
    if turns == [] {
      NoChunks(turns);
    } else {
      var n := |turns| - 1;
      var last := turns[n];
      Fewer(cfg, now, id, ms, turns);
      var h := last.state.hist[id];
      assert turns[..n + 1] == turns;
      TurnsMatch(cfg, now, id, ms, turns[..n]);
      assert forall m :: m in ms[..n + 1] ==> m in ms;
      ServedAtMost(cfg, now, last.acts, last.state, id, ms[..n + 1]);
      ChunksLast(turns);
      EarlierAnswers(cfg, now, id, ms, turns);
      DecidedIsAnswer(Flat(ChunksOf(turns[..n])), Flat(last.chunks), h.served, n);
      assert h.served[..n + 1] == h.served;
    }
  }

  /** At the last turn the earlier calls have received exactly the earlier answers. */
  lemma EarlierAnswers(cfg: Config, now: int, id: ConnId, ms: seq<Message>, turns: seq<Turn>)
    requires cfg.respond == Respond && turns != [] && OneOutstanding(cfg, now, id, ms, turns)
    requires var n := |turns| - 1;
             n > 0 ==> var h := turns[n - 1].state.hist;
                       id in h && |h[id].served| == n && Flat(ChunksOf(turns[..n])) == Stream(h[id].served)
    requires |turns| == 1 ==> Flat(ChunksOf(turns[..0])) == []
    ensures var n := |turns| - 1;
            var h := turns[n].state.hist;
            id in h && n <= |h[id].served| && Flat(ChunksOf(turns[..n])) == Stream(h[id].served[..n])
  {
    hide Run, Flat, Prints, Settled, ChunksOf, Respond, Speaks;
    var n := |turns| - 1;
    var s := turns[n].state;
    assert TurnOk(cfg, now, id, ms, turns, n);
    if n == 0 {
      EmptyStream(s.hist[id].served);
    } else {
      var m := turns[n - 1].state;
      assert TurnOk(cfg, now, id, ms, turns, n - 1);
      var k := |turns[n - 1].acts|;
      assert turns[n].acts[..k] == turns[n - 1].acts;
      RunForgets(Init(cfg, now), turns[n].acts, s);
      RunForgets(Init(cfg, now), turns[n - 1].acts, m);
      RunGrows(cfg, now, turns[n].acts, s, k, m, id);
      StreamStart(m.hist[id].served, s.hist[id].served, n);
      assert m.hist[id].served[..n] == m.hist[id].served;
    }
  }

  lemma EmptyStream(served: seq<Exchange>)
    ensures Stream(served[..0]) == []
  {
  }

  lemma PrefixOutstanding(cfg: Config, now: int, id: ConnId, ms: seq<Message>, turns: seq<Turn>, k: nat)
    requires OneOutstanding(cfg, now, id, ms, turns) && k <= |turns|
    ensures OneOutstanding(cfg, now, id, ms, turns[..k])
  {
    hide Run, Settled, Flat, Prints, ChunksOf;
    forall i | 0 <= i < k ensures TurnOk(cfg, now, id, ms, turns[..k], i) {
      assert TurnOk(cfg, now, id, ms, turns, i);
      assert turns[..k][..i + 1] == turns[..i + 1];
    }
  }

  lemma {:induction false} ActsExtend(cfg: Config, now: int, id: ConnId, ms: seq<Message>, turns: seq<Turn>, i: nat,
                                      k: nat)
    requires OneOutstanding(cfg, now, id, ms, turns) && i <= k < |turns|
    ensures turns[i].acts <= turns[k].acts
    decreases k
  {
    hide Run, Settled, Flat, Prints, ChunksOf;
    if i < k {
      assert TurnOk(cfg, now, id, ms, turns, k);
      ActsExtend(cfg, now, id, ms, turns, i, k - 1);
    }
  }

  lemma {:induction false} ChunksPrefix(turns: seq<Turn>, k: nat)
    requires k <= |turns|
    ensures ChunksOf(turns[..k]) <= ChunksOf(turns)
    decreases |turns|
  {
    if k == |turns| {
      assert turns[..k] == turns;
    } else {
      var n := |turns| - 1;
      ChunksPrefix(turns[..n], k);
      assert turns[..n][..k] == turns[..k];
    }
  }

  /** The first `k` calls have received exactly the first `k` answers, as the last state knows them. */
  lemma FirstAnswers(cfg: Config, now: int, id: ConnId, ms: seq<Message>, turns: seq<Turn>, k: nat)
    requires cfg.respond == Respond && AllWellFormed(ms) && OneOutstanding(cfg, now, id, ms, turns)
    requires turns != [] && k <= |turns|
    ensures var h := turns[|turns| - 1].state.hist;
            && id in h && |h[id].served| == |turns|
            && Flat(ChunksOf(turns[..k])) == Stream(h[id].served[..k])
            && (k > 0 ==> Flat(turns[k - 1].chunks) == h[id].served[k - 1].reply.Wire())
  {
    hide Run, Flat, Prints, WellFormed, Settled, Respond, Speaks;
    TurnsMatch(cfg, now, id, ms, turns);
    PrefixOutstanding(cfg, now, id, ms, turns, k);
    TurnsMatch(cfg, now, id, ms, turns[..k]);
    var n := |turns| - 1;
    var s := turns[n].state;
    if k == 0 {
      EmptyStream(s.hist[id].served);
    } else {
      var m := turns[k - 1].state;
      assert TurnOk(cfg, now, id, ms, turns, k - 1) && TurnOk(cfg, now, id, ms, turns, n);
      ActsExtend(cfg, now, id, ms, turns, k - 1, n);
      var j := |turns[k - 1].acts|;
      assert turns[n].acts[..j] == turns[k - 1].acts;
      RunForgets(Init(cfg, now), turns[n].acts, s);
      RunForgets(Init(cfg, now), turns[k - 1].acts, m);
      RunGrows(cfg, now, turns[n].acts, s, j, m, id);
      StreamStart(m.hist[id].served, s.hist[id].served, k);
      assert m.hist[id].served[..k] == m.hist[id].served;
    }
  }

  /** Without that discipline answers are lost: if two answers reach the client in one chunk, it returns
      the first, drops the second, and its next call fails. */
  lemma CoalescedAnswerIsLost(served: seq<Exchange>, i: nat)
    requires GivenBy(Respond, served) && LegalWorlds(served) && i + 1 < |served|
    ensures var first, second := served[i].reply.Wire(), served[i + 1].reply.Wire();
            && Call([first + second]) == (Decode(first), [])
            && Calls([first + second], 2) == None
  {
    hide Respond, Decode, GivenBy, LegalWorlds, Calls;
    AllRepliesSelfDelimiting(served);
    CoalescedIsLost(served[i].reply.Wire(), served[i + 1].reply.Wire());
  }

  /** The keep-alive loop of the stress test: a client that sends well-formed requests, each only after
      the last call has returned, gets from its calls exactly the server's answers, in order, however
      the kernel cuts the stream; and its requests were understood as meant. */
  lemma OneOutstandingIsServed(cfg: Config, now: int, id: ConnId, ms: seq<Message>, turns: seq<Turn>)
    requires cfg.respond == Respond && AllWellFormed(ms) && OneOutstanding(cfg, now, id, ms, turns) && turns != []
    ensures var h := turns[|turns| - 1].state.hist;
            && id in h && |h[id].served| == |turns|
            && Returned(Calls(ChunksOf(turns), |turns|), Wires(h[id].served))
            && forall i :: 0 <= i < |turns| ==> Understood(h[id].served[i].raw, ms[i])
  {
    hide Run, Flat, Prints, WellFormed, Settled, Respond, Speaks, ChunksOf, Calls, Understood;
    var n := |turns|;
    var last := turns[n - 1];
    FirstAnswers(cfg, now, id, ms, turns, n);
    var served := last.state.hist[id].served;
    var wires := Wires(served);
    LastUnderstood(cfg, now, id, ms, turns);
    forall i | 0 <= i <= |wires| ensures AtChunkEnd(ChunksOf(turns), Flat(wires[..i])) {
      FirstAnswers(cfg, now, id, ms, turns, i);
      ChunksPrefix(turns, i);
      var k := |ChunksOf(turns[..i])|;
      assert ChunksOf(turns)[..k] == ChunksOf(turns[..i]);
      assert Wires(served[..i]) == wires[..i];
    }
    AllRepliesSelfDelimiting(served);
    assert turns[..n] == turns && served[..n] == served;
    assert Flat(ChunksOf(turns)) == Flat(wires) + [];
    CallsSucceed(ChunksOf(turns), wires, []);
  }

  lemma LastUnderstood(cfg: Config, now: int, id: ConnId, ms: seq<Message>, turns: seq<Turn>)
    requires cfg.respond == Respond && AllWellFormed(ms) && OneOutstanding(cfg, now, id, ms, turns) && turns != []
    ensures var h := turns[|turns| - 1].state.hist;
            && id in h && |h[id].served| <= |ms| && GivenBy(Respond, h[id].served) && LegalWorlds(h[id].served)
            && forall i :: 0 <= i < |h[id].served| ==> Understood(h[id].served[i].raw, ms[i])
  {
    hide Run, Flat, Prints, WellFormed, Settled, Respond, Understood, ChunksOf, Stream, GivenBy, LegalWorlds;
    var n := |turns|;
    assert TurnOk(cfg, now, id, ms, turns, n - 1);
    var s, sent := turns[n - 1].state, ms[..n];
    assert forall m :: m in sent ==> m in ms;
    ServedAtMost(cfg, now, turns[n - 1].acts, s, id, sent);
    var h, stream := s.hist[id], Flat(Prints(sent));
    assert h.input + stream[|h.input|..] == stream;
    PeerIsUnderstood(cfg, now, turns[n - 1].acts, s, id, sent, stream[|h.input|..]);
    forall i | 0 <= i < |h.served| ensures Understood(h.served[i].raw, ms[i]) {
      assert sent[i] == ms[i];
    }
  }
}
