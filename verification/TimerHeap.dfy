/** The idle timers: a heap with lazy deletion that agrees with a plain map from descriptor to
    deadline. */
module Timers {

  type Fd = nat

  type Deadlines = map<Fd, int>

  /** `fds` are exactly the descriptors due at `now`, each once, earliest deadline first. */
  ghost predicate ExpiredList(deadlines: Deadlines, now: int, fds: seq<Fd>) {
    && (forall f :: f in fds <==> f in deadlines && deadlines[f] <= now)
    && (forall i, j :: 0 <= i < j < |fds| ==> fds[i] != fds[j])
    && (forall i, j :: 0 <= i < j < |fds| ==>
          fds[i] in deadlines && fds[j] in deadlines && deadlines[fds[i]] <= deadlines[fds[j]])
  }

  function Without(deadlines: Deadlines, fds: seq<Fd>): Deadlines {
    map f | f in deadlines && f !in fds :: deadlines[f]
  }

  lemma WithoutSnoc(deadlines: Deadlines, fds: seq<Fd>, f: Fd)
    ensures Without(Without(deadlines, fds), [f]) == Without(deadlines, fds + [f])
  {
  }

  datatype Node = Node(expiresAt: int, fd: Fd, version: nat)

  datatype Entry = Entry(expiresAt: int, version: nat)

  function ViewOf(latest: map<Fd, Entry>): Deadlines {
    map f | f in latest :: latest[f].expiresAt
  }

  lemma ViewErase(latest: map<Fd, Entry>, fd: Fd)
    ensures ViewOf(latest - {fd}) == Without(ViewOf(latest), [fd])
  {
  }

  lemma ViewAdd(latest: map<Fd, Entry>, fd: Fd, expiresAt: int, version: nat)
    ensures ViewOf(latest[fd := Entry(expiresAt, version)]) == ViewOf(latest)[fd := expiresAt]
  {
  }

  /** A heap hands out some node with the earliest deadline; ties are left open. */
  ghost predicate IsTop(heap: multiset<Node>, top: Node) {
    top in heap && forall n :: n in heap ==> top.expiresAt <= n.expiresAt
  }

  lemma {:induction false} TopExists(heap: multiset<Node>) returns (top: Node)
    requires |heap| > 0
    ensures IsTop(heap, top)
    decreases |heap|
  {
    var n :| n in heap;
    var rest := heap - multiset{n};
    if |rest| == 0 {
      top := n;
      assert heap == multiset{n} + rest;
    } else {
      var t := TopExists(rest);
      top := if n.expiresAt < t.expiresAt then n else t;
      assert heap == multiset{n} + rest;
    }
  }

  /** Mid-run: `fds` have been found due, in deadline order, and no node left is earlier than any. */
  ghost predicate Collected(before: Deadlines, heap: multiset<Node>, now: int, fds: seq<Fd>) {
    && (forall f :: f in fds ==> f in before && before[f] <= now)
    && (forall i, j :: 0 <= i < j < |fds| ==> fds[i] != fds[j])
    && (forall i, j :: 0 <= i < j < |fds| ==> before[fds[i]] <= before[fds[j]])
    && (forall f, n :: f in fds && n in heap ==> before[f] <= n.expiresAt)
  }

  lemma CollectNext(before: Deadlines, heap: multiset<Node>, node: Node, now: int, fds: seq<Fd>)
    requires Collected(before, heap, now, fds) && IsTop(heap, node) && node.expiresAt <= now
    requires node.fd in Without(before, fds) && before[node.fd] == node.expiresAt
    ensures Collected(before, heap - multiset{node}, now, fds + [node.fd])
  {
  }

  /** Once every timer left is later than `now`, the collected list is complete. */
  lemma AllCollected(before: Deadlines, heap: multiset<Node>, now: int, fds: seq<Fd>)
    requires Collected(before, heap, now, fds)
    requires forall f :: f in Without(before, fds) ==> Without(before, fds)[f] > now
    ensures ExpiredList(before, now, fds)
  {
    forall f | f in before && f !in fds ensures before[f] > now {
      assert f in Without(before, fds);
    }
  }

  class TimerHeap {
    var heap: multiset<Node>
    var latest: map<Fd, Entry>
    /** How many nodes were ever pushed and popped. */
    ghost var pushes: nat
    ghost var pops: nat

    /** Every live timer has its node in the heap, however many stale nodes lie beside it. */
    ghost predicate Valid()
      reads this
    {
      && (forall f :: f in latest ==> Node(latest[f].expiresAt, f, latest[f].version) in heap)
      && |heap| + pops == pushes
    }

    function View(): Deadlines
      reads this
    {
      ViewOf(latest)
    }

    constructor ()
      ensures Valid() && View() == map[] && pushes == 0 && pops == 0
    {
      heap, latest := multiset{}, map[];
      pushes, pops := 0, 0;
    }

    method AddOrUpdate(fd: Fd, expiresAt: int)
      requires Valid()
      modifies this
      ensures Valid() && View() == old(View())[fd := expiresAt]
      ensures pushes == old(pushes) + 1 && pops == old(pops)
    {
      var version := 1;
      if fd in latest {
        version := latest[fd].version + 1;
      }
      ViewAdd(latest, fd, expiresAt, version);
      latest := latest[fd := Entry(expiresAt, version)];
      heap := heap + multiset{Node(expiresAt, fd, version)};
      pushes := pushes + 1;
    }

    method Remove(fd: Fd)
      requires Valid()
      modifies `latest
      ensures Valid() && View() == Without(old(View()), [fd])
    {
      ViewErase(latest, fd);
      latest := latest - {fd};
    }

    method Top() returns (top: Node)
      requires |heap| > 0
      ensures IsTop(heap, top)
    {
      ghost var t := TopExists(heap);
      top :| top in heap && forall n :: n in heap ==> top.expiresAt <= n.expiresAt;
    }

    /** Pops every node that is due and reports those that are still live: the descriptors the plain
        map calls expired, in deadline order, and it forgets exactly those. */
    method PopExpired(now: int) returns (expired: seq<Fd>)
      requires Valid()
      modifies this
      ensures Valid()
      ensures ExpiredList(old(View()), now, expired)
      ensures View() == Without(old(View()), expired)
      ensures pushes == old(pushes) && pops >= old(pops)
      ensures forall n :: n in heap ==> n.expiresAt > now
    {
      expired := [];
      ghost var before := View();
      while |heap| > 0
        invariant Valid()
        invariant View() == Without(before, expired)
        invariant Collected(before, heap, now, expired)
        invariant pushes == old(pushes) && pops >= old(pops)
        decreases |heap|
      {
        var node := Top();
        if node.expiresAt > now {
          break;
        }
        ghost var nodes := heap;
        var live := PopLive(node);
        if !live {
          continue;
        }
        CollectNext(before, nodes, node, now, expired);
        WithoutSnoc(before, expired, node.fd);
        expired := expired + [node.fd];
      }
      LiveNodesRemain(now);
      AllCollected(before, heap, now, expired);
    }

    lemma LiveNodesRemain(now: int)
      requires Valid() && forall n :: n in heap ==> n.expiresAt > now
      ensures forall f :: f in View() ==> View()[f] > now
    {
      forall f | f in View() ensures View()[f] > now {
        assert Node(latest[f].expiresAt, f, latest[f].version) in heap;
      }
    }

    /** Pops the top node; if it is the live node of its descriptor, the timer is forgotten. */
    method PopLive(node: Node) returns (live: bool)
      requires Valid() && IsTop(heap, node)
      modifies `heap, `pops, `latest
      ensures Valid()
      ensures heap == old(heap) - multiset{node} && pops == old(pops) + 1
      ensures live <==> node.fd in old(latest) && old(latest)[node.fd] == Entry(node.expiresAt, node.version)
      ensures live ==> node.fd in old(View()) && old(View())[node.fd] == node.expiresAt
      ensures View() == if live then Without(old(View()), [node.fd]) else old(View())
    {
      heap := heap - multiset{node};
      pops := pops + 1;
      if node.fd !in latest || latest[node.fd].version != node.version ||
         latest[node.fd].expiresAt != node.expiresAt {
        return false;
      }
      ViewErase(latest, node.fd);
      latest := latest - {node.fd};
      return true;
    }

    /** Heap size is pushes minus pops and never below the number of live timers. */
    lemma Accounting()
      requires Valid()
      ensures |heap| == pushes - pops
      ensures |latest| <= |heap|
    {
      LiveFits(latest, heap);
    }
  }

  ghost predicate HasNodes(latest: map<Fd, Entry>, heap: multiset<Node>) {
    forall f :: f in latest ==> Node(latest[f].expiresAt, f, latest[f].version) in heap
  }

  lemma {:induction false} LiveFits(latest: map<Fd, Entry>, heap: multiset<Node>)
    requires HasNodes(latest, heap)
    ensures |latest| <= |heap|
    decreases |latest|
  {
    if |latest| > 0 {
      var f :| f in latest;
      var node := Node(latest[f].expiresAt, f, latest[f].version);
      var smaller := latest - {f};
      var rest := heap - multiset{node};
      assert latest.Keys == smaller.Keys + {f};
      assert |latest| == |smaller| + 1;
      LiveFits(smaller, rest);
      assert heap == rest + multiset{node};
    }
  }
}
