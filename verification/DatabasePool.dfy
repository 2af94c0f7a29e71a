/** The database connection pool: handles wait in a queue, and a lease holds one until it is
    destroyed, moved from, or assigned to. Each operation is one critical section of the pool. */
module DatabasePools {

  import opened Bytes

  /** A database handle. */
  type Handle = nat

  /** A live lease object. */
  type LeaseId = nat

  /** One pool and the leases alive, with what each holds of this pool. */
  datatype Store = Store(all: seq<Handle>, available: seq<Handle>, held: map<LeaseId, Option<Handle>>)
  {
    function Holds(id: LeaseId): Option<Handle> {
      if id in held then held[id] else None
    }
  }

  datatype Op =
    | Default(id: LeaseId)
    | Acquire(id: LeaseId)
    | MoveNew(id: LeaseId, from: LeaseId)
    | Assign(id: LeaseId, from: LeaseId)
    | Destroy(id: LeaseId)

  /** `acquire` goes on waiting while nothing is available. */
  predicate Allowed(s: Store, op: Op) {
    match op
    case Default(id) => id !in s.held
    case Acquire(id) => id !in s.held && s.available != []
    case MoveNew(id, from) => id !in s.held && from in s.held
    case Assign(id, from) => id in s.held && from in s.held
    case Destroy(id) => id in s.held
  }

  function Returned(h: Option<Handle>): seq<Handle> {
    if h.Some? then [h.value] else []
  }

  function Apply(s: Store, op: Op): Store
    requires Allowed(s, op)
  {
    match op
    case Default(id) => s.(held := s.held[id := None])
    case Acquire(id) => s.(available := s.available[1..], held := s.held[id := Some(s.available[0])])
    case MoveNew(id, from) => s.(held := s.held[id := s.held[from]][from := None])
    case Assign(id, from) =>
      if id == from then s
      else s.(available := s.available + Returned(s.held[id]), held := s.held[id := s.held[from]][from := None])
    case Destroy(id) => s.(available := s.available + Returned(s.held[id]), held := s.held - {id})
  }

  ghost predicate Run(s: Store, ops: seq<Op>, s': Store) {
    if ops == [] then s' == s
    else
      var last := ops[|ops| - 1];
      exists m: Store :: Run(s, ops[..|ops| - 1], m) && Allowed(m, last) && s' == Apply(m, last)
  }

  // ---------- conservation ----------

  ghost predicate Distinct(s: seq<Handle>) {
    forall i, j :: 0 <= i < j < |s| ==> s[i] != s[j]
  }

  /** The available handles and those held by live leases partition all of them, and no handle is in
      two places. */
  ghost predicate Partition(s: Store) {
    && Distinct(s.all) && Distinct(s.available)
    && (forall h :: h in s.all <==> h in s.available || exists id :: s.Holds(id) == Some(h))
    && (forall id, h :: s.Holds(id) == Some(h) ==> h !in s.available)
    && (forall id, other, h :: s.Holds(id) == Some(h) && s.Holds(other) == Some(h) ==> id == other)
  }

  /** What `init` leaves: every handle available. */
  lemma FreshPartition(all: seq<Handle>, available: seq<Handle>)
    requires Distinct(all) && multiset(available) == multiset(all)
    ensures Partition(Store(all, available, map[]))
  {
    DistinctOnce(all);
    forall i, j | 0 <= i < j < |available| ensures available[i] != available[j] {
      TwiceCounts(available, i, j);
    }
    forall h ensures h in all <==> h in available {
      assert h in multiset(all) <==> h in multiset(available);
    }
  }

  lemma {:induction false} DistinctOnce(s: seq<Handle>)
    requires Distinct(s)
    ensures forall h :: multiset(s)[h] <= 1
  {
    if s != [] {
      var n := |s| - 1;
      DistinctOnce(s[..n]);
      assert s == s[..n] + [s[n]];
      assert s[n] !in s[..n];
    }
  }

  lemma TwiceCounts(s: seq<Handle>, i: nat, j: nat)
    requires i < j < |s| && multiset(s)[s[i]] <= 1
    ensures s[i] != s[j]
  {
    assert s == s[..j] + [s[j]] + s[j + 1..];
    assert s[i] in s[..j];
  }

  lemma AcquireKeeps(s: Store, id: LeaseId)
    requires Partition(s) && Allowed(s, Acquire(id))
    ensures Partition(Apply(s, Acquire(id)))
  {
    var s', h := Apply(s, Acquire(id)), s.available[0];
    assert s.available == [h] + s'.available;
    forall k ensures s'.Holds(k) == if k == id then Some(h) else s.Holds(k) {
    }
    forall g ensures g in s'.all <==> g in s'.available || exists k :: s'.Holds(k) == Some(g) {
      if g == h {
        assert s'.Holds(id) == Some(g);
      } else if exists k :: s.Holds(k) == Some(g) {
        var k :| s.Holds(k) == Some(g);
        assert s'.Holds(k) == Some(g);
      }
    }
  }

  lemma MoveKeeps(s: Store, id: LeaseId, from: LeaseId)
    requires Partition(s) && id != from && s.Holds(id) == None && from in s.held
    ensures Partition(s.(held := s.held[id := s.held[from]][from := None]))
  {
    var s' := s.(held := s.held[id := s.held[from]][from := None]);
    forall k ensures s'.Holds(k) == if k == id then s.Holds(from) else if k == from then None else s.Holds(k) {
    }
    forall h, k | s.Holds(k) == Some(h) ensures exists m :: s'.Holds(m) == Some(h) {
      assert s'.Holds(if k == from then id else k) == Some(h);
    }
    forall h | exists k :: s'.Holds(k) == Some(h) ensures exists k :: s.Holds(k) == Some(h) {
      var k :| s'.Holds(k) == Some(h);
      assert s.Holds(if k == id then from else k) == Some(h);
    }
  }

  /** Giving a handle back, whatever becomes of the lease object. */
  lemma ReturnKeeps(s: Store, id: LeaseId, held: map<LeaseId, Option<Handle>>)
    requires Partition(s) && id in s.held
    requires held == s.held[id := None] || held == s.held - {id}
    ensures Partition(s.(available := s.available + Returned(s.held[id]), held := held))
  {
    var s' := s.(available := s.available + Returned(s.held[id]), held := held);
    forall k ensures s'.Holds(k) == if k == id then None else s.Holds(k) {
    }
    var back := s.held[id];
    assert s.Holds(id) == back;
    forall h ensures h in s'.available <==> h in s.available || back == Some(h) {
    }
    forall h ensures h in s'.all <==> h in s'.available || exists k :: s'.Holds(k) == Some(h) {
      if exists k :: s.Holds(k) == Some(h) {
        var k :| s.Holds(k) == Some(h);
        assert k == id || s'.Holds(k) == Some(h);
      } else if exists k :: s'.Holds(k) == Some(h) {
        var k :| s'.Holds(k) == Some(h);
        assert s.Holds(k) == Some(h);
      }
    }
  }

  lemma AssignKeeps(s: Store, id: LeaseId, from: LeaseId)
    requires Partition(s) && Allowed(s, Assign(id, from)) && id != from
    ensures Partition(Apply(s, Assign(id, from)))
  {
    var emptied := s.(available := s.available + Returned(s.held[id]), held := s.held[id := None]);
    ReturnKeeps(s, id, emptied.held);
    MoveKeeps(emptied, id, from);
    assert emptied.held[id := emptied.held[from]][from := None] == s.held[id := s.held[from]][from := None];
  }

  lemma ApplyKeeps(s: Store, op: Op)
    requires Partition(s) && Allowed(s, op)
    ensures Partition(Apply(s, op)) && Apply(s, op).all == s.all
  {
    match op
    case Default(id) =>
      forall k ensures Apply(s, op).Holds(k) == s.Holds(k) {
      }
    case Acquire(id) => AcquireKeeps(s, id);
    case MoveNew(id, from) => MoveKeeps(s, id, from);
    case Assign(id, from) =>
      if id != from {
        AssignKeeps(s, id, from);
      }
    case Destroy(id) => ReturnKeeps(s, id, s.held - {id});
  }

  /** In every run of the pool, whatever is acquired, moved, assigned and destroyed in whatever
      order: available handles and live leases partition all handles. */
  lemma {:induction false} LeasesConserved(s: Store, ops: seq<Op>, s': Store)
    requires Partition(s) && Run(s, ops, s')
    ensures Partition(s') && s'.all == s.all
  {
    if ops != [] {
      var last := ops[|ops| - 1];
      var m :| Run(s, ops[..|ops| - 1], m) && Allowed(m, last) && s' == Apply(m, last);
      LeasesConserved(s, ops[..|ops| - 1], m);
      ApplyKeeps(m, last);
    }
  }

  /** Once no live lease holds a handle, all of them are available again, each once. */
  lemma AllComeBack(s: Store, ops: seq<Op>, s': Store)
    requires Partition(s) && Run(s, ops, s')
    requires forall id :: id in s'.held ==> s'.held[id] == None
    ensures multiset(s'.available) == multiset(s.all)
  {
    LeasesConserved(s, ops, s');
    DistinctOnce(s'.available);
    DistinctOnce(s'.all);
    forall h ensures multiset(s'.available)[h] == multiset(s'.all)[h] {
      assert h in s'.available <==> h in s'.all;
      assert h in multiset(s'.available) <==> h in multiset(s'.all);
    }
  }

  // ---------- the classes ----------

  /** What became of `init`. */
  datatype Outcome = Failed | Blocked | Opened

  /** The pool and its live leases as a value. */
  ghost function StoreOf(pool: DatabasePool, live: map<LeaseId, Lease>): Store
    reads pool, live.Values
  {
    Store(pool.all, pool.available, map id | id in live :: if live[id].pool == pool then live[id].db else None)
  }

  ghost predicate NoAlias(live: map<LeaseId, Lease>) {
    forall id, other :: id in live && other in live && live[id] == live[other] ==> id == other
  }

  class DatabasePool {
    var all: seq<Handle>
    var available: seq<Handle>

    constructor ()
      ensures all == [] && available == []
    {
      all, available := [], [];
    }

    /** `init`, against what each connection attempt gives. The schema is created through a lease,
        which then hands its handle back; with no connection at all, waiting for one never ends. */
    method Init(attempts: seq<Option<Handle>>, schemaOk: bool) returns (outcome: Outcome)
      requires all == [] && available == []
      modifies this
      ensures |all| <= |attempts| && forall i :: 0 <= i < |all| ==> attempts[i] == Some(all[i])
      ensures |all| < |attempts| ==> attempts[|all|] == None && outcome == Failed
      ensures |all| == |attempts| ==> outcome == if attempts == [] then Blocked else if schemaOk then Opened else Failed
      ensures outcome == Opened ==> available == all[1..] + [all[0]]
      ensures multiset(available) == multiset(all)
    {
      var i := 0;
      while i < |attempts|
        invariant 0 <= i <= |attempts| && |all| == i && available == all
        invariant forall k :: 0 <= k < i ==> attempts[k] == Some(all[k])
      {
        if attempts[i] == None {
          return Failed;
        }
        all, available := all + [attempts[i].value], available + [attempts[i].value];
        i := i + 1;
      }
      var lease := Acquire(map[], 0);
      if lease == null {
        return Blocked;
      }
      assert all == [all[0]] + all[1..];
      lease.Destroy(this, map[0 := lease], 0);
      outcome := if schemaOk then Opened else Failed;
    }

    /** `acquire` as it resumes: the front handle goes to a new lease. With none available the caller
        goes on waiting. */
    method Acquire(ghost live: map<LeaseId, Lease>, ghost id: LeaseId) returns (lease: Lease?)
      requires id !in live
      modifies `available
      ensures lease == null <==> old(available) == []
      ensures lease == null ==> available == old(available)
      ensures lease != null ==> fresh(lease) && lease.pool == this && lease.db == Some(old(available)[0])
      ensures lease != null ==> available == old(available)[1..]
      ensures lease != null ==> StoreOf(this, live[id := lease]) == Apply(old(StoreOf(this, live)), Op.Acquire(id))
    {
      if available == [] {
        return null;
      }
      lease := new Lease.Of(this, available[0]);
      available := available[1..];
    }

    method Release(db: Handle)
      modifies `available
      ensures available == old(available) + [db]
    {
      available := available + [db];
    }
  }

  class Lease {
    var pool: DatabasePool?
    var db: Option<Handle>

    constructor ()
      ensures pool == null && db == None
    {
      pool, db := null, None;
    }

    constructor Of(p: DatabasePool, h: Handle)
      ensures pool == p && db == Some(h)
    {
      pool, db := p, Some(h);
    }

    /** Move construction. */
    constructor MoveFrom(other: Lease, ghost p: DatabasePool, ghost live: map<LeaseId, Lease>, ghost id: LeaseId,
                         ghost from: LeaseId)
      requires NoAlias(live) && id !in live && from in live && live[from] == other
      modifies other
      ensures pool == old(other.pool) && db == old(other.db)
      ensures other.pool == null && other.db == None
      ensures StoreOf(p, live[id := this]) == Apply(old(StoreOf(p, live)), MoveNew(id, from))
    {
      pool, db := other.pool, other.db;
      new;
      other.pool, other.db := null, None;
    }

    /** Move assignment, of a lease to itself or to another. */
    method MoveAssign(other: Lease, ghost p: DatabasePool, ghost live: map<LeaseId, Lease>, ghost id: LeaseId,
                      ghost from: LeaseId)
      requires NoAlias(live) && id in live && live[id] == this && from in live && live[from] == other
      modifies this, other, if pool == null then {} else {pool}
      ensures this != other ==> pool == old(other.pool) && db == old(other.db) && other.pool == null && other.db == None
      ensures this == other ==> pool == old(pool) && db == old(db)
      ensures StoreOf(p, live) == Apply(old(StoreOf(p, live)), Assign(id, from))
    {
      if this != other {
        if pool != null && db.Some? {
          pool.Release(db.value);
        }
        pool := other.pool;
        db := other.db;
        other.pool := null;
        other.db := None;
      }
    }

    /** The destructor. */
    method Destroy(ghost p: DatabasePool, ghost live: map<LeaseId, Lease>, ghost id: LeaseId)
      requires NoAlias(live) && id in live && live[id] == this
      modifies if pool == null then {} else {pool}
      ensures StoreOf(p, live - {id}) == Apply(old(StoreOf(p, live)), Op.Destroy(id))
    {
      if pool != null && db.Some? {
        pool.Release(db.value);
      }
    }
  }
}
