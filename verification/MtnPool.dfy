/**
 The persistent pool of network allocations: a bucket per network id in a
 transactional store.  A transaction works on a copy that becomes the store on
 commit and is dropped on every error path.
 */
module MtnPool {
  import opened Options
  import opened Strings

  // -------------------------------------------------------------- data model

  datatype Allocation = Allocation(
    net: string, hostname: string, ip: string, id: string, netId: string, box: string, used: bool)

  /** What the remote allocator answers to a POST. */
  datatype RawAlloc = RawAlloc(id: string, net: string, hostname: string, ip: string)

  type Bucket = map<string, Allocation>
  type Db = map<string, Bucket>

  datatype Errno = ErrStdb | ErrIpbr | ErrUnkn

  datatype Outcome = Done | Failed(errno: Errno)

  /** What the store refuses to do during one transaction. */
  datatype Faults = Faults(begin: bool, buckets: set<string>, puts: set<string>, commit: bool)

  const NO_FAULTS := Faults(false, {}, {}, false)

  /** The store has no bucket and no key with an empty name. */
  predicate BucketFails(f: Faults, n: string) { n == "" || n in f.buckets }

  predicate PutFails(f: Faults, k: string) { k == "" || k in f.puts }

  function BucketOf(db: Db, n: string): Bucket { if n in db then db[n] else map[] }

  function FreeIds(b: Bucket): set<string> { set k | k in b && !b[k].used }

  /** Every entry is stored under its own id in the bucket of its own network. */
  ghost predicate Shape(db: Db) {
    forall n, k :: n in db && k in db[n] ==> db[n][k].id == k && db[n][k].netId == n
  }

  // ------------------------------------------------------------- pool merge

  function Blank(a: Allocation, n: string): Allocation {
    Allocation(a.net, a.hostname, a.ip, a.id, n, "", false)
  }

  function AddAlloc(b: Bucket, n: string, a: Allocation): Bucket {
    if a.id in b then b else b[a.id := Blank(a, n)]
  }

  function AddAllocs(b: Bucket, n: string, allocs: seq<Allocation>): Bucket
    decreases |allocs|
  {
    if |allocs| == 0 then b
    else AddAlloc(AddAllocs(b, n, allocs[..|allocs| - 1]), n, allocs[|allocs| - 1])
  }

  type Remote = map<string, seq<Allocation>>

  /** The networks with at least one reported allocation. */
  function Reported(remote: Remote): set<string> { set m | m in remote && remote[m] != [] }

  /** The store after merging in what the allocator reports. */
  function Merged(db: Db, remote: Remote): Db {
    map n | n in db.Keys + Reported(remote) ::
      if n in remote && remote[n] != [] then AddAllocs(BucketOf(db, n), n, remote[n]) else db[n]
  }

  function Ids(allocs: seq<Allocation>): set<string> { set i | 0 <= i < |allocs| :: allocs[i].id }

  /** What merging does to a bucket: old entries stay, new ids come in unused, nothing else. */
  lemma {:induction false} AddAllocsMeaning(b: Bucket, n: string, allocs: seq<Allocation>)
    ensures
      var c := AddAllocs(b, n, allocs);
      && c.Keys == b.Keys + Ids(allocs)
      && (forall k :: k in b ==> c[k] == b[k])
      && (forall k :: k in c && k !in b ==> c[k].id == k && c[k].netId == n && !c[k].used && c[k].box == "")
    decreases |allocs|
  {
    if |allocs| == 0 {
    } else {
      var m := |allocs| - 1;
      IdsLast(allocs);
      AddAllocsMeaning(b, n, allocs[..m]);
      hide Ids;
    }
  }

  lemma IdsLast(allocs: seq<Allocation>)
    requires |allocs| > 0
    ensures Ids(allocs) == Ids(allocs[..|allocs| - 1]) + {allocs[|allocs| - 1].id}
  {
    var m := |allocs| - 1;
    assert forall i :: 0 <= i < m ==> allocs[..m][i] == allocs[i];
  }

  /** No entry is lost or altered, so `used` marks survive restarts. */
  lemma MergedKeeps(db: Db, remote: Remote, n: string, k: string)
    requires n in db && k in db[n]
    ensures n in Merged(db, remote) && k in Merged(db, remote)[n] && Merged(db, remote)[n][k] == db[n][k]
  {
    if n in remote {
      AddAllocsMeaning(db[n], n, remote[n]);
    }
  }

  lemma MergedShape(db: Db, remote: Remote)
    requires Shape(db)
    ensures Shape(Merged(db, remote))
  {
    var db': Db := Merged(db, remote);
    forall n: string, k: string | n in db' && k in db'[n]
      ensures db'[n][k].id == k && db'[n][k].netId == n
    {
      if n in remote && remote[n] != [] {
        AddAllocsMeaning(BucketOf(db, n), n, remote[n]);
        assert k in BucketOf(db, n) ==> n in db;
      }
    }
  }

  lemma {:induction false} AddAllocsAgain(b: Bucket, n: string, allocs: seq<Allocation>)
    requires forall i :: 0 <= i < |allocs| ==> allocs[i].id in b
    ensures AddAllocs(b, n, allocs) == b
    decreases |allocs|
  {
    if |allocs| == 0 {
    } else {
      AddAllocsAgain(b, n, allocs[..|allocs| - 1]);
    }
  }

  /** Merging the same report twice changes nothing more. */
  lemma MergedIdempotent(db: Db, remote: Remote)
    ensures Merged(Merged(db, remote), remote) == Merged(db, remote)
  {
    var once := Merged(db, remote);
    forall n | n in once
      ensures Merged(once, remote)[n] == once[n]
    {
      if n in remote && remote[n] != [] {
        AddAllocsMeaning(BucketOf(db, n), n, remote[n]);
        forall i | 0 <= i < |remote[n]|
          ensures remote[n][i].id in once[n]
        {
          assert remote[n][i].id in Ids(remote[n]);
        }
        AddAllocsAgain(once[n], n, remote[n]);
      }
    }
    assert Merged(once, remote).Keys == once.Keys;
  }

  // --------------------------------------------------------------- requests

  /** The POST answers, in order; `None` is a failed request. */
  type Posts = nat -> Option<RawAlloc>

  function FromRaw(r: RawAlloc, n: string): Allocation {
    Allocation(r.net, r.hostname, r.ip, r.id, n, "", false)
  }

  /** The first `count` answers, by id; a later answer replaces an earlier one. */
  function Requested(posts: Posts, count: nat, n: string): Option<Bucket> {
    if count == 0 then Some(map[])
    else match (Requested(posts, count - 1, n), posts(count - 1))
      case (Some(b), Some(r)) => Some(b[r.id := FromRaw(r, n)])
      case _ => None
  }

  ghost predicate DistinctIds(posts: Posts, count: nat) {
    forall i: nat, j: nat :: i < j < count && posts(i).Some? && posts(j).Some? ==> posts(i).value.id != posts(j).value.id
  }

  /** A request that succeeds yields unused entries of its network, under the ids that came back. */
  lemma {:induction false} RequestedMeaning(posts: Posts, count: nat, n: string)
    requires Requested(posts, count, n).Some?
    ensures
      var r := Requested(posts, count, n).value;
      && (forall k :: k in r ==> r[k].id == k && r[k].netId == n && !r[k].used)
      && (forall i: nat :: i < count ==> posts(i).Some? && posts(i).value.id in r)
      && (count > 0 ==> r != map[])
  {
    if count > 0 {
      RequestedMeaning(posts, count - 1, n);
      assert posts(count - 1).value.id in Requested(posts, count, n).value;
    }
  }

  lemma {:induction false} RequestedIds(posts: Posts, count: nat, n: string)
    requires Requested(posts, count, n).Some?
    ensures forall k :: k in Requested(posts, count, n).value ==> exists i: nat :: i < count && posts(i).Some? && posts(i).value.id == k
  {
    if count > 0 {
      RequestedIds(posts, count - 1, n);
      assert count - 1 < count && posts(count - 1).Some?;
    }
  }

  /** Distinct ids: one entry per request. */
  lemma {:induction false} RequestedCount(posts: Posts, count: nat, n: string)
    requires Requested(posts, count, n).Some? && DistinctIds(posts, count)
    ensures |Requested(posts, count, n).value| == count
  {
    if count > 0 {
      RequestedCount(posts, count - 1, n);
      RequestedIds(posts, count - 1, n);
      var b := Requested(posts, count - 1, n).value;
      var id := posts(count - 1).value.id;
      assert Requested(posts, count, n).value.Keys == b.Keys + {id};
      assert |Requested(posts, count, n).value.Keys| == |b.Keys| + 1;
    }
  }

  // ------------------------------------------------------------------- use

  ghost predicate IsFirstFree(b: Bucket, k: string) {
    k in b && !b[k].used && forall j :: j in b && !b[j].used ==> Leq(k, j)
  }

  function Taken(a: Allocation, box: string): Allocation { a.(used := true, box := box) }

  /** What `GetDbAlloc` may do: `a` is handed out and `db'` is the store then. */
  ghost predicate Uses(db: Db, n: string, box: string, buffer: nat, posts: Posts, a: Allocation, db': Db) {
    && n in db
    && if FreeIds(db[n]) != {} then
         exists k :: IsFirstFree(db[n], k) && a == Taken(db[n][k], box) && db' == db[n := db[n][a.id := a]]
       else
         && Requested(posts, buffer, n).Some?
         && var r := Requested(posts, buffer, n).value;
            a.id in r && a == Taken(r[a.id], box) && db' == db[n := db[n] + r[a.id := a]]
  }

  /** The store after a successful refill. */
  function Bound(db: Db, n: string, buffer: nat, posts: Posts): Option<Db> {
    if |FreeIds(BucketOf(db, n))| >= buffer then Some(db[n := BucketOf(db, n)])
    else match Requested(posts, buffer, n)
      case None => None
      case Some(r) => Some(db[n := BucketOf(db, n) + r])
  }

  function Freed(db: Db, n: string, k: string): Db
    requires n in db && k in db[n]
  {
    db[n := db[n][k := db[n][k].(used := false)]]
  }

  lemma UsesShape(db: Db, n: string, box: string, buffer: nat, posts: Posts, a: Allocation, db': Db)
    requires Shape(db) && Uses(db, n, box, buffer, posts, a, db')
    ensures Shape(db') && a.netId == n && a.used && n in db' && a.id in db'[n] && db'[n][a.id] == a
    ensures FreeIds(db[n]) != {} ==> a.id in FreeIds(db[n])
  {
    if FreeIds(db[n]) == {} {
      RequestedMeaning(posts, buffer, n);
    }
  }

  lemma BoundShape(db: Db, n: string, buffer: nat, posts: Posts)
    requires Shape(db) && Bound(db, n, buffer, posts).Some?
    ensures Shape(Bound(db, n, buffer, posts).value)
  {
    if |FreeIds(BucketOf(db, n))| < buffer {
      RequestedMeaning(posts, buffer, n);
    }
  }

  lemma SubsetSize(a: set<string>, b: set<string>)
    requires a <= b
    ensures |a| <= |b|
  {
    assert b == a + (b - a);
  }

  /**
   A refill never loses a free entry, and leaves at least `buffer` of them when
   the allocator answers with distinct ids.
   */
  lemma Refill(db: Db, n: string, buffer: nat, posts: Posts)
    requires Bound(db, n, buffer, posts).Some?
    ensures
      var before, after := FreeIds(BucketOf(db, n)), FreeIds(BucketOf(Bound(db, n, buffer, posts).value, n));
      && before <= after && |before| <= |after|
      && (|before| < buffer ==> after == before + Requested(posts, buffer, n).value.Keys)
      && (DistinctIds(posts, buffer) ==> |after| >= buffer)
  {
    hide Requested, DistinctIds;
    var b := BucketOf(db, n);
    if |FreeIds(b)| < buffer {
      RequestedMeaning(posts, buffer, n);
      var r := Requested(posts, buffer, n).value;
      RefillIds(b, r);
      SubsetSize(FreeIds(b), FreeIds(b + r));
      SubsetSize(r.Keys, FreeIds(b + r));
      if DistinctIds(posts, buffer) {
        RequestedCount(posts, buffer, n);
      }
    }
  }

  lemma RefillIds(b: Bucket, r: Bucket)
    requires forall k :: k in r ==> !r[k].used
    ensures FreeIds(b + r) == FreeIds(b) + r.Keys
  {
  }

  /** What taking an allocation yields; `Bug` is the error for a request that brought nothing. */
  datatype Grant = Granted(alloc: Allocation) | Denied(why: Denial)

  datatype Denial = NoBucket | RequestFailed | StoreFailed | Bug

  ghost predicate SomePutFails(f: Faults, ids: set<string>) { exists id :: id in ids && PutFails(f, id) }

  /** Why nothing can be handed out inside a transaction; nothing, if something can. */
  ghost function DenialOf(db: Db, n: string, buffer: nat, posts: Posts, f: Faults): Option<Denial> {
    if n !in db || n == "" then Some(NoBucket)
    else if FreeIds(db[n]) != {} then
      if exists k :: IsFirstFree(db[n], k) && PutFails(f, db[n][k].id) then Some(StoreFailed) else None
    else match Requested(posts, buffer, n)
      case None => Some(RequestFailed)
      case Some(r) =>
        if BucketFails(f, n) || SomePutFails(f, r.Keys) then Some(StoreFailed) else if r == map[] then Some(Bug) else None
  }

  lemma OneFirst(b: Bucket, j: string, k: string)
    requires IsFirstFree(b, j) && IsFirstFree(b, k)
    ensures j == k
  {
    Total(j, k);
  }

  // -------------------------------------------------------------- operations

  /** The configured buffer, or 4 when it is not positive. */
  function Allocbuffer(configured: int): (n: nat)
    ensures n >= 1 && (configured >= 1 ==> n == configured)
  {
    if configured < 1 then 4 else configured
  }

  datatype Stat = Stat(total: nat, free: nat, used: nat, enabled: bool)

  datatype Key = Key(net: string, id: string)

  predicate Stored(db: Db, p: Key) { p.net in db && p.id in db[p.net] }

  predicate StoredUsed(db: Db, p: Key) { Stored(db, p) && db[p.net][p.id].used }

  predicate NoRepeats(ps: seq<Key>) { forall i, j :: 0 <= i < j < |ps| ==> ps[i] != ps[j] }

  /** `ps` are the entries of the store, each once. */
  ghost predicate ListsAll(ps: seq<Key>, db: Db) {
    NoRepeats(ps) && forall p :: p in ps <==> Stored(db, p)
  }

  /** `ps` are the used entries of the store, each once, and `allocs` are their values. */
  ghost predicate ListsUsed(ps: seq<Key>, allocs: seq<Allocation>, db: Db) {
    && NoRepeats(ps) && (forall p :: p in ps <==> StoredUsed(db, p))
    && |allocs| == |ps| && forall i :: 0 <= i < |ps| ==> Stored(db, ps[i]) && allocs[i] == db[ps[i].net][ps[i].id]
  }

  /** Add the reported allocations that are not there yet. */
  method PutMissing(b: Bucket, n: string, allocs: seq<Allocation>, f: Faults) returns (b': Bucket, ok: bool)
    ensures ok ==> b' == AddAllocs(b, n, allocs)
    ensures f == NO_FAULTS && n != "" && (forall i :: 0 <= i < |allocs| ==> allocs[i].id != "") ==> ok
  {
    b' := b;
    for i := 0 to |allocs|
      invariant b' == AddAllocs(b, n, allocs[..i])
    {
      if BucketFails(f, n) { return b', false; }
      var a := allocs[i];
      assert allocs[..i + 1][..i] == allocs[..i];
      if a.id !in b' {
        if PutFails(f, a.id) { return b', false; }
        b' := b'[a.id := Blank(a, n)];
      }
    }
    assert allocs[..|allocs|] == allocs;
    ok := true;
  }

  /** The first free entry in key order. */
  method FindFree(b: Bucket) returns (r: Option<string>)
    ensures r.Some? ==> IsFirstFree(b, r.value)
    ensures r.None? <==> FreeIds(b) == {}
  {
    var todo := b.Keys;
    while todo != {}
      invariant todo <= b.Keys
      invariant forall k :: k in b && k !in todo ==> b[k].used
      decreases todo
    {
      LeastExists(todo);
      var k :| IsLeast(k, todo);
      if !b[k].used {
        assert k in FreeIds(b);
        return Some(k);
      }
      todo := todo - {k};
    }
    r := None;
  }

  /** Put every entry of `allocs`, in any order. */
  method PutAll(b: Bucket, allocs: Bucket, f: Faults) returns (b': Bucket, ok: bool)
    ensures ok ==> b' == b + allocs
    ensures ok <==> !SomePutFails(f, allocs.Keys)
  {
    b' := b;
    ghost var added: Bucket := map[];
    assert b + added == b;
    var todo := allocs.Keys;
    while todo != {}
      invariant todo <= allocs.Keys && added.Keys == allocs.Keys - todo && b' == b + added
      invariant forall k :: k in added ==> added[k] == allocs[k] && !PutFails(f, k)
      decreases todo
    {
      var id :| id in todo;
      if PutFails(f, id) { return b', false; }
      PutOne(b, added, id, allocs[id]);
      b' := b'[id := allocs[id]];
      added := added[id := allocs[id]];
      todo := todo - {id};
    }
    assert added == allocs;
    ok := true;
  }

  /** Put every entry of `allocs`, in any order; the one that comes first is taken. */
  method PutAllTakeOne(b: Bucket, allocs: Bucket, box: string, f: Faults) returns (a: Option<Allocation>, b': Bucket, ok: bool)
    requires forall k :: k in allocs ==> allocs[k].id == k
    ensures ok ==> (a.None? <==> allocs == map[])
    ensures ok && a.Some? ==>
      a.value.id in allocs && a.value == Taken(allocs[a.value.id], box) && b' == b + allocs[a.value.id := a.value]
    ensures ok <==> !SomePutFails(f, allocs.Keys)
  {
    hide Taken;
    a, b' := None, b;
    ghost var added: Bucket := map[];
    assert b + added == b;
    var todo := allocs.Keys;
    while todo != {}
      invariant todo <= allocs.Keys && added.Keys == allocs.Keys - todo && b' == b + added
      invariant a.None? <==> added == map[]
      invariant a.Some? ==> a.value.id in added && a.value == Taken(allocs[a.value.id], box)
      invariant forall k :: k in added ==> !PutFails(f, k) && added[k] == if k == a.value.id then a.value else allocs[k]
      decreases todo
    {
      var id :| id in todo;
      var alloc := allocs[id];
      if a.None? {
        alloc := Taken(alloc, box);
        TakenId(allocs[id], box);
        a := Some(alloc);
      }
      if PutFails(f, id) { return a, b', false; }
      PutOne(b, added, id, alloc);
      b' := b'[id := alloc];
      added := added[id := alloc];
      todo := todo - {id};
    }
    ok := true;
    if a.Some? {
      assert added == allocs[a.value.id := a.value];
    } else {
      assert allocs.Keys == {};
    }
  }

  lemma TakenId(a: Allocation, box: string)
    ensures Taken(a, box).id == a.id
  {
  }

  lemma PutOne(b: Bucket, added: Bucket, id: string, a: Allocation)
    ensures (b + added)[id := a] == b + added[id := a]
  {
  }

  class MtnState {
    const enable: bool
    const allocbuffer: nat
    var db: Db

    /** `CfgInit` as far as the pool is concerned; `db` is whatever the file holds. */
    constructor (enable: bool, configured: int, db: Db)
      ensures this.enable == enable && this.allocbuffer == Allocbuffer(configured) && this.db == db
    {
      this.enable := enable;
      this.allocbuffer := Allocbuffer(configured);
      this.db := db;
    }

    method PoolInit(remote: Option<Remote>, f: Faults) returns (r: Outcome)
      modifies this
      ensures r.Failed? ==> db == old(db)
      ensures r == Failed(ErrIpbr) <==> enable && remote.None?
      ensures r.Done? ==> db == if enable then Merged(old(db), remote.value) else old(db)
      ensures f == NO_FAULTS && remote.Some? && "" !in remote.value
              && (forall n, i :: n in remote.value && 0 <= i < |remote.value[n]| ==> remote.value[n][i].id != "")
              ==> r.Done?
    {
      if !enable { return Done; }
      if remote.None? { return Failed(ErrIpbr); }
      if f.begin { return Failed(ErrStdb); }
      var all := remote.value;
      var tx := db;
      ghost var part: Remote := map[];
      MergedNothing(db);
      hide Merged, AddAllocs;
      var todo := all.Keys;
      while todo != {}
        invariant todo <= all.Keys && part.Keys == all.Keys - todo && forall n :: n in part ==> part[n] == all[n]
        invariant tx == Merged(db, part) && db == old(db)
        decreases todo
      {
        var n :| n in todo;
        MergedOneMore(db, part, n, all[n]);
        if all[n] != [] {
          var b, ok := PutMissing(BucketOf(tx, n), n, all[n], f);
          if !ok { return Failed(ErrStdb); }
          tx := tx[n := b];
        }
        part := part[n := all[n]];
        todo := todo - {n};
      }
      if f.commit { return Failed(ErrStdb); }
      assert part == all;
      db := tx;
      r := Done;
    }

    /** `posts` are the answers to this call's POSTs. */
    method RequestAllocs(n: string, posts: Posts) returns (r: Option<Bucket>)
      ensures r == Requested(posts, allocbuffer, n)
      ensures r.Some? && allocbuffer >= 1 ==> r.value != map[]
    {
      var got: Bucket := map[];
      for i := 0 to allocbuffer
        invariant Requested(posts, i, n) == Some(got)
      {
        var p := posts(i);
        if p.None? {
          RequestedPrefix(posts, i + 1, allocbuffer, n);
          return None;
        }
        got := got[p.value.id := FromRaw(p.value, n)];
      }
      RequestedMeaning(posts, allocbuffer, n);
      r := Some(got);
    }

    /** Every entry is seen once, in some order; the used ones are returned. */
    method UsedAllocations(f: Faults) returns (allocs: seq<Allocation>, stat: Stat, ok: bool, ghost all: seq<Key>, ghost used: seq<Key>)
      ensures stat.enabled == enable
      ensures !enable ==> allocs == [] && stat.total == 0 && ok
      ensures ok && enable ==> ListsAll(all, db) && ListsUsed(used, allocs, db)
      ensures ok && enable ==>
        stat.total == |all| && stat.used == |used| == |allocs| && stat.total == stat.free + stat.used
    {
      allocs, stat, all, used := [], Stat(0, 0, 0, enable), [], [];
      if !enable { return allocs, stat, true, all, used; }
      if f.begin { return allocs, stat, false, all, used; }
      var nets := db.Keys;
      while nets != {}
        invariant nets <= db.Keys
        invariant NoRepeats(all) && forall p :: p in all <==> Stored(db, p) && p.net !in nets
        invariant NoRepeats(used) && forall p :: p in used <==> StoredUsed(db, p) && p.net !in nets
        invariant |allocs| == |used| && forall i :: 0 <= i < |used| ==> Stored(db, used[i]) && allocs[i] == db[used[i].net][used[i].id]
        invariant stat.enabled == enable && stat.total == |all| && stat.used == |used|
        invariant stat.total == stat.free + stat.used
        decreases nets
      {
        var n :| n in nets;
        var b := db[n];
        var keys := b.Keys;
        while keys != {}
          invariant keys <= b.Keys
          invariant NoRepeats(all) && forall p :: p in all <==> Stored(db, p) && (p.net !in nets || (p.net == n && p.id !in keys))
          invariant NoRepeats(used) && forall p :: p in used <==> StoredUsed(db, p) && (p.net !in nets || (p.net == n && p.id !in keys))
          invariant |allocs| == |used| && forall i :: 0 <= i < |used| ==> Stored(db, used[i]) && allocs[i] == db[used[i].net][used[i].id]
          invariant stat.enabled == enable && stat.total == |all| && stat.used == |used|
          invariant stat.total == stat.free + stat.used
          decreases keys
        {
          var k :| k in keys;
          assert Key(n, k) !in all && Key(n, k) !in used;
          stat := stat.(total := stat.total + 1);
          all := all + [Key(n, k)];
          if !b[k].used {
            stat := stat.(free := stat.free + 1);
          } else {
            stat := stat.(used := stat.used + 1);
            allocs, used := allocs + [b[k]], used + [Key(n, k)];
          }
          keys := keys - {k};
        }
        nets := nets - {n};
      }
      ok := !f.commit;
    }

    method CountFreeAllocs(tx: Db, n: string, f: Faults) returns (count: nat, tx': Db, ok: bool)
      ensures ok <==> !BucketFails(f, n)
      ensures ok ==> count == |FreeIds(BucketOf(tx, n))| && tx' == tx[n := BucketOf(tx, n)]
    {
      count, tx' := 0, tx;
      if BucketFails(f, n) { return 0, tx, false; }
      var b := BucketOf(tx, n);
      tx' := tx[n := b];
      var todo := b.Keys;
      while todo != {}
        invariant todo <= b.Keys && count == |FreeIds(b) - todo|
        decreases todo
      {
        var k :| k in todo;
        CountOne(FreeIds(b), todo, k);
        if !b[k].used {
          count := count + 1;
        }
        todo := todo - {k};
      }
      assert FreeIds(b) - todo == FreeIds(b);
      ok := true;
    }

    /** Take the first free entry in key order, or request more. */
    method GetDbAlloc(tx: Db, n: string, box: string, posts: Posts, f: Faults) returns (g: Grant, tx': Db)
      ensures g.Granted? ==> Uses(tx, n, box, allocbuffer, posts, g.alloc, tx')
      ensures DenialOf(tx, n, allocbuffer, posts, f) == if g.Denied? then Some(g.why) else None
      ensures g == Denied(Bug) ==> allocbuffer == 0
      ensures f == NO_FAULTS && Shape(tx) && allocbuffer >= 1 && n != "" && n in tx && "" !in tx[n]
              && (FreeIds(tx[n]) == {} ==> Requested(posts, allocbuffer, n).Some? && "" !in Requested(posts, allocbuffer, n).value)
              ==> g.Granted?
    {
      hide Requested;
      tx' := tx;
      if n !in tx || n == "" { return Denied(NoBucket), tx; }
      var b := tx[n];
      var k := FindFree(b);
      if k.Some? {
        var taken := Taken(b[k.value], box);
        forall j | IsFirstFree(b, j)
          ensures j == k.value
        {
          OneFirst(b, j, k.value);
        }
        if PutFails(f, taken.id) { return Denied(StoreFailed), tx; }
        return Granted(taken), tx[n := b[taken.id := taken]];
      }
      var count, _, counted := CountFreeAllocs(tx, n, f);
      var r := RequestAllocs(n, posts);
      if r.None? { return Denied(RequestFailed), tx; }
      if BucketFails(f, n) { return Denied(StoreFailed), tx; }
      RequestedMeaning(posts, allocbuffer, n);
      var a, b', ok := PutAllTakeOne(b, r.value, box, f);
      if !ok { return Denied(StoreFailed), tx; }
      if a.None? { return Denied(Bug), tx; }
      g, tx' := Granted(a.value), tx[n := b'];
    }

    method FreeDbAlloc(n: string, k: string, f: Faults) returns (ok: bool)
      modifies this
      ensures !ok ==> db == old(db)
      ensures ok ==> n in old(db) && k in old(db)[n] && db == Freed(old(db), n, k)
      ensures ok <==> !f.begin && !f.commit && n != "" && n in old(db) && k in old(db)[n] && !PutFails(f, k)
    {
      if f.begin { return false; }
      if n !in db || n == "" { return false; }
      if k !in db[n] { return false; }
      var a := db[n][k].(used := false);
      if PutFails(f, k) { return false; }
      var tx := db[n := db[n][k := a]];
      if f.commit { return false; }
      db := tx;
      ok := true;
    }

    method BindAllocs(n: string, posts: Posts, f: Faults) returns (ok: bool)
      modifies this
      ensures !ok ==> db == old(db)
      ensures ok ==> Bound(old(db), n, allocbuffer, posts) == Some(db) && n != ""
      ensures ok <==>
        && !f.begin && !f.commit && !BucketFails(f, n)
        && (allocbuffer > |FreeIds(BucketOf(old(db), n))| ==>
              var r := Requested(posts, allocbuffer, n);
              r.Some? && !SomePutFails(f, r.value.Keys))
    {
      if n == "" || f.begin { return false; }
      var count, tx, counted := CountFreeAllocs(db, n, f);
      if !counted { return false; }
      if allocbuffer > count {
        var r := RequestAllocs(n, posts);
        if r.None? || BucketFails(f, n) { return false; }
        var b, put := PutAll(BucketOf(tx, n), r.value, f);
        if !put { return false; }
        tx := tx[n := b];
        assert tx == db[n := b];
      }
      if f.commit { return false; }
      db := tx;
      ok := true;
    }

    method UseAlloc(n: string, box: string, posts: Posts, f: Faults) returns (g: Grant)
      modifies this
      ensures g.Denied? ==> db == old(db)
      ensures g.Granted? ==> Uses(old(db), n, box, allocbuffer, posts, g.alloc, db)
      ensures
        var d := DenialOf(old(db), n, allocbuffer, posts, f);
        && (g.Granted? <==> !f.begin && !f.commit && d.None?)
        && (g.Denied? ==> g.why == if !f.begin && d.Some? then d.value else StoreFailed)
      ensures allocbuffer >= 1 ==> g != Denied(Bug)
    {
      if f.begin { return Denied(StoreFailed); }
      var got, tx := GetDbAlloc(db, n, box, posts, f);
      if got.Denied? { return got; }
      if f.commit { return Denied(StoreFailed); }
      db := tx;
      g := got;
    }

    /** Errors of the release are logged and dropped. */
    method UnuseAlloc(n: string, k: string, f: Faults)
      modifies this
      ensures
        if !f.begin && !f.commit && n != "" && n in old(db) && k in old(db)[n] && !PutFails(f, k) then
          db == Freed(old(db), n, k)
        else
          db == old(db)
    {
      var ok := FreeDbAlloc(n, k, f);
    }
  }

  lemma MergedOneMore(db: Db, part: Remote, n: string, allocs: seq<Allocation>)
    requires n !in part
    ensures
      var tx := Merged(db, part);
      && BucketOf(tx, n) == BucketOf(db, n)
      && Merged(db, part[n := allocs]) == (if allocs == [] then tx else tx[n := AddAllocs(BucketOf(db, n), n, allocs)])
  {
    hide AddAllocs;
    var more := part[n := allocs];
    assert Reported(more) == if allocs == [] then Reported(part) else Reported(part) + {n};
    assert n !in Reported(part);
    hide Reported;
  }

  lemma {:induction false} RequestedPrefix(posts: Posts, i: nat, count: nat, n: string)
    requires i <= count && Requested(posts, i, n).None?
    ensures Requested(posts, count, n).None?
    decreases count
  {
    if i < count {
      RequestedPrefix(posts, i, count - 1, n);
    }
  }

  lemma CountOne(free: set<string>, todo: set<string>, k: string)
    requires k in todo
    ensures |free - (todo - {k})| == |free - todo| + if k in free then 1 else 0
  {
    if k in free {
      assert free - (todo - {k}) == (free - todo) + {k};
    } else {
      assert free - (todo - {k}) == free - todo;
    }
  }

  lemma MergedNothing(db: Db)
    ensures Merged(db, map[]) == db
  {
  }
}
