/**
 Who holds which network address: containers that take an allocation, give it
 back, die or fail half-way, next to refills, restarts and garbage collection.
 Each step of a run is shown to keep "no address is held twice, and every held
 one is marked used" exactly when a condition on its inputs holds.
 */
module MtnRuns {
  import opened Options
  import opened Strings
  import opened MtnPool

  // ---------------------------------------------------------- garbage collector

  /** What Porto says about a container. */
  datatype PortoContainer = PortoContainer(state: string, ip: string)

  predicate HoldsIp(c: PortoContainer) {
    (c.state == "running" || c.state == "starting") && |c.ip| > 2
  }

  method LiveIps(cs: seq<PortoContainer>) returns (ips: seq<string>)
    ensures forall ip :: ip in ips <==> exists i :: 0 <= i < |cs| && HoldsIp(cs[i]) && cs[i].ip == ip
  {
    ips := [];
    for i := 0 to |cs|
      invariant forall ip :: ip in ips <==> exists j :: 0 <= j < i && HoldsIp(cs[j]) && cs[j].ip == ip
    {
      if HoldsIp(cs[i]) {
        ips := ips + [cs[i].ip];
      }
    }
  }

  /** The allocations whose address no live container has, in order. */
  function NotLive(s: seq<Allocation>, ips: seq<string>): seq<Allocation> {
    if |s| == 0 then []
    else NotLive(s[..|s| - 1], ips) + (if s[|s| - 1].ip in ips then [] else [s[|s| - 1]])
  }

  lemma {:induction false} NotLiveMeaning(s: seq<Allocation>, ips: seq<string>)
    ensures forall a :: a in NotLive(s, ips) <==> a in s && a.ip !in ips
  {
    if |s| == 0 {
    } else {
      NotLiveMeaning(s[..|s| - 1], ips);
      assert s == s[..|s| - 1] + [s[|s| - 1]];
    }
  }

  lemma NotLiveNext(s: seq<Allocation>, j: nat, ips: seq<string>)
    requires j < |s|
    ensures NotLive(s[..j + 1], ips) == NotLive(s[..j], ips) + (if s[j].ip in ips then [] else [s[j]])
  {
    assert s[..j + 1][..j] == s[..j];
  }

  lemma Cut<T>(kept: seq<T>, s: seq<T>, j: nat)
    requires j < |s|
    ensures
      var t, i := kept + s[j..], |kept|;
      && t[i] == s[j]
      && t[..i] + t[i + 1..] == kept + s[j + 1..]
      && t == kept + [s[j]] + s[j + 1..]
  {
    var t, i := kept + s[j..], |kept|;
    assert t[..i] == kept && t[i + 1..] == s[j + 1..];
  }

  /** The deletion loop with its index step back: what is left is the filtered list. */
  method RemoveLive(allocs: seq<Allocation>, ips: seq<string>) returns (left: seq<Allocation>)
    ensures left == NotLive(allocs, ips)
  {
    left := allocs;
    var i := 0;
    ghost var j, kept := 0, [];
    assert NotLive(allocs[..0], ips) == [];
    hide NotLive;
    while i < |left|
      invariant j <= |allocs| && i == |kept| && kept == NotLive(allocs[..j], ips)
      invariant left == kept + allocs[j..]
      decreases |left| - i
    {
      NotLiveNext(allocs, j, ips);
      Cut(kept, allocs, j);
      if left[i].ip in ips {
        left := left[..i] + left[i + 1..];
      } else {
        i := i + 1;
        kept := kept + [allocs[j]];
      }
      j := j + 1;
    }
    assert allocs[..j] == allocs;
  }

  /** A used entry of this box whose address no live container has. */
  predicate Garbage(a: Allocation, box: string, ips: seq<string>) {
    a.used && a.box == box && a.ip !in ips
  }

  /** The store after freeing the entries at `ps`. */
  function Released(db: Db, ps: set<Key>): Db {
    map n | n in db :: ReleasedIn(db[n], n, ps)
  }

  function ReleasedIn(b: Bucket, n: string, ps: set<Key>): Bucket {
    map k | k in b :: if Key(n, k) in ps then b[k].(used := false) else b[k]
  }

  /** The garbage of the store. */
  function GarbageKeys(db: Db, box: string, ips: seq<string>): set<Key> {
    set n, k | n in db && k in db[n] && Garbage(db[n][k], box, ips) :: Key(n, k)
  }

  /** The store after freeing every piece of garbage but the `failed` ones. */
  function Collected(db: Db, box: string, ips: seq<string>, failed: set<Key>): Db {
    Released(db, GarbageKeys(db, box, ips) - failed)
  }

  lemma ReleasedOne(db: Db, ps: set<Key>, p: Key)
    requires Stored(db, p)
    ensures Stored(Released(db, ps), p) && Freed(Released(db, ps), p.net, p.id) == Released(db, ps + {p})
  {
    var r: Db, q: Db := Released(db, ps), Released(db, ps + {p});
    assert r[p.net][p.id := r[p.net][p.id].(used := false)] == q[p.net];
    forall n | n in db && n != p.net
      ensures r[n] == q[n]
    {
    }
  }

  lemma ReleasedNone(db: Db)
    ensures Released(db, {}) == db
  {
    forall n | n in db
      ensures Released(db, {})[n] == db[n]
    {
    }
  }

  function Targets(left: seq<Allocation>, box: string): set<Key> {
    set j | 0 <= j < |left| && left[j].box == box :: Key(left[j].netId, left[j].id)
  }

  lemma TargetsNext(left: seq<Allocation>, box: string, i: nat)
    requires i < |left|
    ensures Targets(left[..i + 1], box) ==
            Targets(left[..i], box) + (if left[i].box == box then {Key(left[i].netId, left[i].id)} else {})
  {
    var t := Targets(left[..i + 1], box);
    forall p | p in Targets(left[..i], box)
      ensures p in t
    {
      var j :| 0 <= j < i && left[..i][j].box == box && p == Key(left[..i][j].netId, left[..i][j].id);
      assert left[..i + 1][j] == left[..i][j];
    }
    assert left[..i + 1][i] == left[i];
    forall p | p in t
      ensures p in Targets(left[..i], box) || (left[i].box == box && p == Key(left[i].netId, left[i].id))
    {
      var j :| 0 <= j < i + 1 && left[..i + 1][j].box == box && p == Key(left[..i + 1][j].netId, left[..i + 1][j].id);
      if j < i {
        assert left[..i][j] == left[..i + 1][j];
      }
    }
  }

  /** The store can address them. */
  predicate Named(ps: set<Key>) { forall p :: p in ps ==> p.net != "" && p.id != "" }

  /** Release the allocations of this box one by one. */
  method ReleaseAll(state: MtnState, left: seq<Allocation>, box: string, faults: Key -> Faults)
    returns (ghost freed: set<Key>, ghost failed: set<Key>)
    requires forall i :: 0 <= i < |left| ==> Stored(state.db, Key(left[i].netId, left[i].id))
    modifies state
    ensures state.db == Released(old(state.db), freed)
    ensures freed + failed == Targets(left, box) && freed !! failed
    ensures (forall p :: faults(p) == NO_FAULTS) && Named(Targets(left, box)) ==> failed == {}
  {
    freed, failed := {}, {};
    ghost var db0 := state.db;
    ReleasedNone(db0);
    for i := 0 to |left|
      invariant state.db == Released(db0, freed) && freed + failed == Targets(left[..i], box) && freed !! failed
      invariant (forall p :: faults(p) == NO_FAULTS) && Named(Targets(left[..i], box)) ==> failed == {}
    {
      TargetsNext(left, box, i);
      hide Released, Targets, Freed;
      if left[i].box == box {
        ghost var p := Key(left[i].netId, left[i].id);
        ReleasedOne(db0, freed, p);
        ghost var before := state.db;
        state.UnuseAlloc(left[i].netId, left[i].id, faults(Key(left[i].netId, left[i].id)));
        if state.db == Freed(before, p.net, p.id) {
          freed, failed := freed + {p}, failed - {p};
        } else {
          failed := failed + ({p} - freed);
          FreedAgain(db0, freed, p);
        }
      }
    }
    assert left[..|left|] == left;
  }

  lemma FreedAgain(db: Db, ps: set<Key>, p: Key)
    requires Stored(db, p) && Stored(Released(db, ps), p)
    ensures p in ps ==> Freed(Released(db, ps), p.net, p.id) == Released(db, ps)
  {
    if p in ps {
      ReleasedOne(db, ps, p);
      assert ps + {p} == ps;
    }
  }

  /**
   One collection pass.  `failed` are the releases that did not go through; when
   none can fail it is empty, and then exactly the garbage has been freed.
   */
  method CollectGarbage(state: MtnState, box: string, cs: seq<PortoContainer>, scan: Faults, faults: Key -> Faults)
    returns (ok: bool, ips: seq<string>, ghost failed: set<Key>)
    requires Shape(state.db)
    modifies state
    ensures forall ip :: ip in ips <==> exists i :: 0 <= i < |cs| && HoldsIp(cs[i]) && cs[i].ip == ip
    ensures !ok || !state.enable ==> state.db == old(state.db)
    ensures ok && state.enable ==> state.db == Collected(old(state.db), box, ips, failed)
    ensures (forall p :: faults(p) == NO_FAULTS) && (forall p :: Stored(old(state.db), p) ==> p.net != "" && p.id != "") ==> failed == {}
  {
    hide Released;
    failed := {};
    var allocs, stat, scanned, all, used := state.UsedAllocations(scan);
    ips := LiveIps(cs);
    if !scanned { return false, ips, failed; }
    ok := true;
    if !state.enable { return; }
    var left := RemoveLive(allocs, ips);
    ghost var db0 := state.db;
    LeftOver(db0, used, allocs, left, box, ips);
    ghost var freed;
    freed, failed := ReleaseAll(state, left, box, faults);
    assert freed == GarbageKeys(db0, box, ips) - failed;
  }

  /** What the scan returns and the filter leaves is the garbage of every box. */
  lemma LeftOver(db: Db, used: seq<Key>, allocs: seq<Allocation>, left: seq<Allocation>, box: string, ips: seq<string>)
    requires Shape(db) && ListsUsed(used, allocs, db) && left == NotLive(allocs, ips)
    ensures forall i :: 0 <= i < |left| ==> Stored(db, Key(left[i].netId, left[i].id))
    ensures Targets(left, box) == GarbageKeys(db, box, ips)
  {
    NotLiveMeaning(allocs, ips);
    forall a | a in left
      ensures StoredUsed(db, Key(a.netId, a.id)) && db[a.netId][a.id] == a && a.ip !in ips
    {
      UsedIsStored(db, used, allocs, a);
    }
    forall p | p in Targets(left, box)
      ensures p in GarbageKeys(db, box, ips)
    {
      var j :| 0 <= j < |left| && left[j].box == box && p == Key(left[j].netId, left[j].id);
      assert left[j] in left;
    }
    forall p | p in GarbageKeys(db, box, ips)
      ensures p in Targets(left, box)
    {
      assert StoredUsed(db, p) && p in used;
      var i :| 0 <= i < |used| && used[i] == p;
      assert allocs[i] == db[p.net][p.id] && allocs[i] in left;
      var j :| 0 <= j < |left| && left[j] == allocs[i];
    }
  }

  lemma UsedIsStored(db: Db, used: seq<Key>, allocs: seq<Allocation>, a: Allocation)
    requires Shape(db) && ListsUsed(used, allocs, db) && a in allocs
    ensures StoredUsed(db, Key(a.netId, a.id)) && db[a.netId][a.id] == a
  {
    var i :| 0 <= i < |allocs| && allocs[i] == a;
    assert used[i] in used;
  }

  /** Collection frees the garbage, and touches nothing else. */
  lemma CollectedExactly(db: Db, box: string, ips: seq<string>, p: Key)
    requires Stored(db, p)
    ensures
      var db' := Collected(db, box, ips, {});
      && Stored(db', p)
      && db'[p.net][p.id] == (var a := db[p.net][p.id]; if Garbage(a, box, ips) then a.(used := false) else a)
  {
    assert p in GarbageKeys(db, box, ips) <==> Garbage(db[p.net][p.id], box, ips);
  }

  // -------------------------------------------------------------------- runs

  /** A container, or one being created, with the entry it was given. */
  datatype Holder = Holder(key: Key, cleaned: bool)

  datatype Sys = Sys(db: Db, holders: map<nat, Holder>)

  datatype Event =
    | Idle                                                             // an operation that failed and rolled back
    | Pool(remote: Remote)                                             // start-up merge
    | Bind(n: string, posts: Posts)                                    // refill at spool
    | Acquire(h: nat, n: string, box: string, posts: Posts, a: Allocation)   // container creation takes an entry
    | Vanish(h: nat)                                                   // creation fails later, or the container or the daemon dies
    | Cleanup(h: nat, ok: bool)                                        // the release may fail
    | Gc(box: string, ips: seq<string>, failed: set<Key>)

  /** Clean-up releases once: the flag is set whether or not the release went through. */
  function AfterCleanup(s: Sys, h: nat, ok: bool): Sys
    requires h in s.holders
  {
    var c := s.holders[h];
    if c.cleaned then s
    else Sys(if ok && Stored(s.db, c.key) then Freed(s.db, c.key.net, c.key.id) else s.db, s.holders[h := c.(cleaned := true)])
  }

  ghost predicate Next(buffer: nat, s: Sys, e: Event, s': Sys) {
    match e
    case Idle => s' == s
    case Pool(remote) => s' == s.(db := Merged(s.db, remote))
    case Bind(n, posts) => Bound(s.db, n, buffer, posts) == Some(s'.db) && s'.holders == s.holders
    case Acquire(h, n, box, posts, a) =>
      h !in s.holders && Uses(s.db, n, box, buffer, posts, a, s'.db) && s'.holders == s.holders[h := Holder(Key(n, a.id), false)]
    case Vanish(h) => s' == s.(holders := s.holders - {h})
    case Cleanup(h, ok) => h in s.holders && s' == AfterCleanup(s, h, ok)
    case Gc(box, ips, failed) => s' == s.(db := Collected(s.db, box, ips, failed))
  }

  predicate Holds(s: Sys, h: nat) { h in s.holders && !s.holders[h].cleaned }

  ghost predicate Held(s: Sys, p: Key) { exists h :: Holds(s, h) && s.holders[h].key == p }

  /** No entry is held twice and every held entry is marked used. */
  ghost predicate Safe(s: Sys) {
    && Shape(s.db)
    && (forall h :: Holds(s, h) ==> StoredUsed(s.db, s.holders[h].key))
    && (forall h, g :: Holds(s, h) && Holds(s, g) && s.holders[h].key == s.holders[g].key ==> h == g)
  }

  /** None of the ids the allocator hands out for `n` is held at the moment. */
  ghost predicate Fresh(s: Sys, n: string, buffer: nat, posts: Posts) {
    Requested(posts, buffer, n).Some? ==> forall id :: id in Requested(posts, buffer, n).value ==> !Held(s, Key(n, id))
  }

  /** What a step needs of its inputs. */
  ghost predicate Proper(buffer: nat, s: Sys, e: Event) {
    match e
    case Bind(n, posts) => |FreeIds(BucketOf(s.db, n))| < buffer ==> Fresh(s, n, buffer, posts)
    case Acquire(_, n, _, posts, _) => n in s.db && FreeIds(s.db[n]) == {} ==> Fresh(s, n, buffer, posts)
    case Gc(box, ips, failed) =>
      forall p :: Held(s, p) && Stored(s.db, p) && Garbage(s.db[p.net][p.id], box, ips) ==> p in failed
    case _ => true
  }

  lemma PoolStep(s: Sys, remote: Remote)
    requires Safe(s)
    ensures Safe(s.(db := Merged(s.db, remote)))
  {
    MergedShape(s.db, remote);
    var s' := s.(db := Merged(s.db, remote));
    forall h | Holds(s', h)
      ensures StoredUsed(s'.db, s'.holders[h].key)
    {
      assert Holds(s, h);
      MergedKeeps(s.db, remote, s.holders[h].key.net, s.holders[h].key.id);
    }
  }

  lemma BoundAdds(db: Db, n: string, buffer: nat, posts: Posts)
    requires Bound(db, n, buffer, posts).Some? && |FreeIds(BucketOf(db, n))| < buffer
    ensures Requested(posts, buffer, n).Some?
    ensures
      var r, db' := Requested(posts, buffer, n).value, Bound(db, n, buffer, posts).value;
      && (forall id :: id in r ==> !StoredUsed(db', Key(n, id)))
      && (forall p: Key :: !(p.net == n && p.id in r) ==> (StoredUsed(db', p) <==> StoredUsed(db, p)))
  {
    RequestedMeaning(posts, buffer, n);
    hide Requested;
  }

  lemma BindStep(buffer: nat, s: Sys, n: string, posts: Posts, s': Sys)
    requires Safe(s) && Next(buffer, s, Bind(n, posts), s')
    ensures Safe(s') <==> Proper(buffer, s, Bind(n, posts))
  {
    BoundShape(s.db, n, buffer, posts);
    assert forall h :: Holds(s', h) <==> Holds(s, h);
    if |FreeIds(BucketOf(s.db, n))| < buffer {
      BoundAdds(s.db, n, buffer, posts);
      hide Requested, Bound, Shape, StoredUsed;
      var r := Requested(posts, buffer, n).value;
      if Fresh(s, n, buffer, posts) {
        forall h | Holds(s', h)
          ensures StoredUsed(s'.db, s'.holders[h].key)
        {
          var p := s.holders[h].key;
          assert Held(s, p) && p == Key(p.net, p.id);
        }
      } else {
        var id :| id in r && Held(s, Key(n, id));
        var h :| Holds(s, h) && s.holders[h].key == Key(n, id);
        assert Holds(s', h) && !StoredUsed(s'.db, s'.holders[h].key);
      }
    }
  }

  lemma AcquireFree(buffer: nat, s: Sys, e: Event, s': Sys)
    requires Safe(s) && e.Acquire? && Next(buffer, s, e, s') && FreeIds(s.db[e.n]) != {}
    ensures Safe(s')
  {
    UsesShape(s.db, e.n, e.box, buffer, e.posts, e.a, s'.db);
    forall h | Holds(s', h) && h != e.h
      ensures Holds(s, h) && StoredUsed(s'.db, s'.holders[h].key) && s'.holders[h].key != Key(e.n, e.a.id)
    {
      assert Holds(s, h);
    }
  }

  /** What a request adds: every new id is unused but the one taken, the rest stays. */
  lemma UsesAdds(db: Db, n: string, box: string, buffer: nat, posts: Posts, a: Allocation, db': Db)
    requires Uses(db, n, box, buffer, posts, a, db') && FreeIds(db[n]) == {}
    ensures Requested(posts, buffer, n).Some? && StoredUsed(db', Key(n, a.id))
    ensures
      var r := Requested(posts, buffer, n).value;
      && a.id in r
      && (forall id :: id in r && id != a.id ==> !StoredUsed(db', Key(n, id)))
      && (forall p: Key :: !(p.net == n && p.id in r) ==> (StoredUsed(db', p) <==> StoredUsed(db, p)))
  {
    RequestedMeaning(posts, buffer, n);
    hide Requested;
  }

  lemma AcquireHolders(s: Sys, h: nat, c: Holder, s': Sys)
    requires h !in s.holders && !c.cleaned && s'.holders == s.holders[h := c]
    ensures Holds(s', h) && s'.holders[h] == c
    ensures forall g :: Holds(s, g) ==> Holds(s', g) && s'.holders[g] == s.holders[g] && g != h
    ensures forall g :: Holds(s', g) && g != h ==> Holds(s, g)
  {
  }

  lemma AcquireNew(buffer: nat, s: Sys, e: Event, s': Sys)
    requires Safe(s) && e.Acquire? && Next(buffer, s, e, s') && FreeIds(s.db[e.n]) == {}
    ensures Safe(s') <==> Fresh(s, e.n, buffer, e.posts)
  {
    UsesShape(s.db, e.n, e.box, buffer, e.posts, e.a, s'.db);
    UsesAdds(s.db, e.n, e.box, buffer, e.posts, e.a, s'.db);
    AcquireHolders(s, e.h, Holder(Key(e.n, e.a.id), false), s');
    hide Requested, Next, Shape, StoredUsed, Holds;
    var r := Requested(e.posts, buffer, e.n).value;
    if Fresh(s, e.n, buffer, e.posts) {
      forall h | Holds(s', h) && h != e.h
        ensures StoredUsed(s'.db, s'.holders[h].key) && s'.holders[h].key != Key(e.n, e.a.id)
      {
        var p := s.holders[h].key;
        assert Holds(s, h) && Held(s, p) && p == Key(p.net, p.id);
      }
    } else {
      var id :| id in r && Held(s, Key(e.n, id));
      var h :| Holds(s, h) && s.holders[h].key == Key(e.n, id);
      if id != e.a.id {
        assert !StoredUsed(s'.db, s'.holders[h].key);
      }
    }
  }

  lemma CleanupStep(s: Sys, h: nat, ok: bool)
    requires Safe(s) && h in s.holders
    ensures Safe(AfterCleanup(s, h, ok))
  {
    var s' := AfterCleanup(s, h, ok);
    forall g | Holds(s', g)
      ensures Holds(s, g) && s'.holders[g] == s.holders[g] && StoredUsed(s'.db, s'.holders[g].key)
    {
      assert Holds(s, g);
    }
  }

  lemma ReleasedAt(db: Db, ps: set<Key>, p: Key)
    ensures Stored(Released(db, ps), p) <==> Stored(db, p)
    ensures Stored(db, p) ==>
      Released(db, ps)[p.net][p.id] == if p in ps then db[p.net][p.id].(used := false) else db[p.net][p.id]
  {
  }

  lemma GcStep(s: Sys, box: string, ips: seq<string>, failed: set<Key>, buffer: nat)
    requires Safe(s)
    ensures Safe(s.(db := Collected(s.db, box, ips, failed))) <==> Proper(buffer, s, Gc(box, ips, failed))
  {
    var ps := GarbageKeys(s.db, box, ips) - failed;
    var s' := s.(db := Released(s.db, ps));
    assert forall h :: Holds(s', h) <==> Holds(s, h);
    ReleasedShape(s.db, ps);
    hide Released, Shape;
    if Proper(buffer, s, Gc(box, ips, failed)) {
      forall h | Holds(s', h)
        ensures StoredUsed(s'.db, s'.holders[h].key)
      {
        var p := s.holders[h].key;
        assert Holds(s, h) && Held(s, p) && StoredUsed(s.db, p);
        ReleasedAt(s.db, ps, p);
        assert p in GarbageKeys(s.db, box, ips) ==> Garbage(s.db[p.net][p.id], box, ips);
      }
    } else {
      var p :| Held(s, p) && Stored(s.db, p) && Garbage(s.db[p.net][p.id], box, ips) && p !in failed;
      var h :| Holds(s, h) && s.holders[h].key == p;
      assert p in GarbageKeys(s.db, box, ips);
      ReleasedAt(s.db, ps, p);
      assert Holds(s', h) && !StoredUsed(s'.db, p);
    }
  }

  /** Each step keeps the pool safe exactly when its inputs are proper. */
  lemma StepExactly(buffer: nat, s: Sys, e: Event, s': Sys)
    requires Safe(s) && Next(buffer, s, e, s')
    ensures Safe(s') <==> Proper(buffer, s, e)
  {
    hide Merged, Bound, Collected, AfterCleanup, Shape, FreeIds;
    match e
    case Idle =>
    case Pool(remote) => PoolStep(s, remote);
    case Bind(n, posts) => BindStep(buffer, s, n, posts, s');
    case Acquire(_, n, _, _, _) =>
      if FreeIds(s.db[n]) != {} {
        AcquireFree(buffer, s, e, s');
      } else {
        AcquireNew(buffer, s, e, s');
      }
    case Vanish(h) =>
      assert forall g :: Holds(s', g) ==> Holds(s, g) && s'.holders[g] == s.holders[g];
    case Cleanup(h, ok) => CleanupStep(s, h, ok);
    case Gc(box, ips, failed) => GcStep(s, box, ips, failed, buffer);
  }

  ghost predicate Run(buffer: nat, states: seq<Sys>, events: seq<Event>) {
    && |states| == |events| + 1
    && forall i :: 0 <= i < |events| ==> Next(buffer, states[i], events[i], states[i + 1])
  }

  lemma ReleasedShape(db: Db, ps: set<Key>)
    requires Shape(db)
    ensures Shape(Released(db, ps))
  {
    forall n, k | n in Released(db, ps) && k in Released(db, ps)[n]
      ensures Released(db, ps)[n][k].id == k && Released(db, ps)[n][k].netId == n
    {
      ReleasedAt(db, ps, Key(n, k));
    }
  }

  /** Whatever the allocator returns: in every store of every run, entries are under their own id and network. */
  lemma {:induction false} ShapeAlways(buffer: nat, states: seq<Sys>, events: seq<Event>, k: nat)
    requires Run(buffer, states, events) && k < |states| && Shape(states[0].db)
    ensures Shape(states[k].db)
    decreases k
  {
    if k == 0 {
    } else {
      ShapeAlways(buffer, states, events, k - 1);
      var s, e := states[k - 1], events[k - 1];
      assert Next(buffer, s, e, states[k]);
      hide Run, Shape, Merged, Bound, Released, GarbageKeys, Uses;
      match e
      case Pool(remote) => MergedShape(s.db, remote);
      case Bind(n, posts) => BoundShape(s.db, n, buffer, posts);
      case Acquire(_, n, box, posts, a) => UsesShape(s.db, n, box, buffer, posts, a, states[k].db);
      case Cleanup(h, _) => FreedShape(s.db, s.holders[h].key);
      case Gc(box, ips, failed) => ReleasedShape(s.db, GarbageKeys(s.db, box, ips) - failed);
      case _ =>
    }
  }

  lemma FreedShape(db: Db, p: Key)
    requires Shape(db)
    ensures Stored(db, p) ==> Shape(Freed(db, p.net, p.id))
  {
  }

  /** Along every run of proper steps from an unheld pool, no address is ever handed to two holders. */
  lemma {:induction false} NoDoubleHandOut(buffer: nat, states: seq<Sys>, events: seq<Event>, k: nat)
    requires Run(buffer, states, events) && k < |states|
    requires Shape(states[0].db) && states[0].holders == map[]
    requires forall i :: 0 <= i < |events| ==> Proper(buffer, states[i], events[i])
    ensures Safe(states[k])
    decreases k
  {
    hide Next, Proper;
    if k > 0 {
      NoDoubleHandOut(buffer, states, events, k - 1);
      StepExactly(buffer, states[k - 1], events[k - 1], states[k]);
    } else {
      assert forall h :: !Holds(states[0], h);
    }
  }

  /** A release repeated without the once-only flag is harmless exactly when nobody has the entry now. */
  lemma ReleaseAgain(s: Sys, h: nat)
    requires Safe(s) && h in s.holders && s.holders[h].cleaned && Stored(s.db, s.holders[h].key)
    ensures
      var p := s.holders[h].key;
      Safe(s.(db := Freed(s.db, p.net, p.id))) <==> !Held(s, p)
  {
    var p := s.holders[h].key;
    var s' := s.(db := Freed(s.db, p.net, p.id));
    assert forall g :: Holds(s', g) <==> Holds(s, g);
    if Held(s, p) {
      var g :| Holds(s, g) && s.holders[g].key == p;
      assert Holds(s', g) && !StoredUsed(s'.db, p);
    } else {
      forall g | Holds(s', g)
        ensures StoredUsed(s'.db, s'.holders[g].key)
      {
        assert Holds(s, g) && Held(s, s.holders[g].key);
      }
    }
  }

  /** A refill that is answered with an id in use marks the address of its holder free. */
  lemma RefillOverwrites(raw: RawAlloc) returns (s: Sys, posts: Posts)
    ensures Safe(s) && Held(s, Key("net", raw.id))
    ensures
      var db' := Bound(s.db, "net", 1, posts);
      db'.Some? && Next(1, s, Bind("net", posts), s.(db := db'.value)) && !Safe(s.(db := db'.value))
  {
    var used := FromRaw(raw, "net").(used := true);
    var b: Bucket := map[raw.id := used];
    s := Sys(map["net" := b], map[0 := Holder(Key("net", raw.id), false)]);
    posts := (i: nat) => Some(raw);
    assert FreeIds(b) == {};
    assert Holds(s, 0) && Held(s, Key("net", raw.id));
    assert Requested(posts, 0, "net") == Some(map[]);
    assert Requested(posts, 1, "net") == Some(map[raw.id := FromRaw(raw, "net")]);
    assert raw.id in Requested(posts, 1, "net").value;
    var s' := s.(db := Bound(s.db, "net", 1, posts).value);
    BindStep(1, s, "net", posts, s');
  }

  /** `box` takes the only entry of network "net" twice, giving it back in between. */
  lemma SecondTenant(buffer: nat, posts: Posts, ip: string, box: string) returns (states: seq<Sys>, events: seq<Event>)
    ensures Run(buffer, states, events) && |events| == 3
    ensures Shape(states[0].db) && states[0].holders == map[]
    ensures forall i :: 0 <= i < |events| ==> Proper(buffer, states[i], events[i])
    ensures
      var s := states[3];
      && 0 in s.holders && s.holders[0] == Holder(Key("net", "id"), true)
      && Holds(s, 1) && s.holders[1].key == Key("net", "id")
      && StoredUsed(s.db, Key("net", "id")) && s.db["net"]["id"].box == box && s.db["net"]["id"].ip == ip
  {
    var free := Allocation("n", "h", ip, "id", "net", box, false);
    var used := free.(used := true);
    var p := Key("net", "id");
    var b0, b1: Bucket := map["id" := free], map["id" := used];
    var db0, db1: Db := map["net" := b0], map["net" := b1];
    assert b0[used.id := used] == b1 && b1["id" := free] == b0;
    assert db0["net" := b1] == db1 && db1["net" := b0] == db0;
    assert IsFirstFree(b0, "id") && "id" in FreeIds(b0) by { Reflexive("id"); }
    var s0 := Sys(db0, map[]);
    var s1 := Sys(db1, s0.holders[0 := Holder(p, false)]);
    var s2 := Sys(db0, s1.holders[0 := Holder(p, true)]);
    var s3 := Sys(db1, s2.holders[1 := Holder(p, false)]);
    states := [s0, s1, s2, s3];
    events := [Acquire(0, "net", box, posts, used), Cleanup(0, true), Acquire(1, "net", box, posts, used)];
    assert Freed(db1, "net", "id") == db0;
    assert Next(buffer, s0, events[0], s1) && Next(buffer, s1, events[1], s2) && Next(buffer, s2, events[2], s3);
  }

  /** Without the flag, a second clean-up would take the address from its next holder. */
  lemma FlagIsNeeded(buffer: nat, posts: Posts) returns (states: seq<Sys>, events: seq<Event>)
    ensures Run(buffer, states, events) && Shape(states[0].db) && states[0].holders == map[]
    ensures forall i :: 0 <= i < |events| ==> Proper(buffer, states[i], events[i])
    ensures
      var s := states[|events|];
      && 0 in s.holders && s.holders[0].cleaned && Stored(s.db, s.holders[0].key)
      && !Safe(s.(db := Freed(s.db, s.holders[0].key.net, s.holders[0].key.id)))
  {
    states, events := SecondTenant(buffer, posts, "10.0.0.1", "box");
    NoDoubleHandOut(buffer, states, events, 3);
    ReleaseAgain(states[3], 0);
  }

  /** A collection that runs before a new container is up takes its address away. */
  lemma GcIsEarly(buffer: nat, posts: Posts, ip: string, box: string, ips: seq<string>) returns (states: seq<Sys>, events: seq<Event>)
    requires ip !in ips
    ensures Run(buffer, states, events) && Shape(states[0].db) && states[0].holders == map[]
    ensures forall i :: 0 <= i < |events| ==> Proper(buffer, states[i], events[i])
    ensures var s := states[|events|]; Safe(s) && !Safe(s.(db := Collected(s.db, box, ips, {})))
  {
    states, events := SecondTenant(buffer, posts, ip, box);
    NoDoubleHandOut(buffer, states, events, 3);
    GcStep(states[3], box, ips, {}, buffer);
    assert Held(states[3], Key("net", "id"));
  }

  // -------------------------------------------------------------- containers

  function Lookup(m: map<string, string>, k: string): string { if k in m then m[k] else "" }

  class Container {
    const mtn: bool
    const netId: string
    const allocId: string
    var cleaned: bool

    constructor (mtn: bool, netId: string, allocId: string)
      ensures this.mtn == mtn && this.netId == netId && this.allocId == allocId && cleaned == !mtn
    {
      this.mtn, this.netId, this.allocId, this.cleaned := mtn, netId, allocId, !mtn;
    }

    function AsHolder(): Holder
      reads this
    {
      Holder(Key(netId, allocId), cleaned)
    }

    /** Give the address back, once. */
    method Cleanup(state: MtnState, f: Faults) returns (ghost ok: bool)
      requires !mtn ==> cleaned
      modifies this, state
      ensures cleaned
      ensures AfterCleanup(Sys(old(state.db), map[0 := old(AsHolder())]), 0, ok) == Sys(state.db, map[0 := AsHolder()])
      ensures f == NO_FAULTS && netId != "" && allocId != "" ==> ok
    {
      ghost var db0 := state.db;
      ok := true;
      if mtn {
        if !cleaned {
          state.UnuseAlloc(netId, allocId, f);
          ok := !Stored(db0, Key(netId, allocId)) || state.db == Freed(db0, netId, allocId);
          cleaned := true;
        }
      }
    }
  }

  /**
   Creation of a container: when the network is managed here and the profile asks
   for it, an entry is taken before the container's properties are set; `rest`
   says whether everything after that succeeds.  When it does not, the entry
   stays marked used with nobody holding it.
   */
  method CreateContainer(state: MtnState, network: map<string, string>, box: string, posts: Posts, f: Faults, rest: bool)
    returns (c: Container?, ghost taken: Option<Allocation>)
    modifies state
    ensures c != null ==> fresh(c)
    ensures taken.Some? ==> state.enable && "mtn" in network && network["mtn"] == "enable"
    ensures taken.None? ==> state.db == old(state.db)
    ensures taken.Some? ==>
      Uses(old(state.db), Lookup(network, "netid"), box, state.allocbuffer, posts, taken.value, state.db)
    ensures c != null ==> rest && c.mtn == taken.Some? && c.cleaned == !c.mtn
    ensures c != null && c.mtn ==> c.AsHolder() == Holder(Key(Lookup(network, "netid"), taken.value.id), false)
    ensures c == null ==> !rest || (state.enable && Lookup(network, "mtn") == "enable" && taken.None?)
  {
    var mtn, id := false, "";
    taken := None;
    if state.enable {
      if Lookup(network, "mtn") == "enable" {
        var g := state.UseAlloc(Lookup(network, "netid"), box, posts, f);
        if g.Denied? { return null, None; }
        mtn, id, taken := true, g.alloc.id, Some(g.alloc);
      }
    }
    if !rest { return null, taken; }
    c := new Container(mtn, Lookup(network, "netid"), id);
  }
}
