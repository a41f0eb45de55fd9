/**
 The journal of imported layers.  Pruning sorts the list of layers that are left,
 looks every journalled layer up by binary search, and deletes the others; it
 refines the restriction of a map to a set.
 */
module Journal {
  import opened Strings

  predicate Sorted(s: seq<string>) { forall i, j :: 0 <= i < j < |s| ==> Leq(s[i], s[j]) }

  /** Neighbours in order: what the check before the sort looks at. */
  predicate Stepwise(s: seq<string>) { forall i :: 0 < i < |s| ==> Leq(s[i - 1], s[i]) }

  lemma {:induction false} StepwiseSorted(s: seq<string>, i: nat, j: nat)
    requires Stepwise(s) && i <= j < |s|
    ensures Leq(s[i], s[j])
    decreases j - i
  {
    if i == j {
      Reflexive(s[i]);
    } else {
      StepwiseSorted(s, i, j - 1);
      Transitive(s[i], s[j - 1], s[j]);
    }
  }

  lemma SortedByNeighbours(s: seq<string>)
    requires Stepwise(s)
    ensures Sorted(s)
  {
    forall i, j | 0 <= i < j < |s|
      ensures Leq(s[i], s[j])
    {
      StepwiseSorted(s, i, j);
    }
  }

  method StringsAreSorted(a: array<string>) returns (ok: bool)
    ensures ok <==> Sorted(a[..])
  {
    var i := a.Length;
    while i > 1
      invariant forall k :: i <= k < a.Length && k > 0 ==> Leq(a[k - 1], a[k])
    {
      i := i - 1;
      if !Leq(a[i - 1], a[i]) {
        assert !Leq(a[..][i - 1], a[..][i]);
        return false;
      }
    }
    SortedByNeighbours(a[..]);
    ok := true;
  }

  /** In order but for the element at `j`, which is not larger than what follows it. */
  ghost predicate Inserting(s: seq<string>, n: nat, j: nat) {
    && j <= n < |s|
    && (forall p, q :: 0 <= p < q <= n && p != j && q != j ==> Leq(s[p], s[q]))
    && (forall q :: j < q <= n ==> Leq(s[j], s[q]))
  }

  lemma SwapDown(s: seq<string>, n: nat, j: nat)
    requires Inserting(s, n, j) && 0 < j && !Leq(s[j - 1], s[j])
    ensures Inserting(s[j := s[j - 1]][j - 1 := s[j]], n, j - 1)
    ensures multiset(s[j := s[j - 1]][j - 1 := s[j]]) == multiset(s)
  {
    Total(s[j - 1], s[j]);
    hide Leq;
  }

  lemma Inserted(s: seq<string>, n: nat, j: nat)
    requires Inserting(s, n, j) && (j == 0 || Leq(s[j - 1], s[j]))
    ensures Sorted(s[..n + 1])
  {
    forall p, q | 0 <= p < q <= n
      ensures Leq(s[p], s[q])
    {
      if q == j && p < j - 1 {
        Transitive(s[p], s[j - 1], s[j]);
      }
    }
  }

  /** Move `a[n]` down to its place. */
  method InsertAt(a: array<string>, n: nat)
    requires n < a.Length && Sorted(a[..n])
    modifies a
    ensures Sorted(a[..n + 1]) && multiset(a[..]) == multiset(old(a[..]))
  {
    var j := n;
    StartInserting(a[..], n);
    hide Leq, Sorted, Inserting;
    while j > 0 && !Leq(a[j - 1], a[j])
      invariant 0 <= j <= n && Inserting(a[..], n, j)
      invariant multiset(a[..]) == multiset(old(a[..]))
    {
      ghost var s := a[..];
      SwapDown(s, n, j);
      a[j], a[j - 1] := a[j - 1], a[j];
      assert a[..] == s[j := s[j - 1]][j - 1 := s[j]];
      j := j - 1;
    }
    Inserted(a[..], n, j);
    assert a[..][..n + 1] == a[..n + 1];
  }

  lemma StartInserting(s: seq<string>, n: nat)
    requires n < |s| && Sorted(s[..n])
    ensures Inserting(s, n, n)
  {
    hide Leq;
    assert forall p :: 0 <= p < n ==> s[..n][p] == s[p];
  }

  /** Sort in place. */
  method SortStrings(a: array<string>)
    modifies a
    ensures Sorted(a[..]) && multiset(a[..]) == multiset(old(a[..]))
  {
    for n := 0 to a.Length
      invariant Sorted(a[..n]) && multiset(a[..]) == multiset(old(a[..]))
    {
      hide Sorted;
      InsertAt(a, n);
    }
    assert a[..a.Length] == a[..];
  }

  /** The first position whose string is not before `x`. */
  method SearchStrings(a: array<string>, x: string) returns (i: nat)
    requires Sorted(a[..])
    ensures i <= a.Length
    ensures forall k :: 0 <= k < i ==> !Leq(x, a[k])
    ensures forall k :: i <= k < a.Length ==> Leq(x, a[k])
  {
    i := 0;
    var j := a.Length;
    while i < j
      invariant i <= j <= a.Length
      invariant forall k :: 0 <= k < i ==> !Leq(x, a[k])
      invariant forall k :: j <= k < a.Length ==> Leq(x, a[k])
    {
      var h := (i + j) / 2;
      if !Leq(x, a[h]) {
        forall k | 0 <= k <= h
          ensures !Leq(x, a[k])
        {
          if k < h && Leq(x, a[k]) {
            assert Leq(a[..][k], a[..][h]);
            Transitive(x, a[k], a[h]);
          }
        }
        i := h + 1;
      } else {
        forall k | h <= k < a.Length
          ensures Leq(x, a[k])
        {
          if h < k {
            assert Leq(a[..][h], a[..][k]);
            Transitive(x, a[h], a[k]);
          }
        }
        j := h;
      }
    }
  }

  /** Membership by binary search. */
  method In(a: array<string>, x: string) returns (r: bool)
    requires Sorted(a[..])
    ensures r <==> x in a[..]
  {
    var i := SearchStrings(a, x);
    r := i < a.Length && a[i] == x;
    if x in a[..] {
      var k :| 0 <= k < a.Length && a[..][k] == x;
      Reflexive(x);
      assert i <= k && Leq(x, a[i]);
      if i < k {
        assert Leq(a[..][i], a[..][k]);
      }
      Total(x, a[i]);
    }
  }

  function Restrict(m: map<string, string>, names: set<string>): map<string, string> {
    map k | k in m && k in names :: m[k]
  }

  class Record {
    const uuid: string
    var layers: map<string, string>
    var manifests: map<string, string>

    constructor (uuid: string)
      ensures this.uuid == uuid && layers == map[] && manifests == map[]
    {
      this.uuid, layers, manifests := uuid, map[], map[];
    }

    method InsertManifestLayers(manifest: string, ls: string)
      modifies this
      ensures layers == old(layers)
      ensures forall m :: Lookup(m) == if m == manifest then ls else old(Lookup(m))
    {
      manifests := manifests[manifest := ls];
    }

    /** A manifest that is not journalled has no layers. */
    function Lookup(manifest: string): string
      reads this
    {
      if manifest in manifests then manifests[manifest] else ""
    }

    method Insert(layer: string, digest: string)
      modifies this
      ensures manifests == old(manifests)
      ensures forall l, d :: Has(l, d) <==> if l == layer then d == digest else old(Has(l, d))
    {
      layers := layers[layer := digest];
    }

    predicate Has(layer: string, digest: string)
      reads this
    {
      layer in layers && layers[layer] == digest
    }

    /**
     Keep the layers Porto still has.  The list may be in any order and hold
     duplicates; it comes back sorted.
     */
    method UpdateFromPorto(names: array<string>)
      modifies this, names
      ensures layers == Restrict(old(layers), set n | n in old(names[..]))
      ensures manifests == old(manifests)
      ensures Sorted(names[..]) && multiset(names[..]) == multiset(old(names[..]))
    {
      ghost var given := names[..];
      if names.Length == 0 {
        layers := map[];
        return;
      }
      var ok := StringsAreSorted(names);
      if !ok {
        SortStrings(names);
      }
      SameElements(given, names[..]);
      Prune(names);
    }

    /** Delete what the sorted list does not hold. */
    method Prune(names: array<string>)
      requires Sorted(names[..])
      modifies `layers
      ensures layers == Restrict(old(layers), set n | n in names[..])
    {
      ghost var was := layers;
      var todo := layers.Keys;
      while todo != {}
        invariant todo <= was.Keys
        invariant layers == map k | k in was && (k in todo || k in names[..]) :: was[k]
        decreases todo
      {
        var k :| k in todo;
        var found := In(names, k);
        if !found {
          layers := layers - {k};
        }
        todo := todo - {k};
      }
    }
  }

  lemma SameElements(s: seq<string>, t: seq<string>)
    requires multiset(s) == multiset(t)
    ensures forall x :: x in s <==> x in t
  {
    assert forall x :: x in s <==> x in multiset(s);
    assert forall x :: x in t <==> x in multiset(t);
  }
}
