/**
 The generated methods of the Porto profile in their own, imperative form: the
 encoder appends to a buffer and visits maps in whatever order the run-time
 picks, the decoder overwrites its target in counting loops, and the size
 estimate accumulates.  Each is proved against the functions of the two modules
 it imports.
 */
module ProfileCodec {
  import opened Options
  import opened MessagePack
  import opened ProfileDecoder
  import opened ProfileRoundTrip
  import opened ProfileLimits

  // -------------------------------------------------------------- size bound

  const STRING_PREFIX := 5
  const HEADER := 5
  const UINT := 9

  function EntrySize(k: Bytes, v: Bytes): nat { STRING_PREFIX + |k| + STRING_PREFIX + |v| }

  function OrderSize(ps: Order): nat {
    if |ps| == 0 then 0 else EntrySize(ps[0].0, ps[0].1) + OrderSize(ps[1..])
  }

  function LayerSize(l: Layer): nat {
    1 + 7 + STRING_PREFIX + |l.digest| + 12 + STRING_PREFIX + |l.digestType| + 5 + UINT + 11 + STRING_PREFIX + |l.torrentId|
  }

  function LayersSize(ls: seq<Layer>): nat {
    if |ls| == 0 then 0 else LayerSize(ls[0]) + LayersSize(ls[1..])
  }

  function StringsSize(ss: seq<Bytes>): nat {
    if |ss| == 0 then 0 else STRING_PREFIX + |ss[0]| + StringsSize(ss[1..])
  }

  function InfoSize(ls: seq<Layer>): nat { 1 + 7 + HEADER + LayersSize(ls) }

  function VolumeSize(v: VolumeWalk): nat {
    1 + 7 + STRING_PREFIX + |v.target| + 11 + HEADER + OrderSize(v.properties)
  }

  function VolumesSize(vs: seq<VolumeWalk>): nat {
    if |vs| == 0 then 0 else VolumeSize(vs[0]) + VolumesSize(vs[1..])
  }

  function ProfileSize(e: Walk): nat {
    1 + 9 + STRING_PREFIX + |e.registry| + 11 + STRING_PREFIX + |e.repository| + 13 + STRING_PREFIX + |e.networkMode|
    + 8 + HEADER + OrderSize(e.network)
    + 14 + InfoSize(e.layers)
    + 4 + STRING_PREFIX + |e.cwd|
    + 6 + HEADER + StringsSize(e.binds)
    + 10 + HEADER + OrderSize(e.container)
    + 7 + HEADER + OrderSize(e.volume)
    + 13 + HEADER + VolumesSize(e.extraVolumes)
  }

  lemma HeaderSizes(s: Bytes, n: nat, u: nat)
    ensures |StrBytes(s)| <= STRING_PREFIX + |s| && (|s| <= 31 ==> |StrBytes(s)| == 1 + |s|)
    ensures |MapHeader(HeadWidth(n), n)| <= HEADER && |ArrayHeader(HeadWidth(n), n)| <= HEADER
    ensures |UintBytes(u)| <= UINT
  {
  }

  lemma {:induction false} OrderSizeBound(ps: Order)
    ensures |PairsBytes(ps)| <= OrderSize(ps)
    decreases |ps|
  {
    if |ps| == 0 {
    } else {
      HeaderSizes(ps[0].0, 0, 0);
      HeaderSizes(ps[0].1, 0, 0);
      OrderSizeBound(ps[1..]);
    }
  }

  lemma MapSizeBound(ps: Order)
    ensures |MapBytes(ps)| <= HEADER + OrderSize(ps)
  {
    OrderSizeBound(ps);
    HeaderSizes([], |ps|, 0);
  }

  lemma LayerSizeBound(l: Layer)
    ensures |LayerBytes(l)| <= LayerSize(l)
  {
    hide StrBytes, UintBytes;
    HeaderSizes(DIGEST, 0, l.size);
    HeaderSizes(DIGEST_TYPE, 0, 0);
    HeaderSizes(SIZE, 0, 0);
    HeaderSizes(TORRENT_ID, 0, 0);
    HeaderSizes(l.digest, 0, 0);
    HeaderSizes(l.digestType, 0, 0);
    HeaderSizes(l.torrentId, 0, 0);
  }

  lemma {:induction false} LayersSizeBound(ls: seq<Layer>)
    ensures |LayersBytes(ls)| <= LayersSize(ls)
    decreases |ls|
  {
    hide LayerBytes, LayerSize;
    if |ls| == 0 {
    } else {
      LayerSizeBound(ls[0]);
      LayersSizeBound(ls[1..]);
    }
  }

  lemma InfoSizeBound(ls: seq<Layer>)
    ensures |InfoBytes(ls)| <= InfoSize(ls)
  {
    hide StrBytes, ArrayHeader;
    LayersSizeBound(ls);
    HeaderSizes(LAYERS, |ls|, 0);
  }

  lemma {:induction false} StringsSizeBound(ss: seq<Bytes>)
    ensures |StringsBytes(ss)| <= StringsSize(ss)
    decreases |ss|
  {
    if |ss| == 0 {
    } else {
      HeaderSizes(ss[0], 0, 0);
      StringsSizeBound(ss[1..]);
    }
  }

  lemma VolumeWalkBound(v: VolumeWalk)
    ensures |VolumeBytes(v)| <= VolumeSize(v)
  {
    hide StrBytes, MapBytes;
    HeaderSizes(TARGET, 0, 0);
    HeaderSizes(PROPERTIES, 0, 0);
    HeaderSizes(v.target, 0, 0);
    MapSizeBound(v.properties);
  }

  lemma {:induction false} VolumesSizeBound(vs: seq<VolumeWalk>)
    ensures |VolumesBytes(vs)| <= VolumesSize(vs)
    decreases |vs|
  {
    hide VolumeBytes, VolumeSize;
    if |vs| == 0 {
    } else {
      VolumeWalkBound(vs[0]);
      VolumesSizeBound(vs[1..]);
    }
  }

  /** The estimate along a walk is at least the length of what the same walk prints. */
  lemma ProfileWalkBound(e: Walk)
    ensures |ProfileBytes(e)| <= ProfileSize(e)
  {
    hide StrBytes, MapBytes, InfoBytes, InfoSize, StringsBytes, VolumesBytes, ArrayHeader;
    HeaderSizes(REGISTRY, |e.binds|, 0);
    HeaderSizes(REPOSITORY, |e.extraVolumes|, 0);
    HeaderSizes(NETWORK_MODE, 0, 0);
    HeaderSizes(NETWORK, 0, 0);
    HeaderSizes(EXTENDED_INFO, 0, 0);
    HeaderSizes(CWD, 0, 0);
    HeaderSizes(BINDS, 0, 0);
    HeaderSizes(CONTAINER, 0, 0);
    HeaderSizes(VOLUME, 0, 0);
    HeaderSizes(EXTRAVOLUMES, 0, 0);
    HeaderSizes(e.registry, 0, 0);
    HeaderSizes(e.repository, 0, 0);
    HeaderSizes(e.networkMode, 0, 0);
    HeaderSizes(e.cwd, 0, 0);
    MapSizeBound(e.network);
    MapSizeBound(e.container);
    MapSizeBound(e.volume);
    InfoSizeBound(e.layers);
    StringsSizeBound(e.binds);
    VolumesSizeBound(e.extraVolumes);
  }

  // ------------------------------------------------------------ map iteration

  /** `ps` lists the entries of `m`, each once: the last one, and before it the others. */
  ghost predicate Visits(ps: Order, m: StrMap)
    decreases |ps|
  {
    if |ps| == 0 then m == map[]
    else
      var p := ps[|ps| - 1];
      p.0 in m && m[p.0] == p.1 && Visits(ps[..|ps| - 1], m - {p.0})
  }

  /** `e` walks through the value `p`: every map entry once, in some order. */
  ghost predicate Walks(e: Walk, p: ProfileValue) {
    && e.registry == p.registry && e.repository == p.repository && e.networkMode == p.networkMode && e.cwd == p.cwd
    && e.layers == p.layers && e.binds == p.binds
    && Visits(e.network, p.network) && Visits(e.container, p.container) && Visits(e.volume, p.volume)
    && VolumesWalk(e.extraVolumes, p.extraVolumes)
  }

  ghost predicate VolumesWalk(ws: seq<VolumeWalk>, vs: seq<VolumeValue>) {
    |ws| == |vs| && forall i :: 0 <= i < |ws| ==> VolumeWalks(ws[i], vs[i])
  }

  ghost predicate VolumeWalks(w: VolumeWalk, v: VolumeValue) { w.target == v.target && Visits(w.properties, v.properties) }

  lemma WalksValue(e: Walk, p: ProfileValue)
    requires Walks(e, p)
    ensures ValueOf(e) == p
  {
    hide Visits, ToMap;
    VisitsMap(e.network, p.network);
    VisitsMap(e.container, p.container);
    VisitsMap(e.volume, p.volume);
    forall i | 0 <= i < |p.extraVolumes|
      ensures e.extraVolumes[i].target == p.extraVolumes[i].target
      ensures ToMap(e.extraVolumes[i].properties) == p.extraVolumes[i].properties
    {
      assert VolumeWalks(e.extraVolumes[i], p.extraVolumes[i]);
      VisitsMap(e.extraVolumes[i].properties, p.extraVolumes[i].properties);
    }
    assert VolumeValues(e.extraVolumes) == p.extraVolumes;
  }

  lemma {:induction false} OrderSizeSnoc(ps: Order, p: (Bytes, Bytes))
    ensures OrderSize(ps + [p]) == OrderSize(ps) + EntrySize(p.0, p.1)
    decreases |ps|
  {
    if |ps| == 0 {
      assert (ps + [p])[1..] == [];
    } else {
      OrderSizeSnoc(ps[1..], p);
      assert (ps + [p])[1..] == ps[1..] + [p];
    }
  }

  lemma VisitsSnoc(ps: Order, seen: StrMap, k: Bytes, v: Bytes)
    requires Visits(ps, seen) && k !in seen
    ensures Visits(ps + [(k, v)], seen[k := v])
  {
    assert seen[k := v] - {k} == seen;
    assert (ps + [(k, v)])[..|ps|] == ps;
  }

  /** Any entry can be taken out of a visit. */
  lemma {:induction false} TakeOut(ps: Order, m: StrMap, k: Bytes) returns (rest: Order)
    requires Visits(ps, m) && k in m
    ensures Visits(rest, m - {k}) && OrderSize(ps) == OrderSize(rest) + EntrySize(k, m[k]) && |ps| == |rest| + 1
    decreases |ps|
  {
    var p, init := ps[|ps| - 1], ps[..|ps| - 1];
    assert ps == init + [p];
    OrderSizeSnoc(init, p);
    if p.0 == k {
      rest := init;
    } else {
      rest := TakeOut(init, m - {p.0}, k);
      OrderSizeSnoc(rest, p);
      assert (m - {p.0} - {k})[p.0 := p.1] == m - {k};
      VisitsSnoc(rest, m - {p.0} - {k}, p.0, p.1);
      rest := rest + [p];
    }
  }

  /** The estimate for a map does not depend on the order it is walked in. */
  lemma {:induction false} VisitsSize(ps: Order, qs: Order, m: StrMap)
    requires Visits(ps, m) && Visits(qs, m)
    ensures OrderSize(ps) == OrderSize(qs)
    decreases |ps|
  {
    if |ps| == 0 {
      assert |qs| == 0;
    } else {
      var p, init := ps[|ps| - 1], ps[..|ps| - 1];
      assert ps == init + [p];
      OrderSizeSnoc(init, p);
      var rest := TakeOut(qs, m, p.0);
      VisitsSize(init, rest, m - {p.0});
    }
  }

  lemma {:induction false} VisitsMap(ps: Order, m: StrMap)
    requires Visits(ps, m)
    ensures ToMap(ps) == m && |ps| == |m|
    decreases |ps|
  {
    if |ps| == 0 {
    } else {
      var p, init := ps[|ps| - 1], ps[..|ps| - 1];
      assert ps == init + [p];
      VisitsMap(init, m - {p.0});
      AddedSnoc(map[], init, p);
      assert (m - {p.0})[p.0 := p.1] == m;
      assert m.Keys == (m - {p.0}).Keys + {p.0} && |m| == |m.Keys|;
    }
  }

  lemma VolumeSizeSame(w: VolumeWalk, x: VolumeWalk, v: VolumeValue)
    requires VolumeWalks(w, v) && VolumeWalks(x, v)
    ensures VolumeSize(w) == VolumeSize(x)
  {
    VisitsSize(w.properties, x.properties, v.properties);
  }

  lemma {:induction false} VolumesSizeSame(ws: seq<VolumeWalk>, xs: seq<VolumeWalk>, vs: seq<VolumeValue>)
    requires VolumesWalk(ws, vs) && VolumesWalk(xs, vs)
    ensures VolumesSize(ws) == VolumesSize(xs)
    decreases |vs|
  {
    hide VolumeSize, VolumeWalks;
    if |vs| == 0 {
    } else {
      VolumeSizeSame(ws[0], xs[0], vs[0]);
      VolumesSizeSame(ws[1..], xs[1..], vs[1..]);
    }
  }

  lemma ProfileSizeSame(e: Walk, f: Walk, p: ProfileValue)
    requires Walks(e, p) && Walks(f, p)
    ensures ProfileSize(e) == ProfileSize(f)
  {
    hide OrderSize, VolumesSize, Visits, VolumesWalk;
    VisitsSize(e.network, f.network, p.network);
    VisitsSize(e.container, f.container, p.container);
    VisitsSize(e.volume, f.volume, p.volume);
    VolumesSizeSame(e.extraVolumes, f.extraVolumes, p.extraVolumes);
  }

  /** Whatever orders the estimate and the encoder walk a volume in, the estimate is never too small. */
  lemma VolumeSizeBound(w: VolumeWalk, x: VolumeWalk, v: VolumeValue)
    requires VolumeWalks(w, v) && VolumeWalks(x, v)
    ensures |VolumeBytes(w)| <= VolumeSize(x)
  {
    VolumeWalkBound(w);
    VolumeSizeSame(w, x, v);
  }

  /** The same for a profile: every order of the encoder against every order of the estimate. */
  lemma ProfileSizeBound(e: Walk, f: Walk, p: ProfileValue)
    requires Walks(e, p) && Walks(f, p)
    ensures |ProfileBytes(e)| <= ProfileSize(f)
  {
    hide ProfileBytes, ProfileSize, Walks;
    ProfileWalkBound(e);
    ProfileSizeSame(e, f, p);
  }

  // ----------------------------------------------------------------- encoder

  lemma {:induction false} AddedSnoc(acc: StrMap, ps: Order, p: (Bytes, Bytes))
    ensures Added(acc, ps + [p]) == Added(acc, ps)[p.0 := p.1]
    decreases |ps|
  {
    if |ps| == 0 {
      assert (ps + [p])[1..] == [];
    } else {
      assert (ps + [p])[1..] == ps[1..] + [p];
      AddedSnoc(acc[ps[0].0 := ps[0].1], ps[1..], p);
    }
  }

  lemma {:induction false} PairsBytesSnoc(ps: Order, p: (Bytes, Bytes))
    ensures PairsBytes(ps + [p]) == PairsBytes(ps) + StrBytes(p.0) + StrBytes(p.1)
    decreases |ps|
  {
    hide StrBytes;
    if |ps| == 0 {
      assert (ps + [p])[1..] == [];
      assert PairsBytes([]) == [];
    } else {
      assert (ps + [p])[1..] == ps[1..] + [p];
      PairsBytesSnoc(ps[1..], p);
    }
  }

  /** `b` grown by `h` and then by `x`, grown by `y`. */
  lemma Grow(b: Bytes, h: Bytes, x: Bytes, y: Bytes)
    ensures b + (h + x) + y == b + (h + (x + y))
  {
    Assoc(b, h + x, y);
    Assoc(h, x, y);
  }

  /** Append a string map, its entries in any order. */
  method AppendMap(b: Bytes, m: StrMap) returns (o: Bytes, ghost ps: Order)
    ensures Visits(ps, m)
    ensures o == b + MapBytes(ps)
  {
    hide StrBytes, Visits, PairsBytes;
    var header := MapHeader(HeadWidth(|m|), |m|);
    o := b + header;
    ps := [];
    ghost var seen: StrMap := map[];
    var todo := m.Keys;
    NoPairs();
    assert header + [] == header;
    while todo != {}
      invariant todo <= m.Keys && seen.Keys == m.Keys - todo
      invariant forall k :: k in seen ==> seen[k] == m[k]
      invariant Visits(ps, seen)
      invariant o == b + (header + PairsBytes(ps))
      decreases todo
    {
      var k :| k in todo;
      PairsBytesSnoc(ps, (k, m[k]));
      VisitsSnoc(ps, seen, k, m[k]);
      Assoc(o, StrBytes(k), StrBytes(m[k]));
      Assoc(PairsBytes(ps), StrBytes(k), StrBytes(m[k]));
      Grow(b, header, PairsBytes(ps), StrBytes(k) + StrBytes(m[k]));
      o := o + StrBytes(k) + StrBytes(m[k]);
      ps := ps + [(k, m[k])];
      seen := seen[k := m[k]];
      todo := todo - {k};
    }
    assert seen == m;
    VisitsMap(ps, m);
  }

  lemma NoPairs()
    ensures PairsBytes([]) == [] && Visits([], map[])
  {
  }

  lemma {:induction false} LayersBytesSnoc(ls: seq<Layer>, l: Layer)
    ensures LayersBytes(ls + [l]) == LayersBytes(ls) + LayerBytes(l)
    decreases |ls|
  {
    hide LayerBytes;
    if |ls| == 0 {
      assert (ls + [l])[1..] == [];
      assert LayersBytes([]) == [];
    } else {
      assert (ls + [l])[1..] == ls[1..] + [l];
      LayersBytesSnoc(ls[1..], l);
    }
  }

  lemma {:induction false} StringsBytesSnoc(ss: seq<Bytes>, s: Bytes)
    ensures StringsBytes(ss + [s]) == StringsBytes(ss) + StrBytes(s)
    decreases |ss|
  {
    hide StrBytes;
    if |ss| == 0 {
      assert (ss + [s])[1..] == [];
      assert StringsBytes([]) == [];
    } else {
      assert (ss + [s])[1..] == ss[1..] + [s];
      StringsBytesSnoc(ss[1..], s);
    }
  }

  lemma {:induction false} VolumesBytesSnoc(vs: seq<VolumeWalk>, v: VolumeWalk)
    ensures VolumesBytes(vs + [v]) == VolumesBytes(vs) + VolumeBytes(v)
    decreases |vs|
  {
    hide VolumeBytes;
    if |vs| == 0 {
      assert (vs + [v])[1..] == [];
      assert VolumesBytes([]) == [];
    } else {
      assert (vs + [v])[1..] == vs[1..] + [v];
      VolumesBytesSnoc(vs[1..], v);
    }
  }

  method AppendLayers(b: Bytes, ls: seq<Layer>) returns (o: Bytes)
    ensures o == b + InfoBytes(ls)
  {
    hide LayerBytes, StrBytes, ArrayHeader;
    var header := ArrayHeader(HeadWidth(|ls|), |ls|);
    var head := [0x81] + (StrBytes(LAYERS) + header);
    o := b + head;
    assert head + [] == head;
    for i := 0 to |ls|
      invariant o == b + (head + LayersBytes(ls[..i]))
    {
      LayersBytesSnoc(ls[..i], ls[i]);
      assert ls[..i + 1] == ls[..i] + [ls[i]];
      Grow(b, head, LayersBytes(ls[..i]), LayerBytes(ls[i]));
      o := o + LayerBytes(ls[i]);
    }
    assert ls[..|ls|] == ls;
    Assoc([0x81], StrBytes(LAYERS) + header, LayersBytes(ls));
    Assoc(StrBytes(LAYERS), header, LayersBytes(ls));
  }

  method AppendStrings(b: Bytes, ss: seq<Bytes>) returns (o: Bytes)
    ensures o == b + (ArrayHeader(HeadWidth(|ss|), |ss|) + StringsBytes(ss))
  {
    hide StrBytes;
    var head := ArrayHeader(HeadWidth(|ss|), |ss|);
    o := b + head;
    assert head + [] == head;
    for i := 0 to |ss|
      invariant o == b + (head + StringsBytes(ss[..i]))
    {
      Grow(b, head, StringsBytes(ss[..i]), StrBytes(ss[i]));
      StringsBytesSnoc(ss[..i], ss[i]);
      assert ss[..i + 1] == ss[..i] + [ss[i]];
      o := o + StrBytes(ss[i]);
    }
    assert ss[..|ss|] == ss;
  }

  method AppendVolumes(b: Bytes, vs: seq<VolumeProfile>, store: Store) returns (o: Bytes, ghost ws: seq<VolumeWalk>)
    ensures VolumesWalk(ws, VolumesView(vs, store)) && |ws| == |vs|
    ensures o == b + (ArrayHeader(HeadWidth(|vs|), |vs|) + VolumesBytes(ws))
  {
    hide StrBytes, MapBytes, Visits, Lookup, ArrayHeader;
    var head := ArrayHeader(HeadWidth(|vs|), |vs|);
    o := b + head;
    ws := [];
    assert head + [] == head;
    for i := 0 to |vs|
      invariant |ws| == i
      invariant forall j :: 0 <= j < i ==> VolumeWalks(ws[j], VolumeValue(vs[j].target, Lookup(vs[j].properties, store)))
      invariant o == b + (head + VolumesBytes(ws))
    {
      var target := StrBytes(TARGET) + StrBytes(vs[i].target);
      var before := [0x82] + (target + StrBytes(PROPERTIES));
      ghost var ps;
      ghost var o0 := o;
      o, ps := AppendMap(o + before, Lookup(vs[i].properties, store));
      ghost var w := VolumeWalk(vs[i].target, ps);
      VolumesBytesSnoc(ws, w);
      Assoc(o0, before, MapBytes(ps));
      Assoc([0x82], target + StrBytes(PROPERTIES), MapBytes(ps));
      Assoc(target, StrBytes(PROPERTIES), MapBytes(ps));
      Grow(b, head, VolumesBytes(ws), VolumeBytes(w));
      ws := ws + [w];
    }
  }

  /** Append a key and a string map. */
  method AppendMapField(b: Bytes, k: Bytes, m: StrMap) returns (o: Bytes, ghost ps: Order)
    ensures Visits(ps, m) && o == b + (StrBytes(k) + MapBytes(ps))
  {
    o, ps := AppendMap(b + StrBytes(k), m);
    Assoc(b, StrBytes(k), MapBytes(ps));
  }

  /** The ten fields, in the order they are written. */
  function FieldBytes(e: Walk): seq<Bytes> {
    [StrBytes(REGISTRY) + StrBytes(e.registry),
     StrBytes(REPOSITORY) + StrBytes(e.repository),
     StrBytes(NETWORK_MODE) + StrBytes(e.networkMode),
     StrBytes(NETWORK) + MapBytes(e.network),
     StrBytes(EXTENDED_INFO) + InfoBytes(e.layers),
     StrBytes(CWD) + StrBytes(e.cwd),
     StrBytes(BINDS) + (ArrayHeader(HeadWidth(|e.binds|), |e.binds|) + StringsBytes(e.binds)),
     StrBytes(CONTAINER) + MapBytes(e.container),
     StrBytes(VOLUME) + MapBytes(e.volume),
     StrBytes(EXTRAVOLUMES) + (ArrayHeader(HeadWidth(|e.extraVolumes|), |e.extraVolumes|) + VolumesBytes(e.extraVolumes))]
  }

  /** Appending the fields one after the other gives the encoding of the profile. */
  lemma Appended(e: Walk, b: Bytes)
    ensures
      var f := FieldBytes(e);
      b + [0x8a] + f[0] + f[1] + f[2] + f[3] + f[4] + f[5] + f[6] + f[7] + f[8] + f[9] == b + ProfileBytes(e)
  {
    var f := FieldBytes(e);
    var t8 := f[8] + f[9];
    var t7 := f[7] + t8;
    var t6 := f[6] + t7;
    var t5 := f[5] + t6;
    var t4 := f[4] + t5;
    var t3 := f[3] + t4;
    var t2 := f[2] + t3;
    var t1 := f[1] + t2;
    var t0 := f[0] + t1;
    assert ProfileBytes(e) == [0x8a] + t0;
    var o := b + [0x8a];
    hide ProfileBytes, FieldBytes;
    Assoc(b, [0x8a], t0);
    Assoc(o, f[0], t1);
    Assoc(o + f[0], f[1], t2);
    Assoc(o + f[0] + f[1], f[2], t3);
    Assoc(o + f[0] + f[1] + f[2], f[3], t4);
    Assoc(o + f[0] + f[1] + f[2] + f[3], f[4], t5);
    Assoc(o + f[0] + f[1] + f[2] + f[3] + f[4], f[5], t6);
    Assoc(o + f[0] + f[1] + f[2] + f[3] + f[4] + f[5], f[6], t7);
    Assoc(o + f[0] + f[1] + f[2] + f[3] + f[4] + f[5] + f[6], f[7], t8);
    Assoc(o + f[0] + f[1] + f[2] + f[3] + f[4] + f[5] + f[6] + f[7], f[8], f[9]);
  }

  // ----------------------------------------------------------- size estimate

  method AddMap(n: nat, m: StrMap) returns (size: nat, ghost ps: Order)
    ensures Visits(ps, m) && size == n + OrderSize(ps)
  {
    hide Visits;
    size := n;
    ps := [];
    ghost var seen: StrMap := map[];
    var todo := m.Keys;
    NoPairs();
    while todo != {}
      invariant todo <= m.Keys && seen.Keys == m.Keys - todo
      invariant forall k :: k in seen ==> seen[k] == m[k]
      invariant Visits(ps, seen) && size == n + OrderSize(ps)
      decreases todo
    {
      var k :| k in todo;
      VisitsSnoc(ps, seen, k, m[k]);
      OrderSizeSnoc(ps, (k, m[k]));
      size := size + STRING_PREFIX + |k| + STRING_PREFIX + |m[k]|;
      ps := ps + [(k, m[k])];
      seen := seen[k := m[k]];
      todo := todo - {k};
    }
    assert seen == m;
  }

  method AddLayers(n: nat, ls: seq<Layer>) returns (size: nat)
    ensures size == n + LayersSize(ls)
  {
    hide LayerSize;
    size := n;
    for i := 0 to |ls|
      invariant size + LayersSize(ls[i..]) == n + LayersSize(ls)
    {
      size := size + LayerSize(ls[i]);
      assert ls[i..][1..] == ls[i + 1..];
    }
  }

  method AddStrings(n: nat, ss: seq<Bytes>) returns (size: nat)
    ensures size == n + StringsSize(ss)
  {
    size := n;
    for i := 0 to |ss|
      invariant size + StringsSize(ss[i..]) == n + StringsSize(ss)
    {
      size := size + STRING_PREFIX + |ss[i]|;
      assert ss[i..][1..] == ss[i + 1..];
    }
  }

  lemma {:induction false} VolumesSizeSnoc(ws: seq<VolumeWalk>, w: VolumeWalk)
    ensures VolumesSize(ws + [w]) == VolumesSize(ws) + VolumeSize(w)
    decreases |ws|
  {
    hide VolumeSize;
    if |ws| == 0 {
      assert ([] + [w])[1..] == [];
    } else {
      VolumesSizeSnoc(ws[1..], w);
      assert (ws + [w])[1..] == ws[1..] + [w];
    }
  }

  method AddVolumes(n: nat, vs: seq<VolumeProfile>, store: Store) returns (size: nat, ghost ws: seq<VolumeWalk>)
    ensures VolumesWalk(ws, VolumesView(vs, store)) && size == n + VolumesSize(ws)
  {
    hide Visits, Lookup, VolumesSize, OrderSize;
    size := n;
    ws := [];
    assert VolumesSize([]) == 0 by { NoVolumesSize(); }
    for i := 0 to |vs|
      invariant |ws| == i && size == n + VolumesSize(ws)
      invariant forall j :: 0 <= j < i ==> VolumeWalks(ws[j], VolumeValue(vs[j].target, Lookup(vs[j].properties, store)))
    {
      ghost var ps;
      size, ps := AddMap(size + 1 + 7 + STRING_PREFIX + |vs[i].target| + 11 + HEADER, Lookup(vs[i].properties, store));
      ghost var w := VolumeWalk(vs[i].target, ps);
      VolumesSizeSnoc(ws, w);
      ws := ws + [w];
    }
  }

  lemma NoVolumesSize()
    ensures VolumesSize([]) == 0
  {
  }

  /** `Msgsize`: it walks the maps itself, and the result is enough for whatever walk the encoder takes. */
  method Msgsize(s: Mem) returns (size: nat)
    requires MemOk(s)
    ensures forall e :: Walks(e, View(s)) ==> size == ProfileSize(e) && |ProfileBytes(e)| <= size
  {
    hide Visits, VolumesWalk, VolumesView, Lookup, OrderSize, LayersSize, StringsSize, VolumesSize, ProfileBytes;
    var z := s.z;
    var layers, binds, volumes := Elements(z.layers), Elements(z.binds), Elements(z.extraVolumes);
    size := 1 + 9 + STRING_PREFIX + |z.registry| + 11 + STRING_PREFIX + |z.repository| + 13 + STRING_PREFIX + |z.networkMode|;
    ghost var network, container, volume, ws;
    size, network := AddMap(size + 8 + HEADER, Lookup(z.network, s.store));
    size := AddLayers(size + 14 + 1 + 7 + HEADER, layers);
    size := AddStrings(size + 4 + STRING_PREFIX + |z.cwd| + 6 + HEADER, binds);
    size, container := AddMap(size + 10 + HEADER, Lookup(z.container, s.store));
    size, volume := AddMap(size + 7 + HEADER, Lookup(z.volume, s.store));
    size, ws := AddVolumes(size + 13 + HEADER, volumes, s.store);
    ghost var f := Walk(z.registry, z.repository, z.networkMode, network, layers, z.cwd, binds, container, volume, ws);
    assert Walks(f, View(s)) && size == ProfileSize(f);
    hide Walks, ProfileSize, View;
    forall e | Walks(e, View(s))
      ensures size == ProfileSize(e) && |ProfileBytes(e)| <= size
    {
      ProfileSizeBound(e, f, View(s));
      ProfileSizeSame(e, f, View(s));
    }
  }

  /** `MarshalMsg`: room for the estimate is made first, then the maps are walked again, in some order `e`. */
  method Marshal(b: Bytes, s: Mem) returns (o: Bytes, ghost e: Walk, ghost reserved: nat)
    requires MemOk(s)
    ensures Walks(e, View(s)) && o == b + ProfileBytes(e)
    ensures |o| <= |b| + reserved
    ensures forall f :: Walks(f, View(s)) ==> reserved == ProfileSize(f)
  {
    hide StrBytes, MapBytes, InfoBytes, StringsBytes, VolumesBytes, ArrayHeader, HeadWidth, ProfileSize, ProfileBytes;
    hide Lookup, VolumesView, Visits, VolumesWalk;
    reserved := Msgsize(s);
    var z := s.z;
    var layers, binds := Elements(z.layers), Elements(z.binds);
    var o1 := b + [0x8a];
    var o2 := o1 + (StrBytes(REGISTRY) + StrBytes(z.registry));
    var o3 := o2 + (StrBytes(REPOSITORY) + StrBytes(z.repository));
    var o4 := o3 + (StrBytes(NETWORK_MODE) + StrBytes(z.networkMode));
    var o5, network := AppendMapField(o4, NETWORK, Lookup(z.network, s.store));
    var o6 := AppendLayers(o5 + StrBytes(EXTENDED_INFO), layers);
    Assoc(o5, StrBytes(EXTENDED_INFO), InfoBytes(layers));
    var o7 := o6 + (StrBytes(CWD) + StrBytes(z.cwd));
    var o8 := AppendStrings(o7 + StrBytes(BINDS), binds);
    Assoc(o7, StrBytes(BINDS), ArrayHeader(HeadWidth(|binds|), |binds|) + StringsBytes(binds));
    var o9, container := AppendMapField(o8, CONTAINER, Lookup(z.container, s.store));
    var o10, volume := AppendMapField(o9, VOLUME, Lookup(z.volume, s.store));
    ghost var vs;
    o, vs := AppendVolumes(o10 + StrBytes(EXTRAVOLUMES), Elements(z.extraVolumes), s.store);
    Assoc(o10, StrBytes(EXTRAVOLUMES), ArrayHeader(HeadWidth(|vs|), |vs|) + VolumesBytes(vs));
    e := Walk(z.registry, z.repository, z.networkMode, network, layers, z.cwd, binds, container, volume, vs);
    Appended(e, b);
    ProfileSizeBound(e, e, View(s));
  }

  // ----------------------------------------------------------------- decoder

  /** The unread bytes, or nothing after an error. */
  function Rest<S>(d: Dec<S>): Option<Bytes> {
    match d case Done(_, r) => Some(r) case Fail(_) => None
  }

  method UnmarshalLayer(src: Source, bts: Bytes, z0: Layer) returns (z: Layer, o: Option<Bytes>)
    ensures var d := DecodeLayer(src, bts, z0); z == d.state && o == Rest(d)
  {
    hide ReadMapKey, ReadMapHeader, LayerField;
    z := z0;
    var h := ReadMapHeader(bts);
    if h.Err? { return z, None; }
    var n, b := h.value, h.rest;
    while n > 0
      invariant Fields(src, n, b, z, LayerFieldOf(src)) == DecodeLayer(src, bts, z0)
    {
      n := n - 1;
      var k := ReadMapKey(src.Stream?, b);
      if k.Err? { return z, None; }
      var d := LayerField(src, k.value, k.rest, z);
      z := d.state;
      if d.Fail? { return z, None; }
      b := d.rest;
    }
    o := Some(b);
  }

  /** Pairs read one by one into a map that starts empty. */
  method UnmarshalPairs(n0: nat, bts: Bytes) returns (m: StrMap, o: Option<Bytes>)
    ensures var d := Pairs(n0, bts, map[]); m == d.state && o == Rest(d)
  {
    hide ReadString;
    m := map[];
    var n, b := n0, bts;
    while n > 0
      invariant Pairs(n, b, m) == Pairs(n0, bts, map[])
    {
      n := n - 1;
      var k := ReadString(b);
      if k.Err? { return m, None; }
      var v := ReadString(k.rest);
      if v.Err? { return m, None; }
      m, b := m[k.value := v.value], v.rest;
    }
    o := Some(b);
  }

  method UnmarshalLayers(src: Source, n: nat, bts: Bytes, s0: Slice<Layer>) returns (s: Slice<Layer>, o: Option<Bytes>)
    requires n <= |s0.cells|
    ensures var d := Items(0, n, bts, s0, LayerItemOf(src)); s == d.state && o == Rest(d)
  {
    hide DecodeLayer;
    s := s0;
    var b, i := bts, 0;
    while i < n
      invariant i <= n <= |s.cells|
      invariant Items(i, n, b, s, LayerItemOf(src)) == Items(0, n, bts, s0, LayerItemOf(src))
    {
      var l, r := UnmarshalLayer(src, b, s.cells[i]);
      assert LayerItem(src, i, b, s) == MapDec(DecodeLayer(src, b, s.cells[i]), (l: Layer) => SetCell(s, i, l));
      s := SetCell(s, i, l);
      if r.None? { return s, None; }
      b, i := r.value, i + 1;
    }
    o := Some(b);
  }

  method UnmarshalBinds(bts: Bytes, s0: Slice<Bytes>) returns (s: Slice<Bytes>, o: Option<Bytes>)
    ensures var d := DecodeBinds(bts, s0); s == d.state && o == Rest(d)
  {
    hide ReadString, ReadArrayHeader;
    s := s0;
    var h := ReadArrayHeader(bts);
    if h.Err? { return s, None; }
    s := Resize(s, h.value, []);
    var b, i := h.rest, 0;
    while i < h.value
      invariant i <= h.value
      invariant Items(i, h.value, b, s, BindItem) == DecodeBinds(bts, s0)
    {
      var r := ReadString(b);
      s := SetCell(s, i, Or(r, []));
      if r.Err? { return s, None; }
      b, i := r.rest, i + 1;
    }
    o := Some(b);
  }

  method UnmarshalInfo(src: Source, bts: Bytes, s0: Slice<Layer>) returns (s: Slice<Layer>, o: Option<Bytes>)
    ensures var d := DecodeInfo(src, bts, s0); s == d.state && o == Rest(d)
  {
    hide ReadMapKey, ReadMapHeader, ReadArrayHeader, Skip, Items;
    s := s0;
    var h := ReadMapHeader(bts);
    if h.Err? { return s, None; }
    var n, b := h.value, h.rest;
    while n > 0
      invariant Fields(src, n, b, s, InfoFieldOf(src)) == DecodeInfo(src, bts, s0)
    {
      n := n - 1;
      var k := ReadMapKey(src.Stream?, b);
      if k.Err? { return s, None; }
      ghost var d := InfoField(src, k.value, k.rest, s);
      var r;
      if k.value == LAYERS {
        var a := ReadArrayHeader(k.rest);
        if a.Err? { return s, None; }
        s, r := UnmarshalLayers(src, a.value, a.rest, Resize(s, a.value, ZERO_LAYER));
      } else {
        r := Skip(Looks(src), k.rest);
      }
      assert s == d.state && r == Rest(d);
      if r.None? { return s, None; }
      b := r.value;
    }
    o := Some(b);
  }

  /** A profile that is decoded into, with the map objects it may share with others. */
  class Target {
    var z: Profile
    var store: Store

    constructor (z: Profile, store: Store)
      ensures this.z == z && this.store == store
    {
      this.z, this.store := z, store;
    }

    function Memory(): Mem
      reads this
    {
      Mem(z, store)
    }

    /** Clear and refill one of the three string maps. */
    method UnmarshalMapAt(t: Tag, bts: Bytes) returns (o: Option<Bytes>)
      modifies this
      ensures var d := DecodeMapAt(t, bts, old(Memory())); Memory() == d.state && o == Rest(d)
    {
      hide ReadMapHeader, Pairs;
      var h := ReadMapHeader(bts);
      if h.Err? { return None; }
      var m, r := UnmarshalPairs(h.value, h.rest);
      var x := SetMap(MapAt(t, z), m, store);
      var s := SetMapAt(t, Memory(), x);
      z, store := s.z, s.store;
      o := r;
    }

    /** Decode into volume `i`, in place. */
    method UnmarshalVolume(src: Source, i: nat, bts: Bytes) returns (o: Option<Bytes>)
      requires i < |z.extraVolumes.cells|
      modifies this
      ensures var d := VolumeItem(src, i, bts, old(Memory())); Memory() == d.state && o == Rest(d)
    {
      hide ReadMapKey, ReadMapHeader, VolumeField;
      var h := ReadMapHeader(bts);
      ghost var v0 := VolumeMem(z.extraVolumes.cells[i], store);
      if h.Err? {
        assert SetVolume(Memory(), i, v0) == Memory();
        return None;
      }
      var n, b := h.value, h.rest;
      var v := VolumeMem(z.extraVolumes.cells[i], store);
      o := None;
      while n > 0
        invariant Fields(src, n, b, v, VolumeFieldOf(src)) == DecodeVolume(src, bts, v0)
        invariant Memory() == old(Memory())
      {
        n := n - 1;
        var k := ReadMapKey(src.Stream?, b);
        if k.Err? {
          var s := SetVolume(Memory(), i, v);
          z, store := s.z, s.store;
          return None;
        }
        var d := VolumeField(src, k.value, k.rest, v);
        v := d.state;
        if d.Fail? {
          var s := SetVolume(Memory(), i, v);
          z, store := s.z, s.store;
          return None;
        }
        b := d.rest;
      }
      var s := SetVolume(Memory(), i, v);
      z, store := s.z, s.store;
      o := Some(b);
    }

    method UnmarshalVolumes(src: Source, bts: Bytes) returns (o: Option<Bytes>)
      modifies this
      ensures var d := DecodeVolumes(src, bts, old(Memory())); Memory() == d.state && o == Rest(d)
    {
      hide ReadArrayHeader, DecodeVolume;
      var h := ReadArrayHeader(bts);
      if h.Err? { return None; }
      var n := h.value;
      z := z.(extraVolumes := Resize(z.extraVolumes, n, ZERO_VOLUME));
      var b, i := h.rest, 0;
      while i < n
        invariant i <= n <= |z.extraVolumes.cells|
        invariant Items(i, n, b, Memory(), VolumeItemOf(src)) == DecodeVolumes(src, bts, old(Memory()))
      {
        var r := UnmarshalVolume(src, i, b);
        if r.None? { return None; }
        b, i := r.value, i + 1;
      }
      o := Some(b);
    }

    /** One field of the profile. */
    method UnmarshalField(src: Source, k: Bytes, bts: Bytes) returns (o: Option<Bytes>)
      modifies this
      ensures var d := ProfileField(src, k, bts, old(Memory())); Memory() == d.state && o == Rest(d)
    {
      hide ProfileTag, Skip, ReadString, DecodeInfo, DecodeBinds, DecodeVolumes, DecodeMapAt;
      var t := ProfileTag(k);
      match t
      case Unknown => o := Skip(Looks(src), bts);
      case Network => o := UnmarshalMapAt(t, bts);
      case Container => o := UnmarshalMapAt(t, bts);
      case Volume => o := UnmarshalMapAt(t, bts);
      case ExtendedInfo =>
        var l, r := UnmarshalInfo(src, bts, z.layers);
        z, o := z.(layers := l), r;
      case Binds =>
        var l, r := UnmarshalBinds(bts, z.binds);
        z, o := z.(binds := l), r;
      case ExtraVolumes => o := UnmarshalVolumes(src, bts);
      case _ =>
        var r := ReadString(bts);
        z := SetString(t, Memory(), Or(r, [])).z;
        o := if r.Ok? then Some(r.rest) else None;
    }

    /** `UnmarshalMsg` and `DecodeMsg`. */
    method Unmarshal(src: Source, bts: Bytes) returns (o: Option<Bytes>)
      modifies this
      ensures var d := DecodeProfile(src, bts, old(Memory())); Memory() == d.state && o == Rest(d)
    {
      hide ReadMapKey, ReadMapHeader, ProfileField;
      var h := ReadMapHeader(bts);
      if h.Err? { return None; }
      var n, b := h.value, h.rest;
      while n > 0
        invariant Fields(src, n, b, Memory(), ProfileFieldOf(src)) == DecodeProfile(src, bts, old(Memory()))
      {
        n := n - 1;
        var k := ReadMapKey(src.Stream?, b);
        if k.Err? { return None; }
        var r := UnmarshalField(src, k.value, k.rest);
        if r.None? { return None; }
        b := r.value;
      }
      o := Some(b);
    }
  }

  // ----------------------------------------------------------------- transfer

  lemma {:induction false} VisitsEntries(ps: Order, m: StrMap)
    requires Visits(ps, m)
    ensures forall i :: 0 <= i < |ps| ==> ps[i].0 in m && m[ps[i].0] == ps[i].1
    ensures forall k :: k in m ==> exists i :: 0 <= i < |ps| && ps[i].0 == k
    decreases |ps|
  {
    if |ps| == 0 {
    } else {
      var n := |ps| - 1;
      VisitsEntries(ps[..n], m - {ps[n].0});
      forall k | k in m
        ensures exists i :: 0 <= i < |ps| && ps[i].0 == k
      {
        if k == ps[n].0 {
          assert ps[n].0 == k;
        } else {
          assert k in m - {ps[n].0};
          var i :| 0 <= i < |ps[..n]| && ps[..n][i].0 == k;
          assert ps[i].0 == k;
        }
      }
    }
  }

  lemma VisitsFits(ps: Order, m: StrMap)
    requires Visits(ps, m)
    ensures OrderFits(ps) <==> MapFits(m)
  {
    VisitsMap(ps, m);
    VisitsEntries(ps, m);
    hide Visits, ToMap;
    if OrderFits(ps) {
      forall k | k in m
        ensures |k| < LENGTHS && |m[k]| < LENGTHS
      {
        var i :| 0 <= i < |ps| && ps[i].0 == k;
      }
    }
  }

  /** Whether a profile fits does not depend on the walk. */
  lemma WalksFits(e: Walk, p: ProfileValue)
    requires Walks(e, p)
    ensures (Fits(e) <==> ValueFits(p)) && Alike(e, p)
  {
    hide Visits, OrderFits, MapFits, LayerFits;
    VisitsFits(e.network, p.network);
    VisitsFits(e.container, p.container);
    VisitsFits(e.volume, p.volume);
    forall i | 0 <= i < |e.extraVolumes|
      ensures VolumeAlike(e.extraVolumes[i], p.extraVolumes[i])
    {
      assert VolumeWalks(e.extraVolumes[i], p.extraVolumes[i]);
      VisitsFits(e.extraVolumes[i].properties, p.extraVolumes[i].properties);
    }
    assert forall i :: 0 <= i < |e.extraVolumes| ==>
        VolumeAlike(e.extraVolumes[i], p.extraVolumes[i]) && (VolumeFits(e.extraVolumes[i]) <==> VolumeValueFits(p.extraVolumes[i]));
  }

  /** The map variables of a target, and what a profile with value `p` writes to each. */
  function SitesFor(p: ProfileValue, z: Profile): seq<Site> {
    var cells := Resize(z.extraVolumes, |p.extraVolumes|, ZERO_VOLUME).cells;
    [Site(z.network, p.network)] + [Site(z.container, p.container)] + [Site(z.volume, p.volume)]
    + seq(|p.extraVolumes|, i requires 0 <= i < |p.extraVolumes| && |p.extraVolumes| <= |cells| =>
            Site(cells[i].properties, p.extraVolumes[i].properties))
  }

  lemma SitesSame(e: Walk, z: Profile)
    ensures Sites(e, z) == SitesFor(ValueOf(e), z)
  {
  }

  /**
   A marshalled profile comes back exactly when its lengths fit and map variables
   of the target that share an object are to receive equal maps.
   */
  lemma RoundTripExactly(src: Source, e: Walk, p: ProfileValue, s: Mem, rest: Bytes)
    requires Walks(e, p)
    ensures
      var d := DecodeProfile(src, ProfileBytes(e) + rest, s);
      d.Done? && MemOk(d.state) && View(d.state) == p <==> ValueFits(p) && Agree(SitesFor(p, s.z))
    ensures
      var d := DecodeProfile(src, ProfileBytes(e) + rest, s);
      ValueFits(p) ==> d.Done? && d.rest == rest && MemOk(d.state)
  {
    hide ProfileBytes, DecodeProfile, Agree, View, ValueOf, Fits, ValueFits, Walks, Sites, SitesFor, Alike, MemOk;
    WalksValue(e, p);
    WalksFits(e, p);
    SitesSame(e, s.z);
    if Fits(e) {
      RoundTrip(src, e, s, rest);
    } else {
      NeverBack(src, e, p, s, rest);
    }
  }

  /**
   What one target marshals, any other target unmarshals and then says the same,
   exactly when all lengths fit and those of its map variables that share an
   object are to receive equal maps.  If the lengths fit, all of it is read.
   */
  method Transfer(from: Mem, target: Target, rest: Bytes, src: Source) returns (o: Option<Bytes>)
    requires MemOk(from)
    modifies target
    ensures ValueFits(View(from)) ==> o == Some(rest) && MemOk(target.Memory())
    ensures o.Some? && MemOk(target.Memory()) && View(target.Memory()) == View(from) <==>
      ValueFits(View(from)) && Agree(SitesFor(View(from), old(target.z)))
  {
    hide ProfileBytes, DecodeProfile, ProfileSize, Agree, View, ValueFits, Walks, SitesFor, MemOk;
    var b;
    ghost var e, reserved;
    b, e, reserved := Marshal([], from);
    assert [] + ProfileBytes(e) == ProfileBytes(e);
    RoundTripExactly(src, e, View(from), target.Memory(), rest);
    o := target.Unmarshal(src, b + rest);
  }
}
