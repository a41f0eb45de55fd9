/**
 The generated encoder of the Porto profile, and the round trip through the
 decoder into an arbitrary, possibly dirty, target.
 */
module ProfileRoundTrip {
  import opened Options
  import opened MessagePack
  import opened ProfileDecoder
  import opened DecoderLoops
  import opened ProfileRefinement

  // ------------------------------------------------------------------ values

  /** What a profile says, with nil and empty collections identified. */
  datatype ProfileValue = ProfileValue(
    registry: Bytes, repository: Bytes, networkMode: Bytes, network: StrMap,
    layers: seq<Layer>, cwd: Bytes, binds: seq<Bytes>,
    container: StrMap, volume: StrMap, extraVolumes: seq<VolumeValue>)

  datatype VolumeValue = VolumeValue(target: Bytes, properties: StrMap)

  /** The entries of a map in the order an iteration visits them. */
  type Order = seq<(Bytes, Bytes)>

  /** A profile as one run of the encoder sees it: every map in iteration order. */
  datatype Walk = Walk(
    registry: Bytes, repository: Bytes, networkMode: Bytes, network: Order,
    layers: seq<Layer>, cwd: Bytes, binds: seq<Bytes>,
    container: Order, volume: Order, extraVolumes: seq<VolumeWalk>)

  datatype VolumeWalk = VolumeWalk(target: Bytes, properties: Order)

  function ToMap(ps: Order): StrMap {
    Added(map[], ps)
  }

  function Added(acc: StrMap, ps: Order): StrMap
    decreases |ps|
  {
    if |ps| == 0 then acc else Added(acc[ps[0].0 := ps[0].1], ps[1..])
  }

  function VolumeValues(vs: seq<VolumeWalk>): (r: seq<VolumeValue>)
    ensures |r| == |vs|
    ensures forall i :: 0 <= i < |vs| ==> r[i] == VolumeValue(vs[i].target, ToMap(vs[i].properties))
  {
    if |vs| == 0 then []
    else [VolumeValue(vs[0].target, ToMap(vs[0].properties))] + VolumeValues(vs[1..])
  }

  function ValueOf(e: Walk): ProfileValue {
    ProfileValue(e.registry, e.repository, e.networkMode, ToMap(e.network), e.layers, e.cwd, e.binds,
                 ToMap(e.container), ToMap(e.volume), VolumeValues(e.extraVolumes))
  }

  function Lookup(r: Ref, store: Store): StrMap {
    match r
    case Nil => map[]
    case Private(c) => c
    case Shared(a) => if a in store then store[a] else map[]
  }

  predicate SliceOk<T>(s: Slice<T>) { s.len <= |s.cells| }

  predicate MemOk(s: Mem) {
    SliceOk(s.z.layers) && SliceOk(s.z.binds) && SliceOk(s.z.extraVolumes)
  }

  function Elements<T>(s: Slice<T>): seq<T>
    requires SliceOk(s)
  {
    s.cells[..s.len]
  }

  function VolumesView(vs: seq<VolumeProfile>, store: Store): (r: seq<VolumeValue>)
    ensures |r| == |vs|
    ensures forall i :: 0 <= i < |vs| ==> r[i] == VolumeValue(vs[i].target, Lookup(vs[i].properties, store))
  {
    if |vs| == 0 then []
    else [VolumeValue(vs[0].target, Lookup(vs[0].properties, store))] + VolumesView(vs[1..], store)
  }

  /** What the target says. */
  function View(s: Mem): ProfileValue
    requires MemOk(s)
  {
    var z := s.z;
    ProfileValue(z.registry, z.repository, z.networkMode, Lookup(z.network, s.store), Elements(z.layers),
                 z.cwd, Elements(z.binds), Lookup(z.container, s.store), Lookup(z.volume, s.store),
                 VolumesView(Elements(z.extraVolumes), s.store))
  }

  // ----------------------------------------------------------------- encoder

  function StrWidth(n: nat): nat {
    if n <= 31 then 0 else if n <= 0xff then 1 else if n <= 0xffff then 2 else 4
  }

  /** The width of a map or array header, which is given the number of elements as a 32-bit number. */
  function HeadWidth(n: nat): nat {
    var k := n % LENGTHS;
    if k <= 15 then 0 else if k <= 0xffff then 2 else 4
  }

  /** A length of 2^32 or more loses its high bytes here, as in the source. */
  function StrBytes(s: Bytes): Bytes {
    StrHeader(StrWidth(|s|), |s|) + s
  }

  function UintWidthOf(u: nat): nat {
    if u <= 0xff then 1 else if u <= 0xffff then 2 else if u <= 0xffff_ffff then 4 else 8
  }

  function UintLead(w: nat): byte {
    if w == 1 then 0xcc else if w == 2 then 0xcd else if w == 4 then 0xce else 0xcf
  }

  function UintBytes(u: nat): Bytes {
    if u <= 0x7f then [u] else [UintLead(UintWidthOf(u))] + BigEndian(u, UintWidthOf(u))
  }

  function PairsBytes(ps: Order): Bytes {
    if |ps| == 0 then [] else StrBytes(ps[0].0) + StrBytes(ps[0].1) + PairsBytes(ps[1..])
  }

  function MapBytes(ps: Order): Bytes {
    MapHeader(HeadWidth(|ps|), |ps|) + PairsBytes(ps)
  }

  function LayerBytes(l: Layer): Bytes {
    [0x84]
    + (StrBytes(DIGEST) + StrBytes(l.digest)
    + (StrBytes(DIGEST_TYPE) + StrBytes(l.digestType)
    + (StrBytes(SIZE) + UintBytes(l.size)
    + (StrBytes(TORRENT_ID) + StrBytes(l.torrentId)))))
  }

  function LayersBytes(ls: seq<Layer>): Bytes {
    if |ls| == 0 then [] else LayerBytes(ls[0]) + LayersBytes(ls[1..])
  }

  function StringsBytes(ss: seq<Bytes>): Bytes {
    if |ss| == 0 then [] else StrBytes(ss[0]) + StringsBytes(ss[1..])
  }

  function InfoBytes(ls: seq<Layer>): Bytes {
    [0x81] + (StrBytes(LAYERS) + (ArrayHeader(HeadWidth(|ls|), |ls|) + LayersBytes(ls)))
  }

  function VolumeBytes(v: VolumeWalk): Bytes {
    [0x82] + (StrBytes(TARGET) + StrBytes(v.target) + (StrBytes(PROPERTIES) + MapBytes(v.properties)))
  }

  function VolumesBytes(vs: seq<VolumeWalk>): Bytes {
    if |vs| == 0 then [] else VolumeBytes(vs[0]) + VolumesBytes(vs[1..])
  }

  /** What `MarshalMsg` appends. */
  function ProfileBytes(e: Walk): Bytes {
    [0x8a]
    + (StrBytes(REGISTRY) + StrBytes(e.registry)
    + (StrBytes(REPOSITORY) + StrBytes(e.repository)
    + (StrBytes(NETWORK_MODE) + StrBytes(e.networkMode)
    + (StrBytes(NETWORK) + MapBytes(e.network)
    + (StrBytes(EXTENDED_INFO) + InfoBytes(e.layers)
    + (StrBytes(CWD) + StrBytes(e.cwd)
    + (StrBytes(BINDS) + (ArrayHeader(HeadWidth(|e.binds|), |e.binds|) + StringsBytes(e.binds))
    + (StrBytes(CONTAINER) + MapBytes(e.container)
    + (StrBytes(VOLUME) + MapBytes(e.volume)
    + (StrBytes(EXTRAVOLUMES) + (ArrayHeader(HeadWidth(|e.extraVolumes|), |e.extraVolumes|) + VolumesBytes(e.extraVolumes))))))))))))
  }

  // ------------------------------------------------- the encoder prints trees

  const LENGTHS: nat := 0x1_0000_0000
  const UINTS: nat := 0x1_0000_0000_0000_0000

  predicate OrderFits(ps: Order) {
    |ps| < LENGTHS && forall i :: 0 <= i < |ps| ==> |ps[i].0| < LENGTHS && |ps[i].1| < LENGTHS
  }

  predicate LayerFits(l: Layer) {
    |l.digest| < LENGTHS && |l.digestType| < LENGTHS && l.size < UINTS && |l.torrentId| < LENGTHS
  }

  predicate VolumeFits(v: VolumeWalk) {
    |v.target| < LENGTHS && OrderFits(v.properties)
  }

  /** Every length fits the 32 bits MessagePack has for it, every number a Go `uint`. */
  predicate Fits(e: Walk) {
    && |e.registry| < LENGTHS && |e.repository| < LENGTHS && |e.networkMode| < LENGTHS && |e.cwd| < LENGTHS
    && OrderFits(e.network) && OrderFits(e.container) && OrderFits(e.volume)
    && |e.layers| < LENGTHS && (forall i :: 0 <= i < |e.layers| ==> LayerFits(e.layers[i]))
    && |e.binds| < LENGTHS && (forall i :: 0 <= i < |e.binds| ==> |e.binds[i]| < LENGTHS)
    && |e.extraVolumes| < LENGTHS && (forall i :: 0 <= i < |e.extraVolumes| ==> VolumeFits(e.extraVolumes[i]))
  }

  /** A string survives the trip exactly when its length fits 32 bits. */
  lemma StringRoundTrip(s: Bytes, rest: Bytes)
    ensures ReadString(StrBytes(s) + rest) == Ok(s, rest) <==> |s| < LENGTHS
  {
    if |s| < LENGTHS {
      StrTreeEnc(s);
      ReadStringEnc(StrTree(s), rest);
    } else {
      var b := StrBytes(s) + rest;
      Limits();
      assert b[0] == 0xdb;
      assert Value(b[1..5]) < Pow256(4);
    }
  }

  function StrTree(s: Bytes): Msg { Str(StrWidth(|s|), s) }

  lemma StrTreeEnc(s: Bytes)
    requires |s| < LENGTHS
    ensures WellFormed(StrTree(s)) && Enc(StrTree(s)) == StrBytes(s)
  {
  }

  function UintTree(u: nat): Msg {
    if u <= 0x7f then Atom(u, []) else Atom(UintLead(UintWidthOf(u)), BigEndian(u, UintWidthOf(u)))
  }

  lemma UintLimits(u: nat)
    requires u < UINTS
    ensures u < Pow256(UintWidthOf(u))
  {
    Limits();
    assert Pow256(5) == 256 * Pow256(4) && Pow256(6) == 256 * Pow256(5);
    assert Pow256(7) == 256 * Pow256(6) && Pow256(8) == 256 * Pow256(7);
  }

  lemma UintTreeEnc(u: nat)
    requires u < UINTS
    ensures WellFormed(UintTree(u)) && Enc(UintTree(u)) == UintBytes(u) && UintOf(UintTree(u)) == Some(u)
  {
    hide Pow256, BigEndian, Value;
    if u > 0x7f {
      UintLimits(u);
      BigEndianValue(u, UintWidthOf(u));
      UintLeadSize(UintWidthOf(u));
      hide Sizes;
    }
  }

  lemma UintLeadSize(w: nat)
    requires w in {1, 2, 4, 8}
    ensures Sizes(UintLead(w)) == LeadSpec(1 + w, Objects(0)) && 0xcc <= UintLead(w) <= 0xcf
  {
  }

  function Field(k: Bytes, v: Msg): Entry { Entry(StrTree(k), v) }

  function PairTrees(ps: Order): (es: seq<Entry>)
    ensures |es| == |ps|
  {
    if |ps| == 0 then [] else [Entry(StrTree(ps[0].0), StrTree(ps[0].1))] + PairTrees(ps[1..])
  }

  function MapTree(ps: Order): Msg { Dict(HeadWidth(|ps|), PairTrees(ps)) }

  lemma ConsEntries(x: Entry, es: seq<Entry>)
    requires EntryWellFormed(x) && AllWellFormed(es)
    ensures AllWellFormed([x] + es) && EncEntries([x] + es) == EncEntry(x) + EncEntries(es)
  {
    assert ([x] + es)[1..] == es;
  }

  lemma {:induction false} PairTreesEnc(ps: Order)
    requires forall i :: 0 <= i < |ps| ==> |ps[i].0| < LENGTHS && |ps[i].1| < LENGTHS
    ensures AllWellFormed(PairTrees(ps)) && EncEntries(PairTrees(ps)) == PairsBytes(ps)
    decreases |ps|
  {
    if |ps| == 0 {
    } else {
      StrTreeEnc(ps[0].0);
      StrTreeEnc(ps[0].1);
      PairTreesEnc(ps[1..]);
      ConsEntries(Entry(StrTree(ps[0].0), StrTree(ps[0].1)), PairTrees(ps[1..]));
    }
  }

  lemma HeadFits(n: nat)
    requires n < LENGTHS
    ensures HeadWidth(n) in {0, 2, 4} && n < Limit(HeadWidth(n))
  {
  }

  lemma MapTreeEnc(ps: Order)
    requires OrderFits(ps)
    ensures WellFormed(MapTree(ps)) && Enc(MapTree(ps)) == MapBytes(ps)
  {
    PairTreesEnc(ps);
    HeadFits(|ps|);
    hide HeadWidth, Limit;
  }

  lemma ConsItems(x: Msg, ms: seq<Msg>)
    requires WellFormed(x) && forall i :: 0 <= i < |ms| ==> WellFormed(ms[i])
    ensures (forall i :: 0 <= i < |[x] + ms| ==> WellFormed(([x] + ms)[i])) && EncItems([x] + ms) == Enc(x) + EncItems(ms)
  {
    assert ([x] + ms)[1..] == ms;
  }

  /** A field whose value prints as `b`. */
  lemma FieldEnc(k: Bytes, v: Msg, b: Bytes)
    requires |k| < LENGTHS && WellFormed(v) && Enc(v) == b
    ensures EntryWellFormed(Field(k, v)) && EncEntry(Field(k, v)) == StrBytes(k) + b
  {
    StrTreeEnc(k);
  }

  function LayerTree(l: Layer): Msg {
    Dict(0, [Field(DIGEST, StrTree(l.digest))] + ([Field(DIGEST_TYPE, StrTree(l.digestType))]
            + ([Field(SIZE, UintTree(l.size))] + ([Field(TORRENT_ID, StrTree(l.torrentId))] + []))))
  }

  lemma LayerTreeEnc(l: Layer)
    requires LayerFits(l)
    ensures WellFormed(LayerTree(l)) && Enc(LayerTree(l)) == LayerBytes(l)
  {
    hide Enc, EncEntries, EncEntry, StrBytes, StrTree, UintTree, UintBytes, WellFormed;
    StrTreeEnc(l.digest);
    StrTreeEnc(l.digestType);
    UintTreeEnc(l.size);
    StrTreeEnc(l.torrentId);
    var f1, f2, f3, f4 := Field(DIGEST, StrTree(l.digest)), Field(DIGEST_TYPE, StrTree(l.digestType)),
                          Field(SIZE, UintTree(l.size)), Field(TORRENT_ID, StrTree(l.torrentId));
    FieldEnc(DIGEST, StrTree(l.digest), StrBytes(l.digest));
    FieldEnc(DIGEST_TYPE, StrTree(l.digestType), StrBytes(l.digestType));
    FieldEnc(SIZE, UintTree(l.size), UintBytes(l.size));
    FieldEnc(TORRENT_ID, StrTree(l.torrentId), StrBytes(l.torrentId));
    NoEntries();
    ConsEntries(f4, []);
    ConsEntries(f3, [f4] + []);
    ConsEntries(f2, [f3] + ([f4] + []));
    ConsEntries(f1, [f2] + ([f3] + ([f4] + [])));
    DictEnc([f1] + ([f2] + ([f3] + ([f4] + []))));
    assert EncEntry(f4) + [] == EncEntry(f4);
  }

  lemma NoEntries()
    ensures EncEntries([]) == []
  {
  }

  /** A short map prints as its one-byte header and its entries. */
  lemma DictEnc(es: seq<Entry>)
    requires AllWellFormed(es) && |es| < 16
    ensures WellFormed(Dict(0, es)) && Enc(Dict(0, es)) == [0x80 + |es|] + EncEntries(es)
  {
  }

  lemma ArrEnc(ms: seq<Msg>)
    requires |ms| < LENGTHS && forall i :: 0 <= i < |ms| ==> WellFormed(ms[i])
    ensures WellFormed(Arr(HeadWidth(|ms|), ms))
    ensures Enc(Arr(HeadWidth(|ms|), ms)) == ArrayHeader(HeadWidth(|ms|), |ms|) + EncItems(ms)
  {
    HeadFits(|ms|);
    hide HeadWidth, Limit;
  }

  function LayerTrees(ls: seq<Layer>): (r: seq<Msg>)
    ensures |r| == |ls|
  {
    if |ls| == 0 then [] else [LayerTree(ls[0])] + LayerTrees(ls[1..])
  }

  lemma {:induction false} LayerTreesEnc(ls: seq<Layer>)
    requires forall i :: 0 <= i < |ls| ==> LayerFits(ls[i])
    ensures forall i :: 0 <= i < |ls| ==> WellFormed(LayerTrees(ls)[i])
    ensures EncItems(LayerTrees(ls)) == LayersBytes(ls)
    decreases |ls|
  {
    hide LayerTree, LayerBytes, WellFormed, Enc;
    if |ls| == 0 {
    } else {
      LayerTreeEnc(ls[0]);
      LayerTreesEnc(ls[1..]);
      ConsItems(LayerTree(ls[0]), LayerTrees(ls[1..]));
    }
  }

  function StrTrees(ss: seq<Bytes>): (r: seq<Msg>)
    ensures |r| == |ss|
  {
    if |ss| == 0 then [] else [StrTree(ss[0])] + StrTrees(ss[1..])
  }

  lemma {:induction false} StrTreesEnc(ss: seq<Bytes>)
    requires forall i :: 0 <= i < |ss| ==> |ss[i]| < LENGTHS
    ensures forall i :: 0 <= i < |ss| ==> WellFormed(StrTrees(ss)[i])
    ensures EncItems(StrTrees(ss)) == StringsBytes(ss)
    decreases |ss|
  {
    hide WellFormed, Enc, StrTree, StrBytes;
    if |ss| == 0 {
    } else {
      StrTreeEnc(ss[0]);
      StrTreesEnc(ss[1..]);
      ConsItems(StrTree(ss[0]), StrTrees(ss[1..]));
    }
  }

  function VolumeTree(v: VolumeWalk): Msg {
    Dict(0, [Field(TARGET, StrTree(v.target))] + ([Field(PROPERTIES, MapTree(v.properties))] + []))
  }

  lemma VolumeTreeEnc(v: VolumeWalk)
    requires VolumeFits(v)
    ensures WellFormed(VolumeTree(v)) && Enc(VolumeTree(v)) == VolumeBytes(v)
  {
    hide Enc, EncEntries, EncEntry, StrBytes, StrTree, MapTree, MapBytes, WellFormed;
    StrTreeEnc(v.target);
    MapTreeEnc(v.properties);
    FieldEnc(TARGET, StrTree(v.target), StrBytes(v.target));
    FieldEnc(PROPERTIES, MapTree(v.properties), MapBytes(v.properties));
    var f1, f2 := Field(TARGET, StrTree(v.target)), Field(PROPERTIES, MapTree(v.properties));
    NoEntries();
    ConsEntries(f2, []);
    ConsEntries(f1, [f2] + []);
    DictEnc([f1] + ([f2] + []));
    assert EncEntry(f2) + [] == EncEntry(f2);
  }

  function VolumeTrees(vs: seq<VolumeWalk>): (r: seq<Msg>)
    ensures |r| == |vs|
  {
    if |vs| == 0 then [] else [VolumeTree(vs[0])] + VolumeTrees(vs[1..])
  }

  lemma {:induction false} VolumeTreesEnc(vs: seq<VolumeWalk>)
    requires forall i :: 0 <= i < |vs| ==> VolumeFits(vs[i])
    ensures forall i :: 0 <= i < |vs| ==> WellFormed(VolumeTrees(vs)[i])
    ensures EncItems(VolumeTrees(vs)) == VolumesBytes(vs)
    decreases |vs|
  {
    hide VolumeTree, VolumeBytes, WellFormed, Enc;
    if |vs| == 0 {
    } else {
      VolumeTreeEnc(vs[0]);
      VolumeTreesEnc(vs[1..]);
      ConsItems(VolumeTree(vs[0]), VolumeTrees(vs[1..]));
    }
  }

  function InfoTree(ls: seq<Layer>): Msg {
    Dict(0, [Field(LAYERS, Arr(HeadWidth(|ls|), LayerTrees(ls)))] + [])
  }

  lemma InfoTreeEnc(ls: seq<Layer>)
    requires |ls| < LENGTHS && forall i :: 0 <= i < |ls| ==> LayerFits(ls[i])
    ensures WellFormed(InfoTree(ls)) && Enc(InfoTree(ls)) == InfoBytes(ls)
  {
    hide Enc, EncEntries, EncEntry, StrBytes, StrTree, WellFormed, LayerTrees, LayersBytes;
    LayerTreesEnc(ls);
    var a := Arr(HeadWidth(|ls|), LayerTrees(ls));
    ArrEnc(LayerTrees(ls));
    FieldEnc(LAYERS, a, Enc(a));
    NoEntries();
    ConsEntries(Field(LAYERS, a), []);
    DictEnc([Field(LAYERS, a)] + []);
    assert EncEntry(Field(LAYERS, a)) + [] == EncEntry(Field(LAYERS, a));
  }

  function BindsTree(ss: seq<Bytes>): Msg { Arr(HeadWidth(|ss|), StrTrees(ss)) }

  function VolumesTree(vs: seq<VolumeWalk>): Msg { Arr(HeadWidth(|vs|), VolumeTrees(vs)) }

  function ProfileEntries(e: Walk): seq<Entry> {
    [Field(REGISTRY, StrTree(e.registry))]
    + ([Field(REPOSITORY, StrTree(e.repository))]
    + ([Field(NETWORK_MODE, StrTree(e.networkMode))]
    + ([Field(NETWORK, MapTree(e.network))]
    + ([Field(EXTENDED_INFO, InfoTree(e.layers))]
    + ([Field(CWD, StrTree(e.cwd))]
    + ([Field(BINDS, BindsTree(e.binds))]
    + ([Field(CONTAINER, MapTree(e.container))]
    + ([Field(VOLUME, MapTree(e.volume))]
    + ([Field(EXTRAVOLUMES, VolumesTree(e.extraVolumes))]
    + [])))))))))
  }

  /** The bytes of a marshalled profile are the print of this object. */
  function ProfileTree(e: Walk): Msg { Dict(0, ProfileEntries(e)) }

  lemma ProfileTreeEnc(e: Walk)
    requires Fits(e)
    ensures WellFormed(ProfileTree(e)) && Enc(ProfileTree(e)) == ProfileBytes(e)
  {
    hide Enc, EncEntries, EncEntry, EncItems, StrBytes, StrTree, MapTree, MapBytes, InfoTree, InfoBytes, WellFormed,
      StringsBytes, VolumesBytes, StrTrees, VolumeTrees, ArrayHeader;
    StrTreeEnc(e.registry);
    StrTreeEnc(e.repository);
    StrTreeEnc(e.networkMode);
    MapTreeEnc(e.network);
    InfoTreeEnc(e.layers);
    StrTreeEnc(e.cwd);
    StrTreesEnc(e.binds);
    ArrEnc(StrTrees(e.binds));
    MapTreeEnc(e.container);
    MapTreeEnc(e.volume);
    VolumeTreesEnc(e.extraVolumes);
    ArrEnc(VolumeTrees(e.extraVolumes));
    FieldEnc(REGISTRY, StrTree(e.registry), StrBytes(e.registry));
    FieldEnc(REPOSITORY, StrTree(e.repository), StrBytes(e.repository));
    FieldEnc(NETWORK_MODE, StrTree(e.networkMode), StrBytes(e.networkMode));
    FieldEnc(NETWORK, MapTree(e.network), MapBytes(e.network));
    FieldEnc(EXTENDED_INFO, InfoTree(e.layers), InfoBytes(e.layers));
    FieldEnc(CWD, StrTree(e.cwd), StrBytes(e.cwd));
    FieldEnc(BINDS, BindsTree(e.binds), Enc(BindsTree(e.binds)));
    FieldEnc(CONTAINER, MapTree(e.container), MapBytes(e.container));
    FieldEnc(VOLUME, MapTree(e.volume), MapBytes(e.volume));
    FieldEnc(EXTRAVOLUMES, VolumesTree(e.extraVolumes), Enc(VolumesTree(e.extraVolumes)));
    NoEntries();
    var r10 := [Field(EXTRAVOLUMES, VolumesTree(e.extraVolumes))] + [];
    var r9 := [Field(VOLUME, MapTree(e.volume))] + r10;
    var r8 := [Field(CONTAINER, MapTree(e.container))] + r9;
    var r7 := [Field(BINDS, BindsTree(e.binds))] + r8;
    var r6 := [Field(CWD, StrTree(e.cwd))] + r7;
    var r5 := [Field(EXTENDED_INFO, InfoTree(e.layers))] + r6;
    var r4 := [Field(NETWORK, MapTree(e.network))] + r5;
    var r3 := [Field(NETWORK_MODE, StrTree(e.networkMode))] + r4;
    var r2 := [Field(REPOSITORY, StrTree(e.repository))] + r3;
    ConsEntries(Field(EXTRAVOLUMES, VolumesTree(e.extraVolumes)), []);
    ConsEntries(Field(VOLUME, MapTree(e.volume)), r10);
    ConsEntries(Field(CONTAINER, MapTree(e.container)), r9);
    ConsEntries(Field(BINDS, BindsTree(e.binds)), r8);
    ConsEntries(Field(CWD, StrTree(e.cwd)), r7);
    ConsEntries(Field(EXTENDED_INFO, InfoTree(e.layers)), r6);
    ConsEntries(Field(NETWORK, MapTree(e.network)), r5);
    ConsEntries(Field(NETWORK_MODE, StrTree(e.networkMode)), r4);
    ConsEntries(Field(REPOSITORY, StrTree(e.repository)), r3);
    ConsEntries(Field(REGISTRY, StrTree(e.registry)), r2);
    DictEnc(ProfileEntries(e));
    assert EncEntries(r10) == StrBytes(EXTRAVOLUMES) + Enc(VolumesTree(e.extraVolumes));
  }

  // --------------------------------------------------------- decoding it back

  lemma ConsFields<S>(stream: bool, k: Bytes, v: Msg, es: seq<Entry>, s: S, g: (Bytes, Msg, S) -> Out<S>)
    requires k != []
    ensures FieldsT(stream, [Field(k, v)] + es, s, g) ==
            (var o := g(k, v, s); if o.Bad? then o else FieldsT(stream, es, o.state, g))
  {
    assert ([Field(k, v)] + es)[1..] == es;
  }

  lemma ConsItemsT<S>(i: nat, m: Msg, ms: seq<Msg>, s: S, g: (nat, Msg, S) -> Out<S>)
    ensures ItemsT(i, [m] + ms, s, g) ==
            (var o := g(i, m, s); if o.Bad? then o else ItemsT(i + 1, ms, o.state, g))
  {
    assert ([m] + ms)[1..] == ms;
  }

  lemma {:induction false} PairsLoad(ps: Order, acc: StrMap)
    ensures PairsT(PairTrees(ps), acc) == Good(Added(acc, ps))
    decreases |ps|
  {
    if |ps| == 0 {
    } else {
      PairsLoad(ps[1..], acc[ps[0].0 := ps[0].1]);
      assert PairTrees(ps)[1..] == PairTrees(ps[1..]);
    }
  }

  lemma MapLoad(ps: Order, x: Slot)
    ensures StringMapT(MapTree(ps), x) == Good(SetMap(x.ref, ToMap(ps), x.store))
  {
    PairsLoad(ps, map[]);
  }

  lemma LayerLoad(stream: bool, l: Layer, z: Layer)
    requires LayerFits(l)
    ensures DecodeLayerT(stream, LayerTree(l), z) == Good(l)
  {
    hide StrTree, UintTree;
    StrTreeEnc(l.digest);
    UintTreeEnc(l.size);
    StrTreeOf(l.digest);
    StrTreeOf(l.digestType);
    StrTreeOf(l.torrentId);
    var f2, f3, f4 := Field(DIGEST_TYPE, StrTree(l.digestType)), Field(SIZE, UintTree(l.size)), Field(TORRENT_ID, StrTree(l.torrentId));
    var z1 := z.(digest := l.digest);
    var z2 := z1.(digestType := l.digestType);
    var z3 := z2.(size := l.size);
    ConsFields(stream, DIGEST, StrTree(l.digest), [f2] + ([f3] + ([f4] + [])), z, LayerFieldT);
    ConsFields(stream, DIGEST_TYPE, StrTree(l.digestType), [f3] + ([f4] + []), z1, LayerFieldT);
    ConsFields(stream, SIZE, UintTree(l.size), [f4] + [], z2, LayerFieldT);
    ConsFields(stream, TORRENT_ID, StrTree(l.torrentId), [], z3, LayerFieldT);
  }

  lemma StrTreeOf(s: Bytes)
    ensures StrOf(StrTree(s)) == Some(s)
  {
  }

  /** Reading a full array into a slice leaves nothing of the old elements. */
  lemma {:induction false} LayersLoad(stream: bool, i: nat, ls: seq<Layer>, s: Slice<Layer>)
    requires i + |ls| <= |s.cells| && forall j :: 0 <= j < |ls| ==> LayerFits(ls[j])
    ensures ItemsT(i, LayerTrees(ls), s, LayerItemTOf(stream)) ==
            Good(Slice(s.cells[..i] + ls + s.cells[i + |ls|..], s.len))
    decreases |ls|
  {
    hide LayerTree, DecodeLayerT;
    if |ls| == 0 {
      assert s.cells[..i] + ls + s.cells[i..] == s.cells;
    } else {
      LayerLoad(stream, ls[0], s.cells[i]);
      var s' := SetCell(s, i, ls[0]);
      ConsItemsT(i, LayerTree(ls[0]), LayerTrees(ls[1..]), s, LayerItemTOf(stream));
      LayersLoad(stream, i + 1, ls[1..], s');
      assert s'.cells[..i + 1] + ls[1..] + s'.cells[i + |ls|..] == s.cells[..i] + ls + s.cells[i + |ls|..];
    }
  }

  lemma InfoLoad(stream: bool, ls: seq<Layer>, s: Slice<Layer>)
    requires forall j :: 0 <= j < |ls| ==> LayerFits(ls[j])
    ensures
      var d := DecodeInfoT(stream, InfoTree(ls), s);
      d.Good? && SliceOk(d.state) && Elements(d.state) == ls
  {
    hide LayerTrees;
    var s' := Resize(s, |ls|, ZERO_LAYER);
    LayersLoad(stream, 0, ls, s');
    ConsFields(stream, LAYERS, Arr(HeadWidth(|ls|), LayerTrees(ls)), [], s, InfoFieldTOf(stream));
  }

  lemma {:induction false} BindsLoadFrom(i: nat, ss: seq<Bytes>, s: Slice<Bytes>)
    requires i + |ss| <= |s.cells|
    ensures ItemsT(i, StrTrees(ss), s, BindItemT) == Good(Slice(s.cells[..i] + ss + s.cells[i + |ss|..], s.len))
    decreases |ss|
  {
    hide StrTree;
    if |ss| == 0 {
      assert s.cells[..i] + ss + s.cells[i..] == s.cells;
    } else {
      StrTreeOf(ss[0]);
      var s' := SetCell(s, i, ss[0]);
      ConsItemsT(i, StrTree(ss[0]), StrTrees(ss[1..]), s, BindItemT);
      BindsLoadFrom(i + 1, ss[1..], s');
      assert s'.cells[..i + 1] + ss[1..] + s'.cells[i + |ss|..] == s.cells[..i] + ss + s.cells[i + |ss|..];
    }
  }

  lemma BindsLoad(ss: seq<Bytes>, s: Slice<Bytes>)
    ensures
      var d := DecodeBindsT(BindsTree(ss), s);
      d.Good? && SliceOk(d.state) && Elements(d.state) == ss
  {
    BindsLoadFrom(0, ss, Resize(s, |ss|, []));
  }

  /** Volume `v` read into cell `i`. */
  function LoadVolume(i: nat, v: VolumeWalk, s: Mem): Mem
    requires i < |s.z.extraVolumes.cells|
  {
    var x := SetMap(s.z.extraVolumes.cells[i].properties, ToMap(v.properties), s.store);
    SetVolume(s, i, VolumeMem(VolumeProfile(v.target, x.ref), x.store))
  }

  function LoadVolumes(i: nat, vs: seq<VolumeWalk>, s: Mem): Mem
    requires i + |vs| <= |s.z.extraVolumes.cells|
    decreases |vs|
  {
    if |vs| == 0 then s else LoadVolumes(i + 1, vs[1..], LoadVolume(i, vs[0], s))
  }

  lemma VolumeLoad(stream: bool, i: nat, v: VolumeWalk, s: Mem)
    requires i < |s.z.extraVolumes.cells|
    ensures VolumeItemT(stream, i, VolumeTree(v), s) == Good(LoadVolume(i, v, s))
  {
    hide StrTree, MapTree, StringMapT, SetMap;
    var s0 := VolumeMem(s.z.extraVolumes.cells[i], s.store);
    var s1 := s0.(v := s0.v.(target := v.target));
    StrTreeOf(v.target);
    MapLoad(v.properties, Slot(s1.v.properties, s1.store));
    var f2 := Field(PROPERTIES, MapTree(v.properties));
    ConsFields(stream, TARGET, StrTree(v.target), [f2] + [], s0, VolumeFieldT);
    ConsFields(stream, PROPERTIES, MapTree(v.properties), [], s1, VolumeFieldT);
  }

  lemma {:induction false} VolumesLoad(stream: bool, i: nat, vs: seq<VolumeWalk>, s: Mem)
    requires i + |vs| <= |s.z.extraVolumes.cells|
    ensures ItemsT(i, VolumeTrees(vs), s, VolumeItemTOf(stream)) == Good(LoadVolumes(i, vs, s))
    decreases |vs|
  {
    hide VolumeTree, VolumeItemT, SetMap;
    if |vs| == 0 {
    } else {
      VolumeLoad(stream, i, vs[0], s);
      ConsItemsT(i, VolumeTree(vs[0]), VolumeTrees(vs[1..]), s, VolumeItemTOf(stream));
      VolumesLoad(stream, i + 1, vs[1..], LoadVolume(i, vs[0], s));
    }
  }

  /** The target after the four fields up to the network map. */
  function LoadHead(e: Walk, s: Mem): Mem {
    var s1 := SetString(Registry, s, e.registry);
    var s2 := SetString(Repository, s1, e.repository);
    var s3 := SetString(NetworkMode, s2, e.networkMode);
    SetMapAt(Network, s3, SetMap(s3.z.network, ToMap(e.network), s3.store))
  }

  /** The target after the three fields that write no map. */
  function LoadMiddle(e: Walk, s: Mem, layers: Slice<Layer>, binds: Slice<Bytes>): Mem {
    var s1 := s.(z := s.z.(layers := layers));
    var s2 := SetString(Cwd, s1, e.cwd);
    s2.(z := s2.z.(binds := binds))
  }

  /** The target after the last two string maps. */
  function LoadTail(e: Walk, s: Mem): Mem {
    var s1 := SetMapAt(Container, s, SetMap(s.z.container, ToMap(e.container), s.store));
    SetMapAt(Volume, s1, SetMap(s1.z.volume, ToMap(e.volume), s1.store))
  }

  function LoadPlain(e: Walk, s: Mem, layers: Slice<Layer>, binds: Slice<Bytes>): Mem {
    LoadTail(e, LoadMiddle(e, LoadHead(e, s), layers, binds))
  }

  /** One field read. */
  lemma FieldStep(stream: bool, k: Bytes, v: Msg, es: seq<Entry>, s: Mem, t: Mem)
    requires k != [] && ProfileFieldT(stream, k, v, s) == Good(t)
    ensures FieldsT(stream, [Field(k, v)] + es, s, ProfileFieldTOf(stream)) == FieldsT(stream, es, t, ProfileFieldTOf(stream))
  {
    hide ProfileFieldT;
    ConsFields(stream, k, v, es, s, ProfileFieldTOf(stream));
  }

  lemma StringStep(stream: bool, k: Bytes, v: Bytes, es: seq<Entry>, s: Mem)
    requires k != [] && ProfileTag(k) in {Registry, Repository, NetworkMode, Cwd}
    ensures FieldsT(stream, [Field(k, StrTree(v))] + es, s, ProfileFieldTOf(stream)) ==
            FieldsT(stream, es, SetString(ProfileTag(k), s, v), ProfileFieldTOf(stream))
  {
    hide ProfileTag, StrTree, FieldsT, SetString;
    StrTreeOf(v);
    FieldStep(stream, k, StrTree(v), es, s, SetString(ProfileTag(k), s, v));
  }

  lemma MapStep(stream: bool, k: Bytes, ps: Order, es: seq<Entry>, s: Mem)
    requires k != [] && ProfileTag(k) in {Network, Container, Volume}
    ensures
      var t := ProfileTag(k);
      FieldsT(stream, [Field(k, MapTree(ps))] + es, s, ProfileFieldTOf(stream)) ==
      FieldsT(stream, es, SetMapAt(t, s, SetMap(MapAt(t, s.z), ToMap(ps), s.store)), ProfileFieldTOf(stream))
  {
    hide ProfileTag, MapTree, StringMapT, FieldsT, SetMap, SetMapAt, MapAt;
    var t := ProfileTag(k);
    MapLoad(ps, Slot(MapAt(t, s.z), s.store));
    FieldStep(stream, k, MapTree(ps), es, s, SetMapAt(t, s, SetMap(MapAt(t, s.z), ToMap(ps), s.store)));
  }

  lemma HeadLoad(stream: bool, e: Walk, s: Mem, es: seq<Entry>)
    ensures FieldsT(stream,
                    [Field(REGISTRY, StrTree(e.registry))] + ([Field(REPOSITORY, StrTree(e.repository))]
                    + ([Field(NETWORK_MODE, StrTree(e.networkMode))] + ([Field(NETWORK, MapTree(e.network))] + es))),
                    s, ProfileFieldTOf(stream))
            == FieldsT(stream, es, LoadHead(e, s), ProfileFieldTOf(stream))
  {
    hide FieldsT, StrTree, MapTree, SetMap, ProfileFieldTOf;
    Tags();
    hide ProfileTag;
    var r4 := [Field(NETWORK, MapTree(e.network))] + es;
    var r3 := [Field(NETWORK_MODE, StrTree(e.networkMode))] + r4;
    var s1 := SetString(Registry, s, e.registry);
    var s2 := SetString(Repository, s1, e.repository);
    StringStep(stream, REGISTRY, e.registry, [Field(REPOSITORY, StrTree(e.repository))] + r3, s);
    StringStep(stream, REPOSITORY, e.repository, r3, s1);
    StringStep(stream, NETWORK_MODE, e.networkMode, r4, s2);
    MapStep(stream, NETWORK, e.network, es, SetString(NetworkMode, s2, e.networkMode));
  }

  lemma MiddleLoad(stream: bool, e: Walk, s: Mem, es: seq<Entry>)
    requires Fits(e)
    ensures
      var layers := DecodeInfoT(stream, InfoTree(e.layers), s.z.layers).state;
      var binds := DecodeBindsT(BindsTree(e.binds), s.z.binds).state;
      FieldsT(stream,
              [Field(EXTENDED_INFO, InfoTree(e.layers))] + ([Field(CWD, StrTree(e.cwd))] + ([Field(BINDS, BindsTree(e.binds))] + es)),
              s, ProfileFieldTOf(stream))
      == FieldsT(stream, es, LoadMiddle(e, s, layers, binds), ProfileFieldTOf(stream))
  {
    hide FieldsT, StrTree, InfoTree, BindsTree, DecodeInfoT, DecodeBindsT, ProfileFieldTOf;
    Tags();
    hide ProfileTag;
    InfoLoad(stream, e.layers, s.z.layers);
    BindsLoad(e.binds, s.z.binds);
    var layers := DecodeInfoT(stream, InfoTree(e.layers), s.z.layers).state;
    var s1 := s.(z := s.z.(layers := layers));
    var s2 := SetString(Cwd, s1, e.cwd);
    var r3 := [Field(BINDS, BindsTree(e.binds))] + es;
    FieldStep(stream, EXTENDED_INFO, InfoTree(e.layers), [Field(CWD, StrTree(e.cwd))] + r3, s, s1);
    StringStep(stream, CWD, e.cwd, r3, s1);
    FieldStep(stream, BINDS, BindsTree(e.binds), es, s2, s2.(z := s2.z.(binds := DecodeBindsT(BindsTree(e.binds), s.z.binds).state)));
  }

  lemma TailLoad(stream: bool, e: Walk, s: Mem)
    ensures FieldsT(stream,
                    [Field(CONTAINER, MapTree(e.container))] + ([Field(VOLUME, MapTree(e.volume))]
                    + ([Field(EXTRAVOLUMES, VolumesTree(e.extraVolumes))] + [])), s, ProfileFieldTOf(stream))
            == Good(LoadVolumes(0, e.extraVolumes, ResizeVolumes(LoadTail(e, s), |e.extraVolumes|)))
  {
    hide FieldsT, MapTree, VolumesTree, SetMap, ProfileFieldTOf, LoadVolumes, ProfileTag, ProfileFieldT;
    Tags();
    var r3 := [Field(EXTRAVOLUMES, VolumesTree(e.extraVolumes))] + [];
    var s1 := SetMapAt(Container, s, SetMap(s.z.container, ToMap(e.container), s.store));
    var s2 := LoadTail(e, s);
    MapStep(stream, CONTAINER, e.container, [Field(VOLUME, MapTree(e.volume))] + r3, s);
    MapStep(stream, VOLUME, e.volume, r3, s1);
    VolumesField(stream, e.extraVolumes, s2);
    var t := LoadVolumes(0, e.extraVolumes, ResizeVolumes(s2, |e.extraVolumes|));
    FieldStep(stream, EXTRAVOLUMES, VolumesTree(e.extraVolumes), [], s2, t);
    NoFields(stream, t, ProfileFieldTOf(stream));
  }

  lemma VolumesField(stream: bool, vs: seq<VolumeWalk>, s: Mem)
    ensures ProfileFieldT(stream, EXTRAVOLUMES, VolumesTree(vs), s) == Good(LoadVolumes(0, vs, ResizeVolumes(s, |vs|)))
  {
    hide LoadVolumes, ProfileTag, VolumesTree, DecodeVolumesT, DecodeInfoT, DecodeBindsT, DecodeMapAtT, SetString;
    Tags();
    VolumesArray(stream, vs, s);
  }

  lemma VolumesArray(stream: bool, vs: seq<VolumeWalk>, s: Mem)
    ensures DecodeVolumesT(stream, VolumesTree(vs), s) == Good(LoadVolumes(0, vs, ResizeVolumes(s, |vs|)))
  {
    hide LoadVolumes, VolumeItemTOf, ItemsT;
    VolumesLoad(stream, 0, vs, ResizeVolumes(s, |vs|));
  }

  /** What decoding a marshalled profile does to the target, map objects included. */
  lemma ProfileLoad(stream: bool, e: Walk, s: Mem)
    requires Fits(e)
    ensures
      var layers := DecodeInfoT(stream, InfoTree(e.layers), s.z.layers).state;
      var binds := DecodeBindsT(BindsTree(e.binds), s.z.binds).state;
      var s9 := ResizeVolumes(LoadPlain(e, s, layers, binds), |e.extraVolumes|);
      DecodeProfileT(stream, ProfileTree(e), s) == Good(LoadVolumes(0, e.extraVolumes, s9))
  {
    hide FieldsT, StrTree, MapTree, InfoTree, BindsTree, VolumesTree, SetMap, DecodeInfoT, DecodeBindsT, ProfileFieldTOf, LoadVolumes;
    var s4 := LoadHead(e, s);
    var r8 := [Field(CONTAINER, MapTree(e.container))] + ([Field(VOLUME, MapTree(e.volume))]
              + ([Field(EXTRAVOLUMES, VolumesTree(e.extraVolumes))] + []));
    var r5 := [Field(EXTENDED_INFO, InfoTree(e.layers))] + ([Field(CWD, StrTree(e.cwd))] + ([Field(BINDS, BindsTree(e.binds))] + r8));
    assert s4.z.layers == s.z.layers && s4.z.binds == s.z.binds;
    HeadLoad(stream, e, s, r5);
    MiddleLoad(stream, e, s4, r8);
    TailLoad(stream, e, LoadMiddle(e, s4, DecodeInfoT(stream, InfoTree(e.layers), s.z.layers).state,
                                   DecodeBindsT(BindsTree(e.binds), s.z.binds).state));
  }

  lemma NoFields<S>(stream: bool, s: S, g: (Bytes, Msg, S) -> Out<S>)
    ensures FieldsT(stream, [], s, g) == Good(s)
  {
  }

  lemma Tags()
    ensures ProfileTag(REGISTRY) == Registry && ProfileTag(REPOSITORY) == Repository
    ensures ProfileTag(NETWORK_MODE) == NetworkMode && ProfileTag(NETWORK) == Network
    ensures ProfileTag(EXTENDED_INFO) == ExtendedInfo && ProfileTag(CWD) == Cwd
    ensures ProfileTag(BINDS) == Binds && ProfileTag(CONTAINER) == Container
    ensures ProfileTag(VOLUME) == Volume && ProfileTag(EXTRAVOLUMES) == ExtraVolumes
  {
    assert EXTRAVOLUMES[0] != NETWORK_MODE[0];
  }

  // ------------------------------------------------------------ shared maps

  /** A map variable of the target and the map that is to be read into it. */
  datatype Site = Site(ref: Ref, want: StrMap)

  /** Variables that point to the same map object are to hold the same map. */
  predicate Agree(ps: seq<Site>) {
    forall i, j :: 0 <= i < j < |ps| && ps[i].ref.Shared? && ps[i].ref == ps[j].ref ==> ps[i].want == ps[j].want
  }

  /** The variable after the write. */
  function Written(p: Site): Ref {
    if p.ref.Shared? then p.ref else Private(p.want)
  }

  /** The shared maps after the write. */
  function Write(p: Site, store: Store): Store {
    if p.ref.Shared? then store[p.ref.addr := p.want] else store
  }

  lemma SetMapWrites(p: Site, store: Store)
    ensures SetMap(p.ref, p.want, store) == Slot(Written(p), Write(p, store))
  {
  }

  /** The shared maps after all writes, in order. */
  function Writes(ps: seq<Site>, store: Store): Store
    decreases |ps|
  {
    if |ps| == 0 then store else Writes(ps[1..], Write(ps[0], store))
  }

  lemma {:induction false} WritesFrame(ps: seq<Site>, store: Store, a: nat)
    requires forall i :: 0 <= i < |ps| ==> ps[i].ref != Shared(a)
    ensures Lookup(Shared(a), Writes(ps, store)) == Lookup(Shared(a), store)
    decreases |ps|
  {
    if |ps| == 0 {
    } else {
      WritesFrame(ps[1..], Write(ps[0], store), a);
    }
  }

  lemma {:induction false} WritesAgreeing(ps: seq<Site>, store: Store)
    requires Agree(ps)
    ensures forall i :: 0 <= i < |ps| ==> Lookup(Written(ps[i]), Writes(ps, store)) == ps[i].want
    decreases |ps|
  {
    if |ps| == 0 {
    } else {
      var p, rest := ps[0], ps[1..];
      var store' := Write(p, store);
      WritesAgreeing(rest, store');
      if p.ref.Shared? {
        if j :| 0 <= j < |rest| && rest[j].ref == p.ref {
          assert ps[j + 1] == rest[j];
          assert Lookup(Written(rest[j]), Writes(rest, store')) == rest[j].want;
        } else {
          WritesFrame(rest, store', p.ref.addr);
        }
      }
      forall i | 0 <= i < |ps|
        ensures Lookup(Written(ps[i]), Writes(ps, store)) == ps[i].want
      {
        if i > 0 {
          assert ps[i] == rest[i - 1];
        }
      }
    }
  }

  /** Every variable holds what was read into it exactly when no two of them clash. */
  lemma WritesHold(ps: seq<Site>, store: Store)
    ensures Agree(ps) <==> forall i :: 0 <= i < |ps| ==> Lookup(Written(ps[i]), Writes(ps, store)) == ps[i].want
  {
    if Agree(ps) {
      WritesAgreeing(ps, store);
    }
  }

  function VolumeSites(cells: seq<VolumeProfile>, vs: seq<VolumeWalk>): (ps: seq<Site>)
    requires |vs| <= |cells|
    ensures |ps| == |vs|
    ensures forall i :: 0 <= i < |vs| ==> ps[i] == Site(cells[i].properties, ToMap(vs[i].properties))
  {
    if |vs| == 0 then []
    else [Site(cells[0].properties, ToMap(vs[0].properties))] + VolumeSites(cells[1..], vs[1..])
  }

  /** The three map variables of the profile itself. */
  function PlainSites(e: Walk, z: Profile): seq<Site> {
    [Site(z.network, ToMap(e.network)), Site(z.container, ToMap(e.container)), Site(z.volume, ToMap(e.volume))]
  }

  /** All map variables of the target that decoding `e` writes, in the order it writes them. */
  function Sites(e: Walk, z: Profile): seq<Site> {
    PlainSites(e, z) + VolumeSites(Resize(z.extraVolumes, |e.extraVolumes|, ZERO_VOLUME).cells, e.extraVolumes)
  }

  lemma {:induction false} WritesConcat(ps: seq<Site>, qs: seq<Site>, store: Store)
    ensures Writes(ps + qs, store) == Writes(qs, Writes(ps, store))
    decreases |ps|
  {
    if |ps| == 0 {
      assert ps + qs == qs;
    } else {
      assert (ps + qs)[1..] == ps[1..] + qs;
      WritesConcat(ps[1..], qs, Write(ps[0], store));
    }
  }

  /** What reading the volumes `vs` into the cells from `i` on writes, and what it leaves alone. */
  lemma {:induction false} VolumesWrite(i: nat, vs: seq<VolumeWalk>, s: Mem)
    requires i + |vs| <= |s.z.extraVolumes.cells|
    ensures
      var t := LoadVolumes(i, vs, s);
      var cells := t.z.extraVolumes.cells;
      var sites := VolumeSites(s.z.extraVolumes.cells[i..], vs);
      && t.z == s.z.(extraVolumes := t.z.extraVolumes)
      && t.z.extraVolumes.len == s.z.extraVolumes.len && |cells| == |s.z.extraVolumes.cells|
      && (forall j :: 0 <= j < i ==> cells[j] == s.z.extraVolumes.cells[j])
      && (forall j :: 0 <= j < |vs| ==> cells[i + j] == VolumeProfile(vs[j].target, Written(sites[j])))
      && t.store == Writes(sites, s.store)
    decreases |vs|
  {
    hide ToMap;
    if |vs| == 0 {
    } else {
      var s' := LoadVolume(i, vs[0], s);
      VolumesWrite(i + 1, vs[1..], s');
      assert s'.z.extraVolumes.cells[i + 1..] == s.z.extraVolumes.cells[i..][1..];
      var sites := VolumeSites(s.z.extraVolumes.cells[i..], vs);
      var rest := VolumeSites(s'.z.extraVolumes.cells[i + 1..], vs[1..]);
      assert sites[1..] == rest;
      var cells := LoadVolumes(i, vs, s).z.extraVolumes.cells;
      forall j | 0 <= j < |vs|
        ensures cells[i + j] == VolumeProfile(vs[j].target, Written(sites[j]))
      {
        if j > 0 {
          assert cells[(i + 1) + (j - 1)] == VolumeProfile(vs[1..][j - 1].target, Written(rest[j - 1]));
        }
      }
    }
  }

  lemma ThreeWrites(p: Site, q: Site, r: Site, store: Store)
    ensures Writes([p, q, r], store) == Write(r, Write(q, Write(p, store)))
  {
    hide Write;
    assert [p, q, r][1..] == [q, r] && [q, r][1..] == [r] && [r][1..] == [];
    assert Writes([r], Write(q, Write(p, store))) == Writes([], Write(r, Write(q, Write(p, store))));
    assert Writes([q, r], Write(p, store)) == Writes([r], Write(q, Write(p, store)));
  }

  /** Which variable ends up where: `t` is `e` read over a target whose map variables are `sites`. */
  predicate Loaded(e: Walk, sites: seq<Site>, t: Profile) {
    && |sites| == 3 + |e.extraVolumes|
    && t.registry == e.registry && t.repository == e.repository && t.networkMode == e.networkMode && t.cwd == e.cwd
    && t.network == Written(sites[0]) && t.container == Written(sites[1]) && t.volume == Written(sites[2])
    && t.extraVolumes.len == |e.extraVolumes| && SliceOk(t.extraVolumes)
    && forall j :: 0 <= j < |e.extraVolumes| ==>
         t.extraVolumes.cells[j] == VolumeProfile(e.extraVolumes[j].target, Written(sites[3 + j]))
  }

  lemma PlainWrites(e: Walk, s: Mem, layers: Slice<Layer>, binds: Slice<Bytes>)
    ensures
      var sites := PlainSites(e, s.z);
      var z := s.z;
      LoadPlain(e, s, layers, binds) ==
      Mem(Profile(e.registry, e.repository, e.networkMode, Written(sites[0]), layers, e.cwd, binds,
                  Written(sites[1]), Written(sites[2]), z.extraVolumes), Writes(sites, s.store))
  {
    hide ToMap, SetMap, Write, Written, Writes;
    var ps := PlainSites(e, s.z);
    ThreeWrites(ps[0], ps[1], ps[2], s.store);
    SetMapWrites(ps[0], s.store);
    SetMapWrites(ps[1], Write(ps[0], s.store));
    SetMapWrites(ps[2], Write(ps[1], Write(ps[0], s.store)));
  }

  lemma LoadedTarget(e: Walk, s: Mem, layers: Slice<Layer>, binds: Slice<Bytes>)
    ensures
      var t := LoadVolumes(0, e.extraVolumes, ResizeVolumes(LoadPlain(e, s, layers, binds), |e.extraVolumes|));
      && Loaded(e, Sites(e, s.z), t.z) && t.z.layers == layers && t.z.binds == binds
      && t.store == Writes(Sites(e, s.z), s.store)
  {
    hide ToMap, SetMap, Write, Written, Writes, LoadPlain, LoadVolumes;
    PlainWrites(e, s, layers, binds);
    var p := LoadPlain(e, s, layers, binds);
    var q := ResizeVolumes(p, |e.extraVolumes|);
    var cells := q.z.extraVolumes.cells;
    assert cells[0..] == cells;
    VolumesWrite(0, e.extraVolumes, q);
    WritesConcat(PlainSites(e, s.z), VolumeSites(cells, e.extraVolumes), s.store);
  }

  // -------------------------------------------------------------- main results

  /** The maps that are to be read, in the order of the sites. */
  predicate Wanted(e: Walk, sites: seq<Site>) {
    && |sites| == 3 + |e.extraVolumes|
    && sites[0].want == ToMap(e.network) && sites[1].want == ToMap(e.container) && sites[2].want == ToMap(e.volume)
    && forall j :: 0 <= j < |e.extraVolumes| ==> sites[3 + j].want == ToMap(e.extraVolumes[j].properties)
  }

  lemma ViewHolds(e: Walk, t: Mem, sites: seq<Site>)
    requires MemOk(t) && Wanted(e, sites) && Loaded(e, sites, t.z)
    requires Elements(t.z.layers) == e.layers && Elements(t.z.binds) == e.binds
    ensures View(t) == ValueOf(e) <==> forall i :: 0 <= i < |sites| ==> Lookup(Written(sites[i]), t.store) == sites[i].want
  {
    hide ToMap, Lookup, Written;
    var vols := VolumesView(Elements(t.z.extraVolumes), t.store);
    var want := VolumeValues(e.extraVolumes);
    if View(t) == ValueOf(e) {
      forall i | 0 <= i < |sites|
        ensures Lookup(Written(sites[i]), t.store) == sites[i].want
      {
        if i >= 3 {
          var j := i - 3;
          assert vols[j] == want[j];
          assert sites[3 + j].want == ToMap(e.extraVolumes[j].properties);
          assert t.z.extraVolumes.cells[j] == VolumeProfile(e.extraVolumes[j].target, Written(sites[3 + j]));
        }
      }
    }
    if forall i :: 0 <= i < |sites| ==> Lookup(Written(sites[i]), t.store) == sites[i].want {
      forall j | 0 <= j < |e.extraVolumes|
        ensures vols[j] == want[j]
      {
        assert Lookup(Written(sites[3 + j]), t.store) == sites[3 + j].want;
      }
      assert vols == want;
    }
  }

  // ------------------------------------------- a marshalled profile is portable

  ghost predicate AllPortable(es: seq<Entry>) { forall i :: 0 <= i < |es| ==> PortableEntry(es[i]) }

  lemma ConsPortable(k: Bytes, v: Msg, es: seq<Entry>)
    requires Portable(v) && AllPortable(es)
    ensures AllPortable([Field(k, v)] + es)
  {
  }

  lemma {:induction false} PairTreesPortable(ps: Order)
    ensures AllPortable(PairTrees(ps))
    decreases |ps|
  {
    if |ps| == 0 {
    } else {
      PairTreesPortable(ps[1..]);
    }
  }

  lemma StrPortable(s: Bytes)
    ensures Portable(StrTree(s))
  {
  }

  lemma MapPortable(ps: Order)
    ensures Portable(MapTree(ps))
  {
    PairTreesPortable(ps);
  }

  lemma LayerPortable(l: Layer)
    ensures Portable(LayerTree(l))
  {
    StrPortable(l.digest);
    StrPortable(l.digestType);
    StrPortable(l.torrentId);
    var r3 := [Field(TORRENT_ID, StrTree(l.torrentId))] + [];
    var r2 := [Field(SIZE, UintTree(l.size))] + r3;
    var r1 := [Field(DIGEST_TYPE, StrTree(l.digestType))] + r2;
    assert Portable(UintTree(l.size));
    hide StrTree, UintTree;
    ConsPortable(TORRENT_ID, StrTree(l.torrentId), []);
    ConsPortable(SIZE, UintTree(l.size), r3);
    ConsPortable(DIGEST_TYPE, StrTree(l.digestType), r2);
    ConsPortable(DIGEST, StrTree(l.digest), r1);
    DictPortable(0, [Field(DIGEST, StrTree(l.digest))] + r1);
  }

  lemma {:induction false} LayersPortable(ls: seq<Layer>)
    ensures forall i :: 0 <= i < |ls| ==> Portable(LayerTrees(ls)[i])
    decreases |ls|
  {
    if |ls| == 0 {
    } else {
      LayerPortable(ls[0]);
      hide LayerTree, Portable;
      LayersPortable(ls[1..]);
      assert forall i :: 0 < i < |ls| ==> LayerTrees(ls)[i] == LayerTrees(ls[1..])[i - 1];
    }
  }

  lemma {:induction false} StrsPortable(ss: seq<Bytes>)
    ensures forall i :: 0 <= i < |ss| ==> Portable(StrTrees(ss)[i])
    decreases |ss|
  {
    if |ss| == 0 {
    } else {
      StrsPortable(ss[1..]);
      assert forall i :: 0 < i < |ss| ==> StrTrees(ss)[i] == StrTrees(ss[1..])[i - 1];
    }
  }

  lemma VolumePortable(v: VolumeWalk)
    ensures Portable(VolumeTree(v))
  {
    MapPortable(v.properties);
    StrPortable(v.target);
    hide MapTree, StrTree;
    ConsPortable(PROPERTIES, MapTree(v.properties), []);
    ConsPortable(TARGET, StrTree(v.target), [Field(PROPERTIES, MapTree(v.properties))] + []);
  }

  lemma {:induction false} VolumesPortable(vs: seq<VolumeWalk>)
    ensures forall i :: 0 <= i < |vs| ==> Portable(VolumeTrees(vs)[i])
    decreases |vs|
  {
    if |vs| == 0 {
    } else {
      VolumePortable(vs[0]);
      hide VolumeTree, Portable;
      VolumesPortable(vs[1..]);
      assert forall i :: 0 < i < |vs| ==> VolumeTrees(vs)[i] == VolumeTrees(vs[1..])[i - 1];
    }
  }

  lemma ProfilePortable(e: Walk)
    ensures Portable(ProfileTree(e))
  {
    StrPortable(e.registry);
    StrPortable(e.repository);
    StrPortable(e.networkMode);
    MapPortable(e.network);
    LayersPortable(e.layers);
    StrPortable(e.cwd);
    StrsPortable(e.binds);
    MapPortable(e.container);
    MapPortable(e.volume);
    VolumesPortable(e.extraVolumes);
    ArrPortable(HeadWidth(|e.layers|), LayerTrees(e.layers));
    NonePortable();
    ConsPortable(LAYERS, Arr(HeadWidth(|e.layers|), LayerTrees(e.layers)), []);
    DictPortable(0, [Field(LAYERS, Arr(HeadWidth(|e.layers|), LayerTrees(e.layers)))] + []);
    ArrPortable(HeadWidth(|e.binds|), StrTrees(e.binds));
    ArrPortable(HeadWidth(|e.extraVolumes|), VolumeTrees(e.extraVolumes));
    hide StrTree, MapTree, InfoTree, BindsTree, VolumesTree, PortableEntry, AllPortable;
    var r9 := [Field(EXTRAVOLUMES, VolumesTree(e.extraVolumes))] + [];
    ConsPortable(EXTRAVOLUMES, VolumesTree(e.extraVolumes), []);
    var r8 := [Field(VOLUME, MapTree(e.volume))] + r9;
    ConsPortable(VOLUME, MapTree(e.volume), r9);
    var r7 := [Field(CONTAINER, MapTree(e.container))] + r8;
    ConsPortable(CONTAINER, MapTree(e.container), r8);
    var r6 := [Field(BINDS, BindsTree(e.binds))] + r7;
    ConsPortable(BINDS, BindsTree(e.binds), r7);
    var r5 := [Field(CWD, StrTree(e.cwd))] + r6;
    ConsPortable(CWD, StrTree(e.cwd), r6);
    var r4 := [Field(EXTENDED_INFO, InfoTree(e.layers))] + r5;
    ConsPortable(EXTENDED_INFO, InfoTree(e.layers), r5);
    var r3 := [Field(NETWORK, MapTree(e.network))] + r4;
    ConsPortable(NETWORK, MapTree(e.network), r4);
    var r2 := [Field(NETWORK_MODE, StrTree(e.networkMode))] + r3;
    ConsPortable(NETWORK_MODE, StrTree(e.networkMode), r3);
    var r1 := [Field(REPOSITORY, StrTree(e.repository))] + r2;
    ConsPortable(REPOSITORY, StrTree(e.repository), r2);
    ConsPortable(REGISTRY, StrTree(e.registry), r1);
    DictPortable(0, [Field(REGISTRY, StrTree(e.registry))] + r1);
  }

  lemma NonePortable()
    ensures AllPortable([])
  {
  }

  lemma ArrPortable(w: nat, items: seq<Msg>)
    requires forall i :: 0 <= i < |items| ==> Portable(items[i])
    ensures Portable(Arr(w, items))
  {
  }

  lemma DictPortable(w: nat, es: seq<Entry>)
    requires AllPortable(es)
    ensures Portable(Dict(w, es))
  {
  }

  /** What decoding a marshalled profile leaves in the target and in the map objects. */
  lemma DecodeMarshalled(src: Source, e: Walk, s: Mem, rest: Bytes)
    requires Fits(e)
    ensures
      var d := DecodeProfile(src, ProfileBytes(e) + rest, s);
      && d.Done? && d.rest == rest && MemOk(d.state)
      && Loaded(e, Sites(e, s.z), d.state.z) && d.state.store == Writes(Sites(e, s.z), s.store)
      && Elements(d.state.z.layers) == e.layers && Elements(d.state.z.binds) == e.binds
  {
    hide ProfileBytes, ProfileTree, WellFormed, Enc, DecodeProfile, DecodeProfileT, InfoTree, BindsTree, DecodeInfoT,
      DecodeBindsT, LoadPlain, LoadVolumes, Sites, Writes, Written, ProfilePass, Portable;
    ProfileTreeEnc(e);
    DecodeProfileRefine(src, ProfileTree(e), s, rest);
    ProfilePortable(e);
    ProfileHarmless(src, ProfileTree(e), |rest|);
    ProfileLoad(src.Stream?, e, s);
    InfoLoad(src.Stream?, e.layers, s.z.layers);
    BindsLoad(e.binds, s.z.binds);
    LoadedTarget(e, s, DecodeInfoT(src.Stream?, InfoTree(e.layers), s.z.layers).state,
      DecodeBindsT(BindsTree(e.binds), s.z.binds).state);
  }

  /**
   Round trip into a dirty target.  For every profile, every map iteration order
   and every target, decoding the marshalled bytes succeeds and leaves exactly
   what followed them.  The target then says what the profile says if and only
   if no two map variables of the target that are to receive different maps
   point to the same map object.
   */
  lemma RoundTrip(src: Source, e: Walk, s: Mem, rest: Bytes)
    requires Fits(e)
    ensures
      var d := DecodeProfile(src, ProfileBytes(e) + rest, s);
      && d.Done? && d.rest == rest && MemOk(d.state)
      && (View(d.state) == ValueOf(e) <==> Agree(Sites(e, s.z)))
  {
    hide ProfileBytes, DecodeProfile, Loaded, Writes, Written, View, ValueOf, Agree, ToMap;
    DecodeMarshalled(src, e, s, rest);
    WritesHold(Sites(e, s.z), s.store);
    ViewHolds(e, DecodeProfile(src, ProfileBytes(e) + rest, s).state, Sites(e, s.z));
  }

  const NETWORK_ONLY := Walk([], [], [], [([1], [1])], [], [], [], [], [], [])

  const ONE_MAP := Mem(Profile([], [], [], Shared(0), Slice([], 0), [], Slice([], 0), Shared(0), Nil, Slice([], 0)), map[])

  lemma OneMapDisagrees()
    ensures !Agree(Sites(NETWORK_ONLY, ONE_MAP.z))
  {
    var ps: Order := [([1], [1])];
    assert ps[1..] == [] && ToMap(ps) == map[[1] := [1]] && ToMap([]) == map[];
    assert [1] in ToMap(ps);
    var sites := Sites(NETWORK_ONLY, ONE_MAP.z);
    assert sites[0] == Site(Shared(0), ToMap(ps)) && sites[1] == Site(Shared(0), ToMap([]));
  }

  /** A target in which the network and the container are one map object loses the network. */
  lemma SharedMapsClash(src: Source, rest: Bytes)
    ensures
      var d := DecodeProfile(src, ProfileBytes(NETWORK_ONLY) + rest, ONE_MAP);
      d.Done? && d.rest == rest && MemOk(d.state) && View(d.state) != ValueOf(NETWORK_ONLY)
  {
    hide ProfileBytes, DecodeProfile, View, ValueOf, Agree, Sites;
    OneMapDisagrees();
    RoundTrip(src, NETWORK_ONLY, ONE_MAP, rest);
  }
}
