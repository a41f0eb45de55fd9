/**
 Profiles with a length that does not fit the 32 bits MessagePack has for it.
 The encoder drops the high bytes of such a length, so the decoder takes up
 something shorter and goes on in the middle of what was printed.  Whatever it
 makes of the rest, and whatever the target held, the place of the first such
 length ends up with something that fits.
 */
module ProfileLimits {
  import opened Options
  import opened MessagePack
  import opened ProfileDecoder
  import opened DecoderLoops
  import opened ProfileRefinement
  import opened ProfileRoundTrip

  // ------------------------------------------------------------- what fits

  predicate MapFits(m: StrMap) { |m| < LENGTHS && forall k :: k in m ==> |k| < LENGTHS && |m[k]| < LENGTHS }

  predicate VolumeValueFits(v: VolumeValue) { |v.target| < LENGTHS && MapFits(v.properties) }

  /** Every length fits the 32 bits MessagePack has for it, every number a Go `uint`. */
  predicate ValueFits(p: ProfileValue) {
    && |p.registry| < LENGTHS && |p.repository| < LENGTHS && |p.networkMode| < LENGTHS && |p.cwd| < LENGTHS
    && MapFits(p.network) && MapFits(p.container) && MapFits(p.volume)
    && |p.layers| < LENGTHS && (forall i :: 0 <= i < |p.layers| ==> LayerFits(p.layers[i]))
    && |p.binds| < LENGTHS && (forall i :: 0 <= i < |p.binds| ==> |p.binds[i]| < LENGTHS)
    && |p.extraVolumes| < LENGTHS && (forall i :: 0 <= i < |p.extraVolumes| ==> VolumeValueFits(p.extraVolumes[i]))
  }

  // ------------------------------------------- whatever is read fits somehow

  lemma StringShort(b: Bytes)
    ensures ReadString(b).Ok? ==> |ReadString(b).value| < LENGTHS
  {
    Limits();
  }

  lemma UintShort(b: Bytes)
    ensures ReadUint(b).Ok? ==> ReadUint(b).value < UINTS
  {
    Limits();
    assert Pow256(5) == 256 * Pow256(4) && Pow256(6) == 256 * Pow256(5);
    assert Pow256(7) == 256 * Pow256(6) && Pow256(8) == 256 * Pow256(7);
    assert Pow256(8) == UINTS;
    hide Pow256;
  }

  lemma CountShort(b: Bytes)
    ensures ReadArrayHeader(b).Ok? ==> ReadArrayHeader(b).value < LENGTHS
    ensures ReadMapHeader(b).Ok? ==> ReadMapHeader(b).value < LENGTHS
  {
    Limits();
    hide Pow256;
  }

  lemma {:induction false} PairsFit(n: nat, b: Bytes, acc: StrMap)
    requires |acc| + n < LENGTHS && forall k :: k in acc ==> |k| < LENGTHS && |acc[k]| < LENGTHS
    ensures Pairs(n, b, acc).Done? ==> MapFits(Pairs(n, b, acc).state)
    decreases n
  {
    hide ReadString;
    if n == 0 {
    } else if ReadString(b).Ok? {
      var r := ReadString(b).rest;
      StringShort(b);
      if ReadString(r).Ok? {
        StringShort(r);
        var k, v := ReadString(b).value, ReadString(r).value;
        OneMore(acc, k, v);
        PairsFit(n - 1, ReadString(r).rest, acc[k := v]);
      }
    }
  }

  lemma OneMore(acc: StrMap, k: Bytes, v: Bytes)
    ensures |acc[k := v]| <= |acc| + 1
  {
    assert acc[k := v].Keys == acc.Keys + {k};
    assert |acc[k := v].Keys| == |acc[k := v]| && |acc.Keys| == |acc|;
  }

  /** A string map that is read fits. */
  lemma StringMapFits(b: Bytes, s: Slot) returns (c: StrMap)
    requires StringMap(b, s).Done?
    ensures MapFits(c) && StringMap(b, s).state == SetMap(s.ref, c, s.store)
  {
    hide Pairs, SetMap;
    CountShort(b);
    var h := ReadMapHeader(b);
    PairsFit(h.value, h.rest, map[]);
    c := Pairs(h.value, h.rest, map[]).state;
  }

  /** Every map is as it was, or it fits. */
  ghost predicate Tidier(a: Store, b: Store) {
    forall r: Ref :: Lookup(r, b) == Lookup(r, a) || MapFits(Lookup(r, b))
  }

  lemma SetMapTidies(r: Ref, c: StrMap, store: Store)
    requires MapFits(c)
    ensures Tidier(store, SetMap(r, c, store).store)
    ensures MapFits(Lookup(SetMap(r, c, store).ref, SetMap(r, c, store).store))
  {
  }

  lemma TidierYet(a: Store, b: Store, c: Store)
    requires Tidier(a, b) && Tidier(b, c)
    ensures Tidier(a, c)
  {
  }

  // ------------------------------------------------------------ clipped spots

  /** A place of the profile that has a length of its own. */
  datatype Spot =
    | AtString(t: Tag) | AtMap(t: Tag)
    | LayerCount | AtLayer(i: nat) | BindCount | AtBind(i: nat) | VolumeCount | AtVolume(i: nat)

  function StringIn(t: Tag, z: Profile): Bytes {
    match t case Registry => z.registry case Repository => z.repository case NetworkMode => z.networkMode case _ => z.cwd
  }

  function WantedString(t: Tag, p: ProfileValue): Bytes {
    match t case Registry => p.registry case Repository => p.repository case NetworkMode => p.networkMode case _ => p.cwd
  }

  function WantedMap(t: Tag, p: ProfileValue): StrMap {
    match t case Network => p.network case Container => p.container case _ => p.volume
  }

  predicate ClipsString(want: Bytes, have: Bytes) { |have| < LENGTHS <= |want| }

  predicate ClipsMap(want: StrMap, have: StrMap) { MapFits(have) && !MapFits(want) }

  predicate ClipsLayer(want: Layer, have: Layer) {
    || ClipsString(want.digest, have.digest) || ClipsString(want.digestType, have.digestType)
    || have.size < UINTS <= want.size || ClipsString(want.torrentId, have.torrentId)
  }

  predicate ClipsVolume(want: VolumeValue, x: VolumeMem) {
    ClipsString(want.target, x.v.target) || ClipsMap(want.properties, Lookup(x.v.properties, x.store))
  }

  /** The cell, if it is there yet; a new one would be empty. */
  predicate ClipsLayerAt(want: seq<Layer>, i: nat, s: Slice<Layer>) {
    i < |want| && !LayerFits(want[i]) && (i < |s.cells| ==> ClipsLayer(want[i], s.cells[i]))
  }

  predicate ClipsBindAt(want: seq<Bytes>, i: nat, s: Slice<Bytes>) {
    i < |want| && |want[i]| >= LENGTHS && (i < |s.cells| ==> |s.cells[i]| < LENGTHS)
  }

  predicate ClipsVolumeAt(want: seq<VolumeValue>, i: nat, s: Mem) {
    && i < |want| && !VolumeValueFits(want[i])
    && (i < |s.z.extraVolumes.cells| ==> ClipsVolume(want[i], VolumeMem(s.z.extraVolumes.cells[i], s.store)))
  }

  /** What `p` has at this spot does not fit, what the target has does. */
  predicate Clipped(p: ProfileValue, s: Mem, at: Spot) {
    match at
    case AtString(t) => ClipsString(WantedString(t, p), StringIn(t, s.z))
    case AtMap(t) => ClipsMap(WantedMap(t, p), Lookup(MapAt(t, s.z), s.store))
    case LayerCount => s.z.layers.len < LENGTHS <= |p.layers|
    case AtLayer(i) => ClipsLayerAt(p.layers, i, s.z.layers)
    case BindCount => s.z.binds.len < LENGTHS <= |p.binds|
    case AtBind(i) => ClipsBindAt(p.binds, i, s.z.binds)
    case VolumeCount => s.z.extraVolumes.len < LENGTHS <= |p.extraVolumes|
    case AtVolume(i) => ClipsVolumeAt(p.extraVolumes, i, s)
  }

  lemma ClippedDiffers(p: ProfileValue, s: Mem, at: Spot)
    requires MemOk(s) && Clipped(p, s, at)
    ensures View(s) != p
  {
    hide MapFits, Lookup;
    match at
    case AtVolume(i) => assert i < s.z.extraVolumes.len ==> VolumesView(Elements(s.z.extraVolumes), s.store)[i] != p.extraVolumes[i];
    case _ =>
  }

  // ----------------------------------------------- no decoder unclips a spot

  /** No field handler breaks `inv`, whatever it reads. */
  ghost predicate Keeps<S(!new)>(f: (Bytes, Bytes, S) -> Dec<S>, inv: S -> bool) {
    forall k: Bytes, c: Bytes, t: S {:trigger f(k, c, t)} :: inv(t) && f(k, c, t).Done? ==> inv(f(k, c, t).state)
  }

  lemma {:induction false} FieldsKeep<S(!new)>(
    src: Source, n: nat, b: Bytes, s: S, f: (Bytes, Bytes, S) -> Dec<S>, inv: S -> bool)
    requires inv(s) && Keeps(f, inv)
    ensures Fields(src, n, b, s, f).Done? ==> inv(Fields(src, n, b, s, f).state)
    decreases n
  {
    hide ReadMapKey;
    if n > 0 && ReadMapKey(src.Stream?, b).Ok? {
      var k := ReadMapKey(src.Stream?, b);
      var d := f(k.value, k.rest, s);
      if d.Done? {
        FieldsKeep(src, n - 1, d.rest, d.state, f, inv);
      }
    }
  }

  lemma {:induction false} ItemsKeep<S(!new)>(
    i: nat, n: nat, b: Bytes, s: S, f: (nat, Bytes, S) -> Dec<S>, inv: S -> bool)
    requires i <= n && inv(s)
    requires forall j: nat, c: Bytes, t: S {:trigger f(j, c, t)} :: inv(t) && f(j, c, t).Done? ==> inv(f(j, c, t).state)
    ensures Items(i, n, b, s, f).Done? ==> inv(Items(i, n, b, s, f).state)
    decreases n - i
  {
    if i < n {
      var d := f(i, b, s);
      if d.Done? {
        ItemsKeep(i + 1, n, d.rest, d.state, f, inv);
      }
    }
  }

  lemma LayerFieldKeeps(src: Source, k: Bytes, b: Bytes, z: Layer, want: Layer)
    requires ClipsLayer(want, z) && LayerField(src, k, b, z).Done?
    ensures ClipsLayer(want, LayerField(src, k, b, z).state)
  {
    hide ReadString, ReadUint, LayerTag, Skip;
    StringShort(b);
    UintShort(b);
  }

  ghost function ClipsLayerOf(l: Layer): Layer -> bool { (t: Layer) => ClipsLayer(l, t) }

  lemma LayerKeeps(src: Source, l: Layer)
    ensures Keeps(LayerFieldOf(src), ClipsLayerOf(l))
  {
    hide LayerField, ClipsLayer;
    forall k: Bytes, c: Bytes, t: Layer | ClipsLayer(l, t) && LayerField(src, k, c, t).Done?
      ensures ClipsLayer(l, LayerField(src, k, c, t).state)
    {
      LayerFieldKeeps(src, k, c, t, l);
    }
  }

  lemma DecodeLayerKeeps(src: Source, b: Bytes, z: Layer, want: Layer)
    requires ClipsLayer(want, z) && DecodeLayer(src, b, z).Done?
    ensures ClipsLayer(want, DecodeLayer(src, b, z).state)
  {
    hide LayerFieldOf, ReadMapHeader, ClipsLayer, Fields, Keeps;
    var h := ReadMapHeader(b);
    LayerKeeps(src, want);
    FieldsKeep(src, h.value, h.rest, z, LayerFieldOf(src), ClipsLayerOf(want));
  }

  lemma LayerItemKeeps(src: Source, i: nat, b: Bytes, s: Slice<Layer>, want: seq<Layer>, j: nat)
    requires LayerItem(src, i, b, s).Done?
    ensures ClipsLayerAt(want, j, s) ==> ClipsLayerAt(want, j, LayerItem(src, i, b, s).state)
    ensures LayerItem(src, i, b, s).state.len == s.len
  {
    hide DecodeLayer, ClipsLayer;
    if ClipsLayerAt(want, j, s) && i == j {
      DecodeLayerKeeps(src, b, s.cells[i], want[j]);
    }
  }

  lemma ZeroLayer(want: Layer)
    ensures ClipsLayer(want, ZERO_LAYER) <==> !LayerFits(want)
  {
  }

  lemma ResizeLayers(want: seq<Layer>, i: nat, s: Slice<Layer>, n: nat)
    requires ClipsLayerAt(want, i, s)
    ensures ClipsLayerAt(want, i, Resize(s, n, ZERO_LAYER))
  {
    hide ClipsLayer, LayerFits;
    ZeroLayer(want[i]);
  }

  lemma InfoFieldKeeps(src: Source, k: Bytes, b: Bytes, s: Slice<Layer>, want: seq<Layer>, j: nat)
    requires InfoField(src, k, b, s).Done?
    ensures ClipsLayerAt(want, j, s) ==> ClipsLayerAt(want, j, InfoField(src, k, b, s).state)
    ensures s.len < LENGTHS || InfoTag(k) == Layers ==> InfoField(src, k, b, s).state.len < LENGTHS
  {
    hide LayerItem, ReadArrayHeader, ClipsLayerAt, Items, Resize, Skip;
    if InfoTag(k) == Layers {
      var h := ReadArrayHeader(b);
      CountShort(b);
      LayerItemsKeep(src, 0, h.value, h.rest, Resize(s, h.value, ZERO_LAYER), want, j);
      if ClipsLayerAt(want, j, s) {
        ResizeLayers(want, j, s, h.value);
      }
      ResizeLength(s, h.value, ZERO_LAYER);
    }
  }

  lemma ResizeLength<T>(s: Slice<T>, n: nat, zero: T)
    ensures Resize(s, n, zero).len == n <= |Resize(s, n, zero).cells|
  {
  }

  lemma LayerItemsKeep(src: Source, i: nat, n: nat, b: Bytes, s: Slice<Layer>, want: seq<Layer>, j: nat)
    requires i <= n && Items(i, n, b, s, LayerItemOf(src)).Done?
    ensures ClipsLayerAt(want, j, s) ==> ClipsLayerAt(want, j, Items(i, n, b, s, LayerItemOf(src)).state)
    ensures Items(i, n, b, s, LayerItemOf(src)).state.len == s.len
  {
    hide LayerItem, ClipsLayerAt, Items;
    forall h: nat, c: Bytes, t: Slice<Layer> | LayerItem(src, h, c, t).Done?
      ensures ClipsLayerAt(want, j, t) ==> ClipsLayerAt(want, j, LayerItem(src, h, c, t).state)
      ensures LayerItem(src, h, c, t).state.len == t.len
    {
      LayerItemKeeps(src, h, c, t, want, j);
    }
    ItemsKeep(i, n, b, s, LayerItemOf(src), (t: Slice<Layer>) => t.len == s.len);
    if ClipsLayerAt(want, j, s) {
      ItemsKeep(i, n, b, s, LayerItemOf(src), (t: Slice<Layer>) => ClipsLayerAt(want, j, t));
    }
  }

  lemma DecodeInfoKeeps(src: Source, b: Bytes, s: Slice<Layer>, want: seq<Layer>, j: nat)
    requires DecodeInfo(src, b, s).Done?
    ensures ClipsLayerAt(want, j, s) ==> ClipsLayerAt(want, j, DecodeInfo(src, b, s).state)
    ensures s.len < LENGTHS ==> DecodeInfo(src, b, s).state.len < LENGTHS
  {
    hide InfoField, ReadMapHeader, ClipsLayerAt, Fields;
    forall k: Bytes, c: Bytes, t: Slice<Layer> | InfoField(src, k, c, t).Done?
      ensures ClipsLayerAt(want, j, t) ==> ClipsLayerAt(want, j, InfoField(src, k, c, t).state)
      ensures t.len < LENGTHS ==> InfoField(src, k, c, t).state.len < LENGTHS
    {
      InfoFieldKeeps(src, k, c, t, want, j);
    }
    var h := ReadMapHeader(b);
    if s.len < LENGTHS {
      FieldsKeep(src, h.value, h.rest, s, InfoFieldOf(src), (t: Slice<Layer>) => t.len < LENGTHS);
    }
    if ClipsLayerAt(want, j, s) {
      FieldsKeep(src, h.value, h.rest, s, InfoFieldOf(src), (t: Slice<Layer>) => ClipsLayerAt(want, j, t));
    }
  }

  /** All binds that are read are short, and there are not too many. */
  lemma {:induction false} BindItemsShort(i: nat, n: nat, b: Bytes, s: Slice<Bytes>)
    requires i <= n <= |s.cells| && Items(i, n, b, s, BindItem).Done?
    ensures
      var t := Items(i, n, b, s, BindItem).state;
      && t.len == s.len && |t.cells| == |s.cells|
      && (forall j :: i <= j < n ==> |t.cells[j]| < LENGTHS)
      && (forall j :: 0 <= j < |s.cells| && !(i <= j < n) ==> t.cells[j] == s.cells[j])
    decreases n - i
  {
    hide ReadString;
    if i < n {
      StringShort(b);
      var d := BindItem(i, b, s);
      BindItemsShort(i + 1, n, d.rest, d.state);
    }
  }

  lemma BindsKeep(b: Bytes, s: Slice<Bytes>, want: seq<Bytes>, j: nat)
    requires DecodeBinds(b, s).Done?
    ensures DecodeBinds(b, s).state.len < LENGTHS
    ensures ClipsBindAt(want, j, s) ==> ClipsBindAt(want, j, DecodeBinds(b, s).state)
    ensures j < |want| && |want[j]| >= LENGTHS && j < ReadArrayHeader(b).value ==> ClipsBindAt(want, j, DecodeBinds(b, s).state)
  {
    hide ReadArrayHeader, Items;
    CountShort(b);
    var h := ReadArrayHeader(b);
    BindItemsShort(0, h.value, h.rest, Resize(s, h.value, []));
  }

  lemma VolumeFieldKeeps(src: Source, k: Bytes, b: Bytes, x: VolumeMem, want: VolumeValue)
    requires VolumeField(src, k, b, x).Done?
    ensures Tidier(x.store, VolumeField(src, k, b, x).state.store)
    ensures ClipsVolume(want, x) ==> ClipsVolume(want, VolumeField(src, k, b, x).state)
  {
    hide ReadString, StringMap, SetMap, Skip, MapFits;
    StringShort(b);
    if VolumeTag(k) == Properties {
      var c := StringMapFits(b, Slot(x.v.properties, x.store));
      SetMapTidies(x.v.properties, c, x.store);
    }
  }

  lemma DecodeVolumeKeeps(src: Source, b: Bytes, x: VolumeMem, want: VolumeValue)
    requires DecodeVolume(src, b, x).Done?
    ensures Tidier(x.store, DecodeVolume(src, b, x).state.store)
    ensures ClipsVolume(want, x) ==> ClipsVolume(want, DecodeVolume(src, b, x).state)
  {
    assert Tidier(x.store, x.store);
    hide VolumeField, ReadMapHeader, ClipsVolume, Fields, Tidier;
    forall k: Bytes, c: Bytes, t: VolumeMem | VolumeField(src, k, c, t).Done?
      ensures Tidier(x.store, t.store) ==> Tidier(x.store, VolumeField(src, k, c, t).state.store)
      ensures ClipsVolume(want, t) ==> ClipsVolume(want, VolumeField(src, k, c, t).state)
    {
      VolumeFieldKeeps(src, k, c, t, want);
      if Tidier(x.store, t.store) {
        TidierYet(x.store, t.store, VolumeField(src, k, c, t).state.store);
      }
    }
    var h := ReadMapHeader(b);
    FieldsKeep(src, h.value, h.rest, x, VolumeFieldOf(src), (t: VolumeMem) => Tidier(x.store, t.store));
    if ClipsVolume(want, x) {
      FieldsKeep(src, h.value, h.rest, x, VolumeFieldOf(src), (t: VolumeMem) => ClipsVolume(want, t));
    }
  }

  lemma TidierKeeps(p: ProfileValue, s: Mem, store: Store, at: Spot)
    requires Clipped(p, s, at) && Tidier(s.store, store)
    ensures Clipped(p, s.(store := store), at)
  {
    hide MapFits, Lookup;
  }

  lemma VolumeItemKeeps(src: Source, i: nat, b: Bytes, s: Mem, p: ProfileValue, at: Spot)
    requires VolumeItem(src, i, b, s).Done? && Clipped(p, s, at)
    ensures Clipped(p, VolumeItem(src, i, b, s).state, at)
  {
    var x := VolumeMem(s.z.extraVolumes.cells[i], s.store);
    var d := DecodeVolume(src, b, x);
    hide DecodeVolume, Tidier, ClipsVolume, MapFits, Lookup;
    DecodeVolumeKeeps(src, b, x, if at.AtVolume? then p.extraVolumes[at.i] else VolumeValue([], map[]));
    TidierKeeps(p, s, d.state.store, at);
  }

  lemma ZeroVolume(want: VolumeValue, store: Store)
    ensures ClipsVolume(want, VolumeMem(ZERO_VOLUME, store)) <==> !VolumeValueFits(want)
  {
  }

  lemma ResizeVolumesKeeps(s: Mem, n: nat, p: ProfileValue, at: Spot)
    requires Clipped(p, s, at) && n < LENGTHS
    ensures Clipped(p, ResizeVolumes(s, n), at)
  {
    hide ClipsVolume, VolumeValueFits, MapFits, Lookup;
    if at.AtVolume? {
      ZeroVolume(p.extraVolumes[at.i], s.store);
    }
  }

  lemma VolumeItemsKeep(src: Source, i: nat, n: nat, b: Bytes, s: Mem, p: ProfileValue, at: Spot)
    requires i <= n && Items(i, n, b, s, VolumeItemOf(src)).Done? && Clipped(p, s, at)
    ensures Clipped(p, Items(i, n, b, s, VolumeItemOf(src)).state, at)
  {
    hide VolumeItem, Clipped, Items;
    forall j: nat, c: Bytes, t: Mem | Clipped(p, t, at) && VolumeItem(src, j, c, t).Done?
      ensures Clipped(p, VolumeItem(src, j, c, t).state, at)
    {
      VolumeItemKeeps(src, j, c, t, p, at);
    }
    ItemsKeep(i, n, b, s, VolumeItemOf(src), (t: Mem) => Clipped(p, t, at));
  }

  lemma DecodeVolumesKeeps(src: Source, b: Bytes, s: Mem, p: ProfileValue, at: Spot)
    requires DecodeVolumes(src, b, s).Done? && Clipped(p, s, at)
    ensures Clipped(p, DecodeVolumes(src, b, s).state, at)
  {
    hide VolumeItemOf, Clipped, Items, ResizeVolumes, ReadArrayHeader;
    CountShort(b);
    var h := ReadArrayHeader(b);
    ResizeVolumesKeeps(s, h.value, p, at);
    VolumeItemsKeep(src, 0, h.value, h.rest, ResizeVolumes(s, h.value), p, at);
  }

  lemma DecodeMapKeeps(t: Tag, b: Bytes, s: Mem, p: ProfileValue, at: Spot)
    requires t in {Network, Container, Volume} && DecodeMapAt(t, b, s).Done? && Clipped(p, s, at)
    ensures Clipped(p, DecodeMapAt(t, b, s).state, at)
  {
    hide StringMap, SetMap, MapFits, Lookup, Tidier;
    var c := StringMapFits(b, Slot(MapAt(t, s.z), s.store));
    SetMapTidies(MapAt(t, s.z), c, s.store);
    TidierKeeps(p, s, SetMap(MapAt(t, s.z), c, s.store).store, at);
  }

  lemma InfoKeeps(src: Source, b: Bytes, s: Mem, p: ProfileValue, at: Spot)
    requires DecodeInfo(src, b, s.z.layers).Done? && Clipped(p, s, at)
    ensures Clipped(p, s.(z := s.z.(layers := DecodeInfo(src, b, s.z.layers).state)), at)
  {
    hide DecodeInfo, ClipsLayer, LayerFits, MapFits, Lookup, ClipsVolume;
    DecodeInfoKeeps(src, b, s.z.layers, p.layers, if at.AtLayer? then at.i else 0);
  }

  lemma BindsFieldKeeps(b: Bytes, s: Mem, p: ProfileValue, at: Spot)
    requires DecodeBinds(b, s.z.binds).Done? && Clipped(p, s, at)
    ensures Clipped(p, s.(z := s.z.(binds := DecodeBinds(b, s.z.binds).state)), at)
  {
    hide DecodeBinds, ClipsLayer, LayerFits, MapFits, Lookup, ClipsVolume;
    BindsKeep(b, s.z.binds, p.binds, if at.AtBind? then at.i else 0);
  }

  lemma StringKeeps(t: Tag, s: Mem, v: Bytes, p: ProfileValue, at: Spot)
    requires |v| < LENGTHS && Clipped(p, s, at)
    ensures Clipped(p, SetString(t, s, v), at)
  {
    hide ClipsLayer, LayerFits, MapFits, Lookup, ClipsVolume;
  }

  lemma ProfileFieldKeeps(src: Source, k: Bytes, b: Bytes, s: Mem, p: ProfileValue, at: Spot)
    requires ProfileField(src, k, b, s).Done? && Clipped(p, s, at)
    ensures Clipped(p, ProfileField(src, k, b, s).state, at)
  {
    hide Clipped, ProfileTag, DecodeInfo, DecodeBinds, DecodeVolumes, DecodeMapAt, Skip, SetString, ReadString;
    match ProfileTag(k)
    case Unknown =>
    case Network => DecodeMapKeeps(Network, b, s, p, at);
    case Container => DecodeMapKeeps(Container, b, s, p, at);
    case Volume => DecodeMapKeeps(Volume, b, s, p, at);
    case ExtendedInfo => InfoKeeps(src, b, s, p, at);
    case Binds => BindsFieldKeeps(b, s, p, at);
    case ExtraVolumes => DecodeVolumesKeeps(src, b, s, p, at);
    case _ =>
      StringShort(b);
      StringKeeps(ProfileTag(k), s, ReadString(b).value, p, at);
  }

  ghost function ClippedOf(p: ProfileValue, at: Spot): Mem -> bool { (t: Mem) => Clipped(p, t, at) }

  lemma ProfileKeeps(src: Source, p: ProfileValue, at: Spot)
    ensures Keeps(ProfileFieldOf(src), ClippedOf(p, at))
  {
    hide ProfileField, Clipped;
    forall k: Bytes, c: Bytes, t: Mem | Clipped(p, t, at) && ProfileField(src, k, c, t).Done?
      ensures Clipped(p, ProfileField(src, k, c, t).state, at)
    {
      ProfileFieldKeeps(src, k, c, t, p, at);
    }
  }

  // ------------------------------------- the first length too long is reached

  /** Fields as the encoder prints them: name, bytes of the value, and the tree they print if everything fits. */
  datatype Parts = End | Part(key: Bytes, val: Bytes, tree: Msg, next: Parts)

  function Count(ps: Parts): nat { if ps.End? then 0 else 1 + Count(ps.next) }

  function PartsBytes(ps: Parts): Bytes {
    if ps.End? then [] else StrBytes(ps.key) + ps.val + PartsBytes(ps.next)
  }

  lemma NameRead(stream: bool, k: Bytes, rest: Bytes)
    requires 0 < |k| < LENGTHS
    ensures ReadMapKey(stream, StrBytes(k) + rest) == Ok(k, rest)
  {
    StrTreeEnc(k);
    ReadMapKeyEnc(stream, StrTree(k), rest);
  }

  lemma PartRead<S>(src: Source, ps: Parts, rest: Bytes, s: S, f: (Bytes, Bytes, S) -> Dec<S>)
    requires ps.Part? && 0 < |ps.key| < LENGTHS && Fields(src, Count(ps), PartsBytes(ps) + rest, s, f).Done?
    ensures
      var d := f(ps.key, ps.val + (PartsBytes(ps.next) + rest), s);
      d.Done? && Fields(src, Count(ps.next), d.rest, d.state, f) == Fields(src, Count(ps), PartsBytes(ps) + rest, s, f)
  {
    var tail := PartsBytes(ps.next) + rest;
    Assoc(StrBytes(ps.key) + ps.val, PartsBytes(ps.next), rest);
    Assoc(StrBytes(ps.key), ps.val, tail);
    NameRead(src.Stream?, ps.key, ps.val + tail);
    hide StrBytes, ReadMapKey;
  }

  /** However this part is read, `inv` holds then. */
  ghost predicate Establishes<S(!new)>(k: Bytes, v: Bytes, f: (Bytes, Bytes, S) -> Dec<S>, inv: S -> bool) {
    forall more: Bytes, t: S {:trigger f(k, v + more, t)} :: f(k, v + more, t).Done? ==> inv(f(k, v + more, t).state)
  }

  /** After some parts that print trees there is one that establishes `inv`. */
  ghost predicate Leads<S(!new)>(ps: Parts, f: (Bytes, Bytes, S) -> Dec<S>, inv: S -> bool) {
    && ps.Part? && 0 < |ps.key| < LENGTHS
    && (Establishes(ps.key, ps.val, f, inv) || (WellFormed(ps.tree) && Enc(ps.tree) == ps.val && Leads(ps.next, f, inv)))
  }

  /** A decoder that succeeds gets past the trees, so it gets to the part that matters. */
  lemma {:induction false} GetsThere<S(!new)>(
    src: Source, ps: Parts, rest: Bytes, s: S,
    f: (Bytes, Bytes, S) -> Dec<S>, g: (Bytes, Msg, S) -> Out<S>, p: FieldPass, inv: S -> bool)
    requires FieldRefines(f, g, p) && Keeps(f, inv) && Leads(ps, f, inv)
    requires Fields(src, Count(ps), PartsBytes(ps) + rest, s, f).Done?
    ensures inv(Fields(src, Count(ps), PartsBytes(ps) + rest, s, f).state)
    decreases ps
  {
    hide Fields, PartsBytes, FieldRefines, Enc, WellFormed, Count;
    PartRead(src, ps, rest, s, f);
    var tail := PartsBytes(ps.next) + rest;
    var d := f(ps.key, ps.val + tail, s);
    if Establishes(ps.key, ps.val, f, inv) {
      FieldsKeep(src, Count(ps.next), d.rest, d.state, f, inv);
    } else {
      FieldFollows(ps.key, ps.tree, s, tail, f, g, p);
      GetsThere(src, ps.next, rest, d.state, f, g, p, inv);
    }
  }

  /** So do the items before item `|ms|`. */
  lemma {:induction false} ItemReached<S(!new)>(
    i: nat, n: nat, ms: seq<Msg>, b: Bytes, s: S,
    f: (nat, Bytes, S) -> Dec<S>, g: (nat, Msg, S) -> Out<S>, p: (Msg, nat) -> bool)
    returns (t: S)
    requires i + |ms| <= n && ItemRefines(f, g, p)
    requires forall j :: 0 <= j < |ms| ==> WellFormed(ms[j])
    requires Items(i, n, EncItems(ms) + b, s, f).Done?
    ensures Items(i + |ms|, n, b, t, f) == Items(i, n, EncItems(ms) + b, s, f)
    decreases |ms|
  {
    if |ms| == 0 {
      assert EncItems(ms) + b == b;
      t := s;
    } else {
      var tail := EncItems(ms[1..]) + b;
      Assoc(Enc(ms[0]), EncItems(ms[1..]), b);
      var d := f(i, Enc(ms[0]) + tail, s);
      assert Follows(p(ms[0], |tail|), d, g(i, ms[0], s), tail);
      t := ItemReached(i + 1, n, ms[1..], b, d.state, f, g, p);
    }
  }

  function LayerParts(l: Layer): Parts {
    Part(DIGEST, StrBytes(l.digest), StrTree(l.digest),
    Part(DIGEST_TYPE, StrBytes(l.digestType), StrTree(l.digestType),
    Part(SIZE, UintBytes(l.size), UintTree(l.size),
    Part(TORRENT_ID, StrBytes(l.torrentId), StrTree(l.torrentId), End))))
  }

  lemma PartThen(k: Bytes, v: Bytes, m: Msg, ps: Parts)
    ensures PartsBytes(Part(k, v, m, ps)) == StrBytes(k) + v + PartsBytes(ps) && Count(Part(k, v, m, ps)) == 1 + Count(ps)
  {
  }

  lemma LastPart(k: Bytes, v: Bytes, m: Msg)
    ensures PartsBytes(Part(k, v, m, End)) == StrBytes(k) + v && Count(Part(k, v, m, End)) == 1
  {
    hide StrBytes;
    assert PartsBytes(Part(k, v, m, End)) == StrBytes(k) + v + PartsBytes(End);
    assert StrBytes(k) + v + [] == StrBytes(k) + v;
  }

  lemma LayerPartsBytes(l: Layer)
    ensures LayerBytes(l) == [0x84] + PartsBytes(LayerParts(l)) && Count(LayerParts(l)) == 4
  {
    hide StrBytes, UintBytes, StrTree, UintTree, PartsBytes, Count;
    var p1 := LayerParts(l);
    var p2 := p1.next;
    var p3 := p2.next;
    PartThen(p1.key, p1.val, p1.tree, p2);
    PartThen(p2.key, p2.val, p2.tree, p3);
    PartThen(p3.key, p3.val, p3.tree, p3.next);
    LastPart(p3.next.key, p3.next.val, p3.next.tree);
  }

  lemma ShortMapHeader(n: nat, rest: Bytes)
    requires n < 16
    ensures ReadMapHeader([0x80 + n] + rest) == Ok(n, rest)
  {
  }

  lemma LayerTags()
    ensures LayerTag(DIGEST) == Digest && LayerTag(DIGEST_TYPE) == DigestType
    ensures LayerTag(SIZE) == Size && LayerTag(TORRENT_ID) == TorrentId
  {
  }

  /** A component of the layer that does not fit is not what is read for it. */
  lemma LayerFieldClips(src: Source, k: Bytes, c: Bytes, t: Layer, l: Layer)
    requires LayerField(src, k, c, t).Done?
    requires match LayerTag(k)
      case Digest => |l.digest| >= LENGTHS
      case DigestType => |l.digestType| >= LENGTHS
      case Size => l.size >= UINTS
      case TorrentId => |l.torrentId| >= LENGTHS
      case _ => false
    ensures ClipsLayer(l, LayerField(src, k, c, t).state)
  {
    hide ReadString, ReadUint, LayerTag, Skip;
    StringShort(c);
    UintShort(c);
  }

  lemma LayerEstablishes(src: Source, k: Bytes, v: Bytes, l: Layer)
    requires match LayerTag(k)
      case Digest => |l.digest| >= LENGTHS
      case DigestType => |l.digestType| >= LENGTHS
      case Size => l.size >= UINTS
      case TorrentId => |l.torrentId| >= LENGTHS
      case _ => false
    ensures Establishes(k, v, LayerFieldOf(src), ClipsLayerOf(l))
  {
    hide LayerField, ClipsLayer, LayerTag;
    forall more: Bytes, t: Layer | LayerField(src, k, v + more, t).Done?
      ensures ClipsLayer(l, LayerField(src, k, v + more, t).state)
    {
      LayerFieldClips(src, k, v + more, t, l);
    }
  }

  /** One more part in front: it prints a tree, or it is the one. */
  lemma LeadsOn<S(!new)>(ps: Parts, f: (Bytes, Bytes, S) -> Dec<S>, inv: S -> bool)
    requires ps.Part? && 0 < |ps.key| < LENGTHS
    requires Establishes(ps.key, ps.val, f, inv) || (WellFormed(ps.tree) && Enc(ps.tree) == ps.val && Leads(ps.next, f, inv))
    ensures Leads(ps, f, inv)
  {
  }

  lemma LayerLeads(src: Source, l: Layer)
    requires !LayerFits(l)
    ensures Leads(LayerParts(l), LayerFieldOf(src), ClipsLayerOf(l))
  {
    LayerTags();
    hide StrBytes, UintBytes, StrTree, UintTree, LayerTag, Leads, Establishes, Enc, WellFormed, LayerFieldOf, ClipsLayerOf;
    var p1 := LayerParts(l);
    var p2 := p1.next;
    var p3 := p2.next;
    var p4 := p3.next;
    var f, inv := LayerFieldOf(src), ClipsLayerOf(l);
    if |l.torrentId| >= LENGTHS {
      LayerEstablishes(src, p4.key, p4.val, l);
      LeadsOn(p4, f, inv);
    }
    if l.size >= UINTS { LayerEstablishes(src, p3.key, p3.val, l); } else { UintTreeEnc(l.size); }
    if l.size >= UINTS || |l.torrentId| >= LENGTHS { LeadsOn(p3, f, inv); }
    if |l.digestType| >= LENGTHS { LayerEstablishes(src, p2.key, p2.val, l); } else { StrTreeEnc(l.digestType); }
    if |l.digestType| >= LENGTHS || l.size >= UINTS || |l.torrentId| >= LENGTHS { LeadsOn(p2, f, inv); }
    if |l.digest| >= LENGTHS { LayerEstablishes(src, p1.key, p1.val, l); } else { StrTreeEnc(l.digest); }
    LeadsOn(p1, f, inv);
  }

  /** A layer that does not fit is not what is read back. */
  lemma LayerClips(src: Source, l: Layer, rest: Bytes, z: Layer)
    requires !LayerFits(l) && DecodeLayer(src, LayerBytes(l) + rest, z).Done?
    ensures ClipsLayer(l, DecodeLayer(src, LayerBytes(l) + rest, z).state)
  {
    hide LayerBytes, LayerParts, Fields, PartsBytes, Count, ReadMapHeader, FieldRefines, Keeps, Leads, LayerFits, LayerFieldOf;
    var ps := LayerParts(l);
    LayerPartsBytes(l);
    Assoc([0x84], PartsBytes(ps), rest);
    ShortMapHeader(4, PartsBytes(ps) + rest);
    LayerFieldRefines(src);
    LayerKeeps(src, l);
    LayerLeads(src, l);
    GetsThere(src, ps, rest, z, LayerFieldOf(src), LayerFieldT, LayerFieldPassOf(src), ClipsLayerOf(l));
  }

  lemma {:induction false} LayersSplit(ls: seq<Layer>, i: nat)
    requires i < |ls|
    ensures LayersBytes(ls) == LayersBytes(ls[..i]) + (LayerBytes(ls[i]) + LayersBytes(ls[i + 1..]))
    decreases i
  {
    hide LayerBytes;
    if i == 0 {
      assert LayersBytes(ls[..0]) == [];
    } else {
      LayersSplit(ls[1..], i - 1);
      assert ls[1..][..i - 1] == ls[..i][1..] && ls[1..][i..] == ls[i + 1..];
      Assoc(LayerBytes(ls[0]), LayersBytes(ls[..i][1..]), LayerBytes(ls[i]) + LayersBytes(ls[i + 1..]));
    }
  }

  lemma LayerItemClips(src: Source, i: nat, ls: seq<Layer>, rest: Bytes, s: Slice<Layer>)
    requires i < |ls| && !LayerFits(ls[i]) && LayerItem(src, i, LayerBytes(ls[i]) + rest, s).Done?
    ensures ClipsLayerAt(ls, i, LayerItem(src, i, LayerBytes(ls[i]) + rest, s).state)
  {
    hide DecodeLayer, LayerBytes, ClipsLayer;
    LayerClips(src, ls[i], rest, s.cells[i]);
  }

  /** Of the layers the first that does not fit is reached, and clipped. */
  lemma LayersClip(src: Source, ls: seq<Layer>, i: nat, rest: Bytes, s: Slice<Layer>)
    requires i < |ls| && !LayerFits(ls[i]) && forall j :: 0 <= j < i ==> LayerFits(ls[j])
    requires Items(0, |ls|, LayersBytes(ls) + rest, s, LayerItemOf(src)).Done?
    ensures ClipsLayerAt(ls, i, Items(0, |ls|, LayersBytes(ls) + rest, s, LayerItemOf(src)).state)
  {
    hide LayersBytes, LayerBytes, LayerFits, LayerItem, ClipsLayerAt, ItemRefines, WellFormed, EncItems, LayerTrees;
    var more := LayersBytes(ls[i + 1..]) + rest;
    LayersSplit(ls, i);
    LayerTreesEnc(ls[..i]);
    var ms := LayerTrees(ls[..i]);
    Assoc(LayersBytes(ls[..i]), LayerBytes(ls[i]) + LayersBytes(ls[i + 1..]), rest);
    Assoc(LayerBytes(ls[i]), LayersBytes(ls[i + 1..]), rest);
    LayerItemRefines(src);
    var t := ItemReached(0, |ls|, ms, LayerBytes(ls[i]) + more, s, LayerItemOf(src), LayerItemTOf(src.Stream?), LayerPassOf(src));
    LayerItemClips(src, i, ls, more, t);
    var d := LayerItem(src, i, LayerBytes(ls[i]) + more, t);
    LayerItemsKeep(src, i + 1, |ls|, d.rest, d.state, ls, i);
  }

  lemma OneField<S>(src: Source, k: Bytes, b: Bytes, s: S, f: (Bytes, Bytes, S) -> Dec<S>)
    requires 0 < |k| < LENGTHS
    ensures Struct(src, [0x81] + (StrBytes(k) + b), s, f) == f(k, b, s)
  {
    ShortMapHeader(1, StrBytes(k) + b);
    NameRead(src.Stream?, k, b);
    hide StrBytes, ReadMapKey, ReadMapHeader;
    assert Fields(src, 1, StrBytes(k) + b, s, f) == f(k, b, s);
  }

  lemma InfoPrint(ls: seq<Layer>, rest: Bytes)
    ensures InfoBytes(ls) + rest == [0x81] + (StrBytes(LAYERS) + (ArrayHeader(HeadWidth(|ls|), |ls|) + (LayersBytes(ls) + rest)))
  {
    hide StrBytes, LayersBytes, ArrayHeader, HeadWidth;
    var head := ArrayHeader(HeadWidth(|ls|), |ls|);
    Assoc(head, LayersBytes(ls), rest);
    Assoc(StrBytes(LAYERS), head + LayersBytes(ls), rest);
    Assoc([0x81], StrBytes(LAYERS) + (head + LayersBytes(ls)), rest);
  }

  lemma InfoRead(src: Source, ls: seq<Layer>, rest: Bytes, s: Slice<Layer>)
    ensures DecodeInfo(src, InfoBytes(ls) + rest, s) ==
      InfoField(src, LAYERS, ArrayHeader(HeadWidth(|ls|), |ls|) + (LayersBytes(ls) + rest), s)
  {
    hide InfoField, InfoBytes, StrBytes, LayersBytes, ArrayHeader, HeadWidth, Struct;
    InfoPrint(ls, rest);
    OneField(src, LAYERS, ArrayHeader(HeadWidth(|ls|), |ls|) + (LayersBytes(ls) + rest), s, InfoFieldOf(src));
  }

  /** Layers of which one does not fit, or that are too many, are not what is read back. */
  lemma InfoClips(src: Source, ls: seq<Layer>, i: nat, rest: Bytes, s: Slice<Layer>)
    requires DecodeInfo(src, InfoBytes(ls) + rest, s).Done?
    ensures DecodeInfo(src, InfoBytes(ls) + rest, s).state.len < LENGTHS
    ensures |ls| < LENGTHS && i < |ls| && !LayerFits(ls[i]) && (forall j :: 0 <= j < i ==> LayerFits(ls[j])) ==>
      ClipsLayerAt(ls, i, DecodeInfo(src, InfoBytes(ls) + rest, s).state)
  {
    InfoRead(src, ls, rest, s);
    var b := ArrayHeader(HeadWidth(|ls|), |ls|) + (LayersBytes(ls) + rest);
    assert InfoTag(LAYERS) == Layers;
    hide DecodeInfo, InfoBytes, ArrayHeader, HeadWidth, LayersBytes, LayerFits, ClipsLayerAt, ReadArrayHeader, Items, LayerItemOf,
      Resize, InfoTag, Limit;
    InfoFieldKeeps(src, LAYERS, b, s, ls, i);
    if |ls| < LENGTHS && i < |ls| && !LayerFits(ls[i]) && forall j :: 0 <= j < i ==> LayerFits(ls[j]) {
      HeadFits(|ls|);
      ArrayHeaderThen(HeadWidth(|ls|), |ls|, LayersBytes(ls) + rest);
      LayersClip(src, ls, i, rest, Resize(s, |ls|, ZERO_LAYER));
    }
  }

  // ------------------------------------------------------------ extra volumes

  /** A walk and a value fit alike, map by map; so do a profile and each of its walks. */
  ghost predicate VolumeAlike(w: VolumeWalk, v: VolumeValue) {
    w.target == v.target && (OrderFits(w.properties) <==> MapFits(v.properties))
  }

  ghost predicate VolumesAlike(ws: seq<VolumeWalk>, vs: seq<VolumeValue>) {
    |ws| == |vs| && forall i :: 0 <= i < |ws| ==> VolumeAlike(ws[i], vs[i])
  }

  function VolumeParts(w: VolumeWalk): Parts {
    Part(TARGET, StrBytes(w.target), StrTree(w.target),
    Part(PROPERTIES, MapBytes(w.properties), MapTree(w.properties), End))
  }

  lemma VolumePartsBytes(w: VolumeWalk)
    ensures VolumeBytes(w) == [0x82] + PartsBytes(VolumeParts(w)) && Count(VolumeParts(w)) == 2
  {
    hide StrBytes, MapBytes, StrTree, MapTree, PartsBytes, Count;
    var p1 := VolumeParts(w);
    PartThen(p1.key, p1.val, p1.tree, p1.next);
    LastPart(p1.next.key, p1.next.val, p1.next.tree);
  }

  ghost function ClipsVolumeOf(v: VolumeValue): VolumeMem -> bool { (t: VolumeMem) => ClipsVolume(v, t) }

  lemma VolumeKeeps(src: Source, v: VolumeValue)
    ensures Keeps(VolumeFieldOf(src), ClipsVolumeOf(v))
  {
    hide VolumeField, ClipsVolume;
    forall k: Bytes, c: Bytes, t: VolumeMem | ClipsVolume(v, t) && VolumeField(src, k, c, t).Done?
      ensures ClipsVolume(v, VolumeField(src, k, c, t).state)
    {
      VolumeFieldKeeps(src, k, c, t, v);
    }
  }

  lemma VolumeFieldClips(src: Source, k: Bytes, c: Bytes, x: VolumeMem, v: VolumeValue)
    requires VolumeField(src, k, c, x).Done?
    requires match VolumeTag(k)
      case Target => |v.target| >= LENGTHS
      case Properties => !MapFits(v.properties)
      case _ => false
    ensures ClipsVolume(v, VolumeField(src, k, c, x).state)
  {
    hide ReadString, StringMap, SetMap, Skip, MapFits, VolumeTag;
    StringShort(c);
    if VolumeTag(k) == Properties {
      var m := StringMapFits(c, Slot(x.v.properties, x.store));
      SetMapTidies(x.v.properties, m, x.store);
    }
  }

  lemma VolumeEstablishes(src: Source, k: Bytes, b: Bytes, v: VolumeValue)
    requires match VolumeTag(k)
      case Target => |v.target| >= LENGTHS
      case Properties => !MapFits(v.properties)
      case _ => false
    ensures Establishes(k, b, VolumeFieldOf(src), ClipsVolumeOf(v))
  {
    hide VolumeField, ClipsVolume, VolumeTag, MapFits;
    forall more: Bytes, t: VolumeMem | VolumeField(src, k, b + more, t).Done?
      ensures ClipsVolume(v, VolumeField(src, k, b + more, t).state)
    {
      VolumeFieldClips(src, k, b + more, t, v);
    }
  }

  lemma VolumeTags()
    ensures VolumeTag(TARGET) == Target && VolumeTag(PROPERTIES) == Properties
  {
  }

  lemma VolumeLeads(src: Source, w: VolumeWalk, v: VolumeValue)
    requires VolumeAlike(w, v) && !VolumeFits(w)
    ensures Leads(VolumeParts(w), VolumeFieldOf(src), ClipsVolumeOf(v))
  {
    VolumeTags();
    hide StrBytes, MapBytes, StrTree, MapTree, VolumeTag, Leads, Establishes, Enc, WellFormed, VolumeFieldOf, ClipsVolumeOf,
      OrderFits, MapFits;
    var p1 := VolumeParts(w);
    var f, inv := VolumeFieldOf(src), ClipsVolumeOf(v);
    if !OrderFits(w.properties) {
      VolumeEstablishes(src, p1.next.key, p1.next.val, v);
      LeadsOn(p1.next, f, inv);
    }
    if |w.target| >= LENGTHS { VolumeEstablishes(src, p1.key, p1.val, v); } else { StrTreeEnc(w.target); }
    LeadsOn(p1, f, inv);
  }

  /** A volume that does not fit is not what is read back. */
  lemma VolumeClips(src: Source, w: VolumeWalk, v: VolumeValue, rest: Bytes, x: VolumeMem)
    requires VolumeAlike(w, v) && !VolumeFits(w) && DecodeVolume(src, VolumeBytes(w) + rest, x).Done?
    ensures ClipsVolume(v, DecodeVolume(src, VolumeBytes(w) + rest, x).state)
  {
    hide VolumeBytes, VolumeParts, Fields, PartsBytes, Count, ReadMapHeader, FieldRefines, Keeps, Leads, VolumeFits, VolumeFieldOf,
      VolumeAlike;
    var ps := VolumeParts(w);
    VolumePartsBytes(w);
    Assoc([0x82], PartsBytes(ps), rest);
    ShortMapHeader(2, PartsBytes(ps) + rest);
    VolumeFieldRefines(src);
    VolumeKeeps(src, v);
    VolumeLeads(src, w, v);
    GetsThere(src, ps, rest, x, VolumeFieldOf(src), VolumeFieldT, VolumeFieldPassOf(src), ClipsVolumeOf(v));
  }

  lemma {:induction false} VolumesSplit(ws: seq<VolumeWalk>, i: nat)
    requires i < |ws|
    ensures VolumesBytes(ws) == VolumesBytes(ws[..i]) + (VolumeBytes(ws[i]) + VolumesBytes(ws[i + 1..]))
    decreases i
  {
    hide VolumeBytes;
    if i == 0 {
      assert VolumesBytes(ws[..0]) == [];
    } else {
      VolumesSplit(ws[1..], i - 1);
      assert ws[1..][..i - 1] == ws[..i][1..] && ws[1..][i..] == ws[i + 1..];
      Assoc(VolumeBytes(ws[0]), VolumesBytes(ws[..i][1..]), VolumeBytes(ws[i]) + VolumesBytes(ws[i + 1..]));
    }
  }

  lemma VolumeItemClips(src: Source, i: nat, w: VolumeWalk, p: ProfileValue, rest: Bytes, s: Mem)
    requires i < |p.extraVolumes| && VolumeAlike(w, p.extraVolumes[i]) && !VolumeFits(w)
    requires VolumeItem(src, i, VolumeBytes(w) + rest, s).Done?
    ensures Clipped(p, VolumeItem(src, i, VolumeBytes(w) + rest, s).state, AtVolume(i))
  {
    hide DecodeVolume, VolumeBytes, ClipsVolume, OrderFits, MapFits;
    VolumeClips(src, w, p.extraVolumes[i], rest, VolumeMem(s.z.extraVolumes.cells[i], s.store));
  }

  lemma VolumeItemsClip(src: Source, ws: seq<VolumeWalk>, i: nat, p: ProfileValue, rest: Bytes, s: Mem)
    requires VolumesAlike(ws, p.extraVolumes)
    requires i < |ws| && !VolumeFits(ws[i]) && forall j :: 0 <= j < i ==> VolumeFits(ws[j])
    requires Items(0, |ws|, VolumesBytes(ws) + rest, s, VolumeItemOf(src)).Done?
    ensures Clipped(p, Items(0, |ws|, VolumesBytes(ws) + rest, s, VolumeItemOf(src)).state, AtVolume(i))
  {
    hide VolumesBytes, VolumeBytes, VolumeFits, VolumeItem, Clipped, ItemRefines, WellFormed, EncItems, VolumeTrees, VolumeAlike;
    var more := VolumesBytes(ws[i + 1..]) + rest;
    VolumesSplit(ws, i);
    VolumeTreesEnc(ws[..i]);
    Assoc(VolumesBytes(ws[..i]), VolumeBytes(ws[i]) + VolumesBytes(ws[i + 1..]), rest);
    Assoc(VolumeBytes(ws[i]), VolumesBytes(ws[i + 1..]), rest);
    VolumeItemRefines(src);
    var t := ItemReached(0, |ws|, VolumeTrees(ws[..i]), VolumeBytes(ws[i]) + more, s,
                         VolumeItemOf(src), VolumeItemTOf(src.Stream?), VolumePassOf(src));
    assert VolumeAlike(ws[i], p.extraVolumes[i]);
    VolumeItemClips(src, i, ws[i], p, more, t);
    var d := VolumeItem(src, i, VolumeBytes(ws[i]) + more, t);
    VolumeItemsKeep(src, i + 1, |ws|, d.rest, d.state, p, AtVolume(i));
  }

  // ------------------------------------------------------------ whole profiles

  /** Value and walk agree on what fits, as they do if the walk is one of the value. */
  ghost predicate Alike(e: Walk, p: ProfileValue) {
    && e.registry == p.registry && e.repository == p.repository && e.networkMode == p.networkMode && e.cwd == p.cwd
    && e.layers == p.layers && e.binds == p.binds
    && (OrderFits(e.network) <==> MapFits(p.network)) && (OrderFits(e.container) <==> MapFits(p.container))
    && (OrderFits(e.volume) <==> MapFits(p.volume)) && VolumesAlike(e.extraVolumes, p.extraVolumes)
  }

  predicate LayersFit(ls: seq<Layer>) { |ls| < LENGTHS && forall i :: 0 <= i < |ls| ==> LayerFits(ls[i]) }

  predicate BindsFit(ss: seq<Bytes>) { |ss| < LENGTHS && forall i :: 0 <= i < |ss| ==> |ss[i]| < LENGTHS }

  predicate VolumesFit(ws: seq<VolumeWalk>) { |ws| < LENGTHS && forall i :: 0 <= i < |ws| ==> VolumeFits(ws[i]) }

  /** The fields in the order they are printed. */
  function TagAt(k: nat): Tag {
    if k == 0 then Registry else if k == 1 then Repository else if k == 2 then NetworkMode else if k == 3 then Network
    else if k == 4 then ExtendedInfo else if k == 5 then Cwd else if k == 6 then Binds else if k == 7 then Container
    else if k == 8 then Volume else ExtraVolumes
  }

  function NameOf(t: Tag): (k: Bytes)
    ensures 0 < |k| < LENGTHS
  {
    match t
    case Registry => REGISTRY
    case Repository => REPOSITORY
    case NetworkMode => NETWORK_MODE
    case Network => NETWORK
    case ExtendedInfo => EXTENDED_INFO
    case Cwd => CWD
    case Binds => BINDS
    case Container => CONTAINER
    case Volume => VOLUME
    case _ => EXTRAVOLUMES
  }

  predicate FieldFits(e: Walk, t: Tag) {
    match t
    case Registry => |e.registry| < LENGTHS
    case Repository => |e.repository| < LENGTHS
    case NetworkMode => |e.networkMode| < LENGTHS
    case Network => OrderFits(e.network)
    case ExtendedInfo => LayersFit(e.layers)
    case Cwd => |e.cwd| < LENGTHS
    case Binds => BindsFit(e.binds)
    case Container => OrderFits(e.container)
    case Volume => OrderFits(e.volume)
    case _ => VolumesFit(e.extraVolumes)
  }

  function FieldBytes(e: Walk, t: Tag): Bytes {
    match t
    case Registry => StrBytes(e.registry)
    case Repository => StrBytes(e.repository)
    case NetworkMode => StrBytes(e.networkMode)
    case Network => MapBytes(e.network)
    case ExtendedInfo => InfoBytes(e.layers)
    case Cwd => StrBytes(e.cwd)
    case Binds => ArrayHeader(HeadWidth(|e.binds|), |e.binds|) + StringsBytes(e.binds)
    case Container => MapBytes(e.container)
    case Volume => MapBytes(e.volume)
    case _ => ArrayHeader(HeadWidth(|e.extraVolumes|), |e.extraVolumes|) + VolumesBytes(e.extraVolumes)
  }

  function FieldTree(e: Walk, t: Tag): Msg {
    match t
    case Registry => StrTree(e.registry)
    case Repository => StrTree(e.repository)
    case NetworkMode => StrTree(e.networkMode)
    case Network => MapTree(e.network)
    case ExtendedInfo => InfoTree(e.layers)
    case Cwd => StrTree(e.cwd)
    case Binds => BindsTree(e.binds)
    case Container => MapTree(e.container)
    case Volume => MapTree(e.volume)
    case _ => VolumesTree(e.extraVolumes)
  }

  /** The fields from the `k`th on. */
  function ProfileParts(e: Walk, k: nat): Parts
    decreases 10 - k
  {
    if k >= 10 then End else Part(NameOf(TagAt(k)), FieldBytes(e, TagAt(k)), FieldTree(e, TagAt(k)), ProfileParts(e, k + 1))
  }

  lemma PartsFrom(e: Walk, k: nat, t: Tag)
    requires k < 10 && TagAt(k) == t
    ensures PartsBytes(ProfileParts(e, k)) == StrBytes(NameOf(t)) + FieldBytes(e, t) + PartsBytes(ProfileParts(e, k + 1))
    ensures Count(ProfileParts(e, k)) == 1 + Count(ProfileParts(e, k + 1))
  {
    hide StrBytes, FieldBytes, FieldTree, NameOf;
  }

  lemma LastFrom(e: Walk)
    ensures PartsBytes(ProfileParts(e, 9)) == StrBytes(EXTRAVOLUMES) + FieldBytes(e, ExtraVolumes)
    ensures Count(ProfileParts(e, 9)) == 1
  {
    PartsFrom(e, 9, ExtraVolumes);
    hide StrBytes, FieldBytes;
    assert ProfileParts(e, 10) == End;
    var b := StrBytes(EXTRAVOLUMES) + FieldBytes(e, ExtraVolumes);
    assert b + [] == b;
  }

  lemma FirstParts(e: Walk)
    ensures PartsBytes(ProfileParts(e, 0)) == StrBytes(REGISTRY) + StrBytes(e.registry) + PartsBytes(ProfileParts(e, 1))
    ensures PartsBytes(ProfileParts(e, 1)) == StrBytes(REPOSITORY) + StrBytes(e.repository) + PartsBytes(ProfileParts(e, 2))
    ensures PartsBytes(ProfileParts(e, 2)) == StrBytes(NETWORK_MODE) + StrBytes(e.networkMode) + PartsBytes(ProfileParts(e, 3))
    ensures PartsBytes(ProfileParts(e, 3)) == StrBytes(NETWORK) + MapBytes(e.network) + PartsBytes(ProfileParts(e, 4))
    ensures PartsBytes(ProfileParts(e, 4)) == StrBytes(EXTENDED_INFO) + InfoBytes(e.layers) + PartsBytes(ProfileParts(e, 5))
    ensures Count(ProfileParts(e, 0)) == 5 + Count(ProfileParts(e, 5))
  {
    hide PartsBytes, ProfileParts, Count, StrBytes, MapBytes, InfoBytes;
    PartsFrom(e, 0, Registry);
    PartsFrom(e, 1, Repository);
    PartsFrom(e, 2, NetworkMode);
    PartsFrom(e, 3, Network);
    PartsFrom(e, 4, ExtendedInfo);
  }

  lemma LastParts(e: Walk)
    ensures PartsBytes(ProfileParts(e, 5)) == StrBytes(CWD) + StrBytes(e.cwd) + PartsBytes(ProfileParts(e, 6))
    ensures PartsBytes(ProfileParts(e, 6)) ==
      StrBytes(BINDS) + (ArrayHeader(HeadWidth(|e.binds|), |e.binds|) + StringsBytes(e.binds)) + PartsBytes(ProfileParts(e, 7))
    ensures PartsBytes(ProfileParts(e, 7)) == StrBytes(CONTAINER) + MapBytes(e.container) + PartsBytes(ProfileParts(e, 8))
    ensures PartsBytes(ProfileParts(e, 8)) == StrBytes(VOLUME) + MapBytes(e.volume) + PartsBytes(ProfileParts(e, 9))
    ensures PartsBytes(ProfileParts(e, 9)) ==
      StrBytes(EXTRAVOLUMES) + (ArrayHeader(HeadWidth(|e.extraVolumes|), |e.extraVolumes|) + VolumesBytes(e.extraVolumes))
    ensures Count(ProfileParts(e, 5)) == 5
  {
    hide PartsBytes, ProfileParts, Count, StrBytes, MapBytes, StringsBytes, VolumesBytes, ArrayHeader, HeadWidth;
    PartsFrom(e, 5, Cwd);
    PartsFrom(e, 6, Binds);
    PartsFrom(e, 7, Container);
    PartsFrom(e, 8, Volume);
    LastFrom(e);
  }

  lemma ProfilePartsBytes(e: Walk)
    ensures ProfileBytes(e) == [0x8a] + PartsBytes(ProfileParts(e, 0)) && Count(ProfileParts(e, 0)) == 10
  {
    hide StrBytes, MapBytes, InfoBytes, StringsBytes, VolumesBytes, ArrayHeader, HeadWidth, PartsBytes, Count, ProfileParts;
    FirstParts(e);
    LastParts(e);
  }

  lemma FieldPrints(e: Walk, t: Tag)
    requires FieldFits(e, t)
    ensures WellFormed(FieldTree(e, t)) && Enc(FieldTree(e, t)) == FieldBytes(e, t)
  {
    hide WellFormed, Enc, StrTree, MapTree, InfoTree, StrBytes, MapBytes, InfoBytes, StringsBytes, VolumesBytes, ArrayHeader,
      HeadWidth, StrTrees, VolumeTrees, OrderFits, LayerFits, VolumeFits, EncItems;
    match t
    case Registry => StrTreeEnc(e.registry);
    case Repository => StrTreeEnc(e.repository);
    case NetworkMode => StrTreeEnc(e.networkMode);
    case Network => MapTreeEnc(e.network);
    case ExtendedInfo => InfoTreeEnc(e.layers);
    case Cwd => StrTreeEnc(e.cwd);
    case Binds =>
      StrTreesEnc(e.binds);
      ArrEnc(StrTrees(e.binds));
    case Container => MapTreeEnc(e.container);
    case Volume => MapTreeEnc(e.volume);
    case _ =>
      VolumeTreesEnc(e.extraVolumes);
      ArrEnc(VolumeTrees(e.extraVolumes));
  }

  lemma StringFieldClips(src: Source, k: Bytes, c: Bytes, s: Mem, p: ProfileValue)
    requires var t := ProfileTag(k); t in {Registry, Repository, NetworkMode, Cwd} && |WantedString(t, p)| >= LENGTHS
    requires ProfileField(src, k, c, s).Done?
    ensures Clipped(p, ProfileField(src, k, c, s).state, AtString(ProfileTag(k)))
  {
    hide ProfileTag, ReadString;
    StringShort(c);
  }

  lemma MapFieldClips(src: Source, k: Bytes, c: Bytes, s: Mem, p: ProfileValue)
    requires var t := ProfileTag(k); t in {Network, Container, Volume} && !MapFits(WantedMap(t, p))
    requires ProfileField(src, k, c, s).Done?
    ensures Clipped(p, ProfileField(src, k, c, s).state, AtMap(ProfileTag(k)))
  {
    hide ProfileTag, StringMap, SetMap, MapFits, Lookup;
    var t := ProfileTag(k);
    var m := StringMapFits(c, Slot(MapAt(t, s.z), s.store));
    SetMapTidies(MapAt(t, s.z), m, s.store);
  }

  lemma FirstLayer(ls: seq<Layer>) returns (i: nat)
    requires exists j :: 0 <= j < |ls| && !LayerFits(ls[j])
    ensures i < |ls| && !LayerFits(ls[i]) && forall j :: 0 <= j < i ==> LayerFits(ls[j])
  {
    hide LayerFits;
    i := 0;
    while LayerFits(ls[i])
      invariant i < |ls| && forall j :: 0 <= j < i ==> LayerFits(ls[j])
      decreases |ls| - i
    {
      i := i + 1;
    }
  }

  lemma FirstVolume(ws: seq<VolumeWalk>) returns (i: nat)
    requires exists j :: 0 <= j < |ws| && !VolumeFits(ws[j])
    ensures i < |ws| && !VolumeFits(ws[i]) && forall j :: 0 <= j < i ==> VolumeFits(ws[j])
  {
    hide VolumeFits;
    i := 0;
    while VolumeFits(ws[i])
      invariant i < |ws| && forall j :: 0 <= j < i ==> VolumeFits(ws[j])
      decreases |ws| - i
    {
      i := i + 1;
    }
  }

  lemma InfoFieldClips(src: Source, k: Bytes, ls: seq<Layer>, i: nat, more: Bytes, s: Mem, p: ProfileValue)
    requires ProfileTag(k) == ExtendedInfo && ls == p.layers
    requires |ls| < LENGTHS ==> i < |ls| && !LayerFits(ls[i]) && forall j :: 0 <= j < i ==> LayerFits(ls[j])
    requires ProfileField(src, k, InfoBytes(ls) + more, s).Done?
    ensures Clipped(p, ProfileField(src, k, InfoBytes(ls) + more, s).state, if |ls| < LENGTHS then AtLayer(i) else LayerCount)
  {
    hide ProfileTag, InfoBytes, DecodeInfo, LayerFits, ClipsLayerAt;
    InfoClips(src, ls, i, more, s.z.layers);
  }

  lemma BindsFieldClips(src: Source, k: Bytes, ss: seq<Bytes>, i: nat, more: Bytes, s: Mem, p: ProfileValue)
    requires ProfileTag(k) == Binds && ss == p.binds && (|ss| < LENGTHS ==> i < |ss| && |ss[i]| >= LENGTHS)
    requires ProfileField(src, k, ArrayHeader(HeadWidth(|ss|), |ss|) + StringsBytes(ss) + more, s).Done?
    ensures Clipped(p, ProfileField(src, k, ArrayHeader(HeadWidth(|ss|), |ss|) + StringsBytes(ss) + more, s).state,
                    if |ss| < LENGTHS then AtBind(i) else BindCount)
  {
    hide ProfileTag, StringsBytes, ArrayHeader, HeadWidth, DecodeBinds, ReadArrayHeader, Limit;
    var head := ArrayHeader(HeadWidth(|ss|), |ss|);
    Assoc(head, StringsBytes(ss), more);
    if |ss| < LENGTHS {
      HeadFits(|ss|);
      ArrayHeaderThen(HeadWidth(|ss|), |ss|, StringsBytes(ss) + more);
    }
    BindsKeep(head + StringsBytes(ss) + more, s.z.binds, ss, i);
  }

  lemma VolumesLength(src: Source, b: Bytes, s: Mem)
    requires DecodeVolumes(src, b, s).Done?
    ensures DecodeVolumes(src, b, s).state.z.extraVolumes.len < LENGTHS
  {
    hide Items, VolumeItem, ReadArrayHeader;
    CountShort(b);
    var h := ReadArrayHeader(b);
    forall j: nat, c: Bytes, t: Mem | VolumeItem(src, j, c, t).Done?
      ensures VolumeItem(src, j, c, t).state.z.extraVolumes.len == t.z.extraVolumes.len
    {
      VolumeItemLength(src, j, c, t);
    }
    ItemsKeep(0, h.value, h.rest, ResizeVolumes(s, h.value), VolumeItemOf(src), (t: Mem) => t.z.extraVolumes.len < LENGTHS);
  }

  lemma VolumeItemLength(src: Source, i: nat, b: Bytes, s: Mem)
    requires VolumeItem(src, i, b, s).Done?
    ensures VolumeItem(src, i, b, s).state.z.extraVolumes.len == s.z.extraVolumes.len
  {
    hide DecodeVolume;
  }

  /** Volumes of which one does not fit, or that are too many, are not what is read back. */
  lemma VolumesClip(src: Source, ws: seq<VolumeWalk>, i: nat, more: Bytes, s: Mem, p: ProfileValue)
    requires VolumesAlike(ws, p.extraVolumes)
    requires i < |ws| < LENGTHS && !VolumeFits(ws[i]) && forall j :: 0 <= j < i ==> VolumeFits(ws[j])
    requires DecodeVolumes(src, ArrayHeader(HeadWidth(|ws|), |ws|) + VolumesBytes(ws) + more, s).Done?
    ensures Clipped(p, DecodeVolumes(src, ArrayHeader(HeadWidth(|ws|), |ws|) + VolumesBytes(ws) + more, s).state, AtVolume(i))
  {
    hide VolumesBytes, ArrayHeader, HeadWidth, VolumeFits, VolumesAlike, ReadArrayHeader, Limit, Items, ResizeVolumes, VolumeItemOf,
      Clipped;
    Assoc(ArrayHeader(HeadWidth(|ws|), |ws|), VolumesBytes(ws), more);
    HeadFits(|ws|);
    ArrayHeaderThen(HeadWidth(|ws|), |ws|, VolumesBytes(ws) + more);
    VolumeItemsClip(src, ws, i, p, more, ResizeVolumes(s, |ws|));
  }

  lemma VolumesFieldClips(src: Source, k: Bytes, ws: seq<VolumeWalk>, i: nat, more: Bytes, s: Mem, p: ProfileValue)
    requires ProfileTag(k) == ExtraVolumes && VolumesAlike(ws, p.extraVolumes)
    requires |ws| < LENGTHS ==> i < |ws| && !VolumeFits(ws[i]) && forall j :: 0 <= j < i ==> VolumeFits(ws[j])
    requires ProfileField(src, k, ArrayHeader(HeadWidth(|ws|), |ws|) + VolumesBytes(ws) + more, s).Done?
    ensures Clipped(p, ProfileField(src, k, ArrayHeader(HeadWidth(|ws|), |ws|) + VolumesBytes(ws) + more, s).state,
                    if |ws| < LENGTHS then AtVolume(i) else VolumeCount)
  {
    hide ProfileTag, VolumesBytes, ArrayHeader, HeadWidth, VolumeFits, VolumeAlike, DecodeVolumes, ClipsVolumeAt;
    if |ws| < LENGTHS {
      VolumesClip(src, ws, i, more, s, p);
    } else {
      VolumesLength(src, ArrayHeader(HeadWidth(|ws|), |ws|) + VolumesBytes(ws) + more, s);
    }
  }

  /** A spot of field `t` with something that does not fit, the first one where that matters. */
  ghost predicate IsSpot(e: Walk, t: Tag, at: Spot, i: nat) {
    match t
    case ExtendedInfo =>
      && at == (if |e.layers| < LENGTHS then AtLayer(i) else LayerCount)
      && (|e.layers| < LENGTHS ==> i < |e.layers| && !LayerFits(e.layers[i]) && forall j :: 0 <= j < i ==> LayerFits(e.layers[j]))
    case Binds =>
      && at == (if |e.binds| < LENGTHS then AtBind(i) else BindCount)
      && (|e.binds| < LENGTHS ==> i < |e.binds| && |e.binds[i]| >= LENGTHS)
    case ExtraVolumes =>
      && at == (if |e.extraVolumes| < LENGTHS then AtVolume(i) else VolumeCount)
      && (|e.extraVolumes| < LENGTHS ==>
            i < |e.extraVolumes| && !VolumeFits(e.extraVolumes[i]) && forall j :: 0 <= j < i ==> VolumeFits(e.extraVolumes[j]))
    case Network => at == AtMap(t) && !OrderFits(e.network)
    case Container => at == AtMap(t) && !OrderFits(e.container)
    case Volume => at == AtMap(t) && !OrderFits(e.volume)
    case Registry => at == AtString(t) && |e.registry| >= LENGTHS
    case Repository => at == AtString(t) && |e.repository| >= LENGTHS
    case NetworkMode => at == AtString(t) && |e.networkMode| >= LENGTHS
    case _ => at == AtString(t) && |e.cwd| >= LENGTHS
  }

  lemma FindSpot(e: Walk, t: Tag) returns (at: Spot, i: nat)
    requires !FieldFits(e, t) && IsField(t)
    ensures IsSpot(e, t, at, i)
  {
    hide LayerFits, VolumeFits, OrderFits;
    i := 0;
    match t
    case ExtendedInfo =>
      at := LayerCount;
      if |e.layers| < LENGTHS {
        i := FirstLayer(e.layers);
        at := AtLayer(i);
      }
    case Binds =>
      at := BindCount;
      if |e.binds| < LENGTHS {
        i :| 0 <= i < |e.binds| && |e.binds[i]| >= LENGTHS;
        at := AtBind(i);
      }
    case ExtraVolumes =>
      at := VolumeCount;
      if |e.extraVolumes| < LENGTHS {
        i := FirstVolume(e.extraVolumes);
        at := AtVolume(i);
      }
    case Network => at := AtMap(t);
    case Container => at := AtMap(t);
    case Volume => at := AtMap(t);
    case _ => at := AtString(t);
  }

  lemma FieldClips(src: Source, e: Walk, p: ProfileValue, t: Tag, at: Spot, i: nat, more: Bytes, s: Mem)
    requires Alike(e, p) && IsField(t) && ProfileTag(NameOf(t)) == t && IsSpot(e, t, at, i)
    requires ProfileField(src, NameOf(t), FieldBytes(e, t) + more, s).Done?
    ensures Clipped(p, ProfileField(src, NameOf(t), FieldBytes(e, t) + more, s).state, at)
  {
    hide ProfileTag, ProfileField, Clipped, LayerFits, VolumeFits, OrderFits, MapFits, StrBytes, MapBytes, InfoBytes, StringsBytes,
      VolumesBytes, ArrayHeader, HeadWidth, VolumesAlike;
    match t
    case ExtendedInfo => InfoFieldClips(src, EXTENDED_INFO, e.layers, i, more, s, p);
    case Binds => BindsFieldClips(src, BINDS, e.binds, i, more, s, p);
    case ExtraVolumes => VolumesFieldClips(src, EXTRAVOLUMES, e.extraVolumes, i, more, s, p);
    case Network => MapFieldClips(src, NETWORK, MapBytes(e.network) + more, s, p);
    case Container => MapFieldClips(src, CONTAINER, MapBytes(e.container) + more, s, p);
    case Volume => MapFieldClips(src, VOLUME, MapBytes(e.volume) + more, s, p);
    case Registry => StringFieldClips(src, REGISTRY, StrBytes(e.registry) + more, s, p);
    case Repository => StringFieldClips(src, REPOSITORY, StrBytes(e.repository) + more, s, p);
    case NetworkMode => StringFieldClips(src, NETWORK_MODE, StrBytes(e.networkMode) + more, s, p);
    case Cwd => StringFieldClips(src, CWD, StrBytes(e.cwd) + more, s, p);
    case _ =>
  }

  lemma FieldEstablishes(src: Source, e: Walk, p: ProfileValue, t: Tag) returns (at: Spot)
    requires Alike(e, p) && !FieldFits(e, t) && IsField(t) && ProfileTag(NameOf(t)) == t
    ensures Establishes(NameOf(t), FieldBytes(e, t), ProfileFieldOf(src), ClippedOf(p, at))
  {
    hide Alike, FieldFits, IsField, ProfileTag, NameOf, FieldBytes, ProfileField, Clipped, IsSpot;
    var i;
    at, i := FindSpot(e, t);
    forall more: Bytes, s: Mem | ProfileField(src, NameOf(t), FieldBytes(e, t) + more, s).Done?
      ensures Clipped(p, ProfileField(src, NameOf(t), FieldBytes(e, t) + more, s).state, at)
    {
      FieldClips(src, e, p, t, at, i, more, s);
    }
  }

  lemma TagName(k: nat)
    ensures ProfileTag(NameOf(TagAt(k))) == TagAt(k) && IsField(TagAt(k))
  {
    Tags();
  }

  /** From the `k`th field on one does not fit: those before it are trees, and it is clipped. */
  lemma {:induction false} ProfileLeads(src: Source, e: Walk, p: ProfileValue, k: nat) returns (at: Spot)
    requires Alike(e, p) && exists j :: k <= j < 10 && !FieldFits(e, TagAt(j))
    ensures Leads(ProfileParts(e, k), ProfileFieldOf(src), ClippedOf(p, at))
    decreases 10 - k
  {
    hide Alike, FieldFits, IsField, ProfileTag, NameOf, FieldBytes, FieldTree, ProfileFieldOf, ClippedOf, Leads, Establishes, TagAt, Enc, WellFormed;
    var t := TagAt(k);
    if FieldFits(e, t) {
      at := ProfileLeads(src, e, p, k + 1);
      FieldPrints(e, t);
    } else {
      TagName(k);
      at := FieldEstablishes(src, e, p, t);
    }
    LeadsOn(ProfileParts(e, k), ProfileFieldOf(src), ClippedOf(p, at));
  }

  lemma AllFit(e: Walk)
    requires FieldFits(e, Registry) && FieldFits(e, Repository) && FieldFits(e, NetworkMode) && FieldFits(e, Network)
    requires FieldFits(e, ExtendedInfo) && FieldFits(e, Cwd) && FieldFits(e, Binds) && FieldFits(e, Container)
    requires FieldFits(e, Volume) && FieldFits(e, ExtraVolumes)
    ensures Fits(e)
  {
    hide OrderFits, LayerFits, VolumeFits;
  }

  lemma AllFieldsFit(e: Walk)
    requires forall j :: 0 <= j < 10 ==> FieldFits(e, TagAt(j))
    ensures Fits(e)
  {
    hide FieldFits, Fits;
    assert FieldFits(e, TagAt(0)) && FieldFits(e, TagAt(1)) && FieldFits(e, TagAt(2)) && FieldFits(e, TagAt(3));
    assert FieldFits(e, TagAt(4)) && FieldFits(e, TagAt(5)) && FieldFits(e, TagAt(6)) && FieldFits(e, TagAt(7));
    assert FieldFits(e, TagAt(8)) && FieldFits(e, TagAt(9));
    AllFit(e);
  }

  /**
   A profile with a length that does not fit never comes back: whatever the
   target was and however the bytes are read, decoding fails or leaves something
   else in the target.
   */
  lemma NeverBack(src: Source, e: Walk, p: ProfileValue, s: Mem, rest: Bytes)
    requires Alike(e, p) && !Fits(e)
    ensures
      var d := DecodeProfile(src, ProfileBytes(e) + rest, s);
      d.Done? && MemOk(d.state) ==> View(d.state) != p
  {
    hide ProfileBytes, ProfileParts, Fields, PartsBytes, Count, ReadMapHeader, FieldRefines, Keeps, Leads, Fits, ProfileFieldOf, Alike,
      FieldFits, Clipped, View;
    var d := DecodeProfile(src, ProfileBytes(e) + rest, s);
    if d.Done? && MemOk(d.state) {
      var ps := ProfileParts(e, 0);
      ProfilePartsBytes(e);
      Assoc([0x8a], PartsBytes(ps), rest);
      ShortMapHeader(10, PartsBytes(ps) + rest);
      if forall j :: 0 <= j < 10 ==> FieldFits(e, TagAt(j)) {
        AllFieldsFit(e);
      }
      var at := ProfileLeads(src, e, p, 0);
      ProfileKeeps(src, p, at);
      ProfileFieldRefines(src);
      GetsThere(src, ps, rest, s, ProfileFieldOf(src), ProfileFieldTOf(src.Stream?), ProfileFieldPassOf(src), ClippedOf(p, at));
      ClippedDiffers(p, d.state, at);
    }
  }
}
