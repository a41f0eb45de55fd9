/**
 The Porto profile and its generated MessagePack decoder, as functions.

 Every decoder exists twice: on bytes, with the branches of the generated
 code, and on parse trees (suffix `T`).  The byte decoders may fail where the
 tree decoders do not, at values they cannot skip; `ProfilePass` says where.
 */
module ProfileDecoder {
  import opened Options
  import opened MessagePack

  // -------------------------------------------------------------- data model

  /**
   A map variable: nil, a map no other variable points to, or a map object that
   other variables may point to as well, known by its address.
   */
  datatype Ref = Nil | Private(contents: StrMap) | Shared(addr: nat)

  /** Contents of the shared map objects. */
  type Store = map<nat, StrMap>

  /** A slice: its backing cells, as many as its capacity, and its length. */
  datatype Slice<T> = Slice(cells: seq<T>, len: nat)

  datatype Layer = Layer(digest: Bytes, digestType: Bytes, size: nat, torrentId: Bytes)

  datatype VolumeProfile = VolumeProfile(target: Bytes, properties: Ref)

  datatype Profile = Profile(
    registry: Bytes, repository: Bytes, networkMode: Bytes, network: Ref,
    layers: Slice<Layer>, cwd: Bytes, binds: Slice<Bytes>,
    container: Ref, volume: Ref, extraVolumes: Slice<VolumeProfile>)

  /** A decoding target together with the shared maps it may point to. */
  datatype Mem = Mem(z: Profile, store: Store)

  datatype Slot = Slot(ref: Ref, store: Store)

  datatype VolumeMem = VolumeMem(v: VolumeProfile, store: Store)

  const ZERO_LAYER := Layer([], [], 0, [])
  const ZERO_VOLUME := VolumeProfile([], Nil)

  function Resize<T>(s: Slice<T>, n: nat, zero: T): Slice<T> {
    if |s.cells| >= n then Slice(s.cells, n) else Slice(seq(n, _ => zero), n)
  }

  function SetCell<T>(s: Slice<T>, i: nat, x: T): Slice<T> {
    if i < |s.cells| then s.(cells := s.cells[i := x]) else s
  }

  /** Clear the map (or make one) and fill it with `c`. */
  function SetMap(r: Ref, c: StrMap, store: Store): Slot {
    if r.Shared? then Slot(r, store[r.addr := c]) else Slot(Private(c), store)
  }

  // -------------------------------------------------------------- field names

  const DIGEST: Bytes := [0x64, 0x69, 0x67, 0x65, 0x73, 0x74]
  const DIGEST_TYPE: Bytes := [0x64, 0x69, 0x67, 0x65, 0x73, 0x74, 0x5f, 0x74, 0x79, 0x70, 0x65]
  const SIZE: Bytes := [0x73, 0x69, 0x7a, 0x65]
  const TORRENT_ID: Bytes := [0x74, 0x6f, 0x72, 0x72, 0x65, 0x6e, 0x74, 0x5f, 0x69, 0x64]
  const LAYERS: Bytes := [0x6c, 0x61, 0x79, 0x65, 0x72, 0x73]
  const TARGET: Bytes := [0x74, 0x61, 0x72, 0x67, 0x65, 0x74]
  const PROPERTIES: Bytes := [0x70, 0x72, 0x6f, 0x70, 0x65, 0x72, 0x74, 0x69, 0x65, 0x73]
  const REGISTRY: Bytes := [0x72, 0x65, 0x67, 0x69, 0x73, 0x74, 0x72, 0x79]
  const REPOSITORY: Bytes := [0x72, 0x65, 0x70, 0x6f, 0x73, 0x69, 0x74, 0x6f, 0x72, 0x79]
  const NETWORK_MODE: Bytes := [0x6e, 0x65, 0x74, 0x77, 0x6f, 0x72, 0x6b, 0x5f, 0x6d, 0x6f, 0x64, 0x65]
  const NETWORK: Bytes := [0x6e, 0x65, 0x74, 0x77, 0x6f, 0x72, 0x6b]
  const EXTENDED_INFO: Bytes := [0x65, 0x78, 0x74, 0x65, 0x6e, 0x64, 0x65, 0x64, 0x5f, 0x69, 0x6e, 0x66, 0x6f]
  const CWD: Bytes := [0x63, 0x77, 0x64]
  const BINDS: Bytes := [0x62, 0x69, 0x6e, 0x64, 0x73]
  const CONTAINER: Bytes := [0x63, 0x6f, 0x6e, 0x74, 0x61, 0x69, 0x6e, 0x65, 0x72]
  const VOLUME: Bytes := [0x76, 0x6f, 0x6c, 0x75, 0x6d, 0x65]
  const EXTRAVOLUMES: Bytes := [0x65, 0x78, 0x74, 0x72, 0x61, 0x76, 0x6f, 0x6c, 0x75, 0x6d, 0x65, 0x73]

  datatype Tag =
    | Unknown
    | Digest | DigestType | Size | TorrentId
    | Layers
    | Target | Properties
    | Registry | Repository | NetworkMode | Network | ExtendedInfo | Cwd | Binds | Container | Volume | ExtraVolumes

  function LayerTag(k: Bytes): Tag {
    if k == DIGEST then Digest
    else if k == DIGEST_TYPE then DigestType
    else if k == SIZE then Size
    else if k == TORRENT_ID then TorrentId
    else Unknown
  }

  function InfoTag(k: Bytes): Tag {
    if k == LAYERS then Layers else Unknown
  }

  function VolumeTag(k: Bytes): Tag {
    if k == TARGET then Target else if k == PROPERTIES then Properties else Unknown
  }

  function ProfileTag(k: Bytes): Tag {
    if k == REGISTRY then Registry
    else if k == REPOSITORY then Repository
    else if k == NETWORK_MODE then NetworkMode
    else if k == NETWORK then Network
    else if k == EXTENDED_INFO then ExtendedInfo
    else if k == CWD then Cwd
    else if k == BINDS then Binds
    else if k == CONTAINER then Container
    else if k == VOLUME then Volume
    else if k == EXTRAVOLUMES then ExtraVolumes
    else Unknown
  }

  /** The tags of the profile's own fields. */
  predicate IsField(t: Tag) {
    t in {Registry, Repository, NetworkMode, Network, ExtendedInfo, Cwd, Binds, Container, Volume, ExtraVolumes}
  }

  // ------------------------------------------------------- decoding on bytes

  /** Where the bytes come from: a byte slice (`UnmarshalMsg`), or a stream (`DecodeMsg`) buffered in some way. */
  datatype Source = InMemory | Stream(full: Buffering)

  function Looks(src: Source): Buffering { if src.Stream? then src.full else NEVER }

  /** State after a decoder ran, and the unread bytes unless it failed. */
  datatype Dec<+S> = Done(state: S, rest: Bytes) | Fail(state: S)

  function Finish<T, S>(r: Res<T>, s: S): Dec<S> {
    if r.Ok? then Done(s, r.rest) else Fail(s)
  }

  function MapDec<A, B>(d: Dec<A>, h: A -> B): Dec<B> {
    match d case Done(s, r) => Done(h(s), r) case Fail(s) => Fail(h(s))
  }

  function Or<T>(r: Res<T>, zero: T): T { if r.Ok? then r.value else zero }

  /** The remaining `n` fields of a struct. */
  function Fields<S>(src: Source, n: nat, b: Bytes, s: S, f: (Bytes, Bytes, S) -> Dec<S>): Dec<S> {
    if n == 0 then Done(s, b)
    else match ReadMapKey(src.Stream?, b)
      case Err => Fail(s)
      case Ok(k, r) =>
        match f(k, r, s)
        case Fail(s') => Fail(s')
        case Done(s', r') => Fields(src, n - 1, r', s', f)
  }

  function Struct<S>(src: Source, b: Bytes, s: S, f: (Bytes, Bytes, S) -> Dec<S>): Dec<S> {
    match ReadMapHeader(b)
    case Err => Fail(s)
    case Ok(n, r) => Fields(src, n, r, s, f)
  }

  /** Array elements `i` to `n`. */
  function Items<S>(i: nat, n: nat, b: Bytes, s: S, f: (nat, Bytes, S) -> Dec<S>): Dec<S>
    requires i <= n
    decreases n - i
  {
    if i == n then Done(s, b)
    else match f(i, b, s)
      case Fail(s') => Fail(s')
      case Done(s', r) => Items(i + 1, n, r, s', f)
  }

  /** The remaining `n` pairs of a string map. */
  function Pairs(n: nat, b: Bytes, acc: StrMap): Dec<StrMap> {
    if n == 0 then Done(acc, b)
    else match ReadString(b)
      case Err => Fail(acc)
      case Ok(k, r) =>
        match ReadString(r)
        case Err => Fail(acc)
        case Ok(v, r') => Pairs(n - 1, r', acc[k := v])
  }

  function StringMap(b: Bytes, s: Slot): Dec<Slot> {
    match ReadMapHeader(b)
    case Err => Fail(s)
    case Ok(n, r) => MapDec(Pairs(n, r, map[]), (c: StrMap) => SetMap(s.ref, c, s.store))
  }

  function SkipField<S>(src: Source, b: Bytes, s: S): Dec<S> {
    match Skip(Looks(src), b) case None => Fail(s) case Some(r) => Done(s, r)
  }

  function LayerField(src: Source, k: Bytes, b: Bytes, z: Layer): Dec<Layer> {
    match LayerTag(k)
    case Digest => var r := ReadString(b); Finish(r, z.(digest := Or(r, [])))
    case DigestType => var r := ReadString(b); Finish(r, z.(digestType := Or(r, [])))
    case Size => var r := ReadUint(b); Finish(r, z.(size := Or(r, 0)))
    case TorrentId => var r := ReadString(b); Finish(r, z.(torrentId := Or(r, [])))
    case _ => SkipField(src, b, z)
  }

  function LayerFieldOf(src: Source): (Bytes, Bytes, Layer) -> Dec<Layer> {
    (k: Bytes, b: Bytes, z: Layer) => LayerField(src, k, b, z)
  }

  function DecodeLayer(src: Source, b: Bytes, z: Layer): Dec<Layer> {
    Struct(src, b, z, LayerFieldOf(src))
  }

  function LayerItem(src: Source, i: nat, b: Bytes, s: Slice<Layer>): Dec<Slice<Layer>> {
    if i >= |s.cells| then Fail(s)
    else MapDec(DecodeLayer(src, b, s.cells[i]), (l: Layer) => SetCell(s, i, l))
  }

  function LayerItemOf(src: Source): (nat, Bytes, Slice<Layer>) -> Dec<Slice<Layer>> {
    (i: nat, b: Bytes, s: Slice<Layer>) => LayerItem(src, i, b, s)
  }

  function InfoField(src: Source, k: Bytes, b: Bytes, s: Slice<Layer>): Dec<Slice<Layer>> {
    match InfoTag(k)
    case Layers =>
      (match ReadArrayHeader(b)
       case Err => Fail(s)
       case Ok(n, r) => Items(0, n, r, Resize(s, n, ZERO_LAYER), LayerItemOf(src)))
    case _ => SkipField(src, b, s)
  }

  function InfoFieldOf(src: Source): (Bytes, Bytes, Slice<Layer>) -> Dec<Slice<Layer>> {
    (k: Bytes, b: Bytes, s: Slice<Layer>) => InfoField(src, k, b, s)
  }

  function DecodeInfo(src: Source, b: Bytes, s: Slice<Layer>): Dec<Slice<Layer>> {
    Struct(src, b, s, InfoFieldOf(src))
  }

  function BindItem(i: nat, b: Bytes, s: Slice<Bytes>): Dec<Slice<Bytes>> {
    var r := ReadString(b);
    Finish(r, SetCell(s, i, Or(r, [])))
  }

  function DecodeBinds(b: Bytes, s: Slice<Bytes>): Dec<Slice<Bytes>> {
    match ReadArrayHeader(b)
    case Err => Fail(s)
    case Ok(n, r) => Items(0, n, r, Resize(s, n, []), BindItem)
  }

  function VolumeField(src: Source, k: Bytes, b: Bytes, s: VolumeMem): Dec<VolumeMem> {
    match VolumeTag(k)
    case Target => var r := ReadString(b); Finish(r, s.(v := s.v.(target := Or(r, []))))
    case Properties =>
      MapDec(StringMap(b, Slot(s.v.properties, s.store)),
             (x: Slot) => VolumeMem(s.v.(properties := x.ref), x.store))
    case _ => SkipField(src, b, s)
  }

  function VolumeFieldOf(src: Source): (Bytes, Bytes, VolumeMem) -> Dec<VolumeMem> {
    (k: Bytes, b: Bytes, s: VolumeMem) => VolumeField(src, k, b, s)
  }

  function DecodeVolume(src: Source, b: Bytes, s: VolumeMem): Dec<VolumeMem> {
    Struct(src, b, s, VolumeFieldOf(src))
  }

  function SetVolume(s: Mem, i: nat, x: VolumeMem): Mem {
    Mem(s.z.(extraVolumes := SetCell(s.z.extraVolumes, i, x.v)), x.store)
  }

  function VolumeItem(src: Source, i: nat, b: Bytes, s: Mem): Dec<Mem> {
    if i >= |s.z.extraVolumes.cells| then Fail(s)
    else MapDec(DecodeVolume(src, b, VolumeMem(s.z.extraVolumes.cells[i], s.store)),
                (x: VolumeMem) => SetVolume(s, i, x))
  }

  function VolumeItemOf(src: Source): (nat, Bytes, Mem) -> Dec<Mem> {
    (i: nat, b: Bytes, s: Mem) => VolumeItem(src, i, b, s)
  }

  function DecodeVolumes(src: Source, b: Bytes, s: Mem): Dec<Mem> {
    match ReadArrayHeader(b)
    case Err => Fail(s)
    case Ok(n, r) => Items(0, n, r, ResizeVolumes(s, n), VolumeItemOf(src))
  }

  function ResizeVolumes(s: Mem, n: nat): Mem {
    s.(z := s.z.(extraVolumes := Resize(s.z.extraVolumes, n, ZERO_VOLUME)))
  }

  /** The map variable a field decodes into. */
  function MapAt(t: Tag, z: Profile): Ref {
    match t case Network => z.network case Container => z.container case _ => z.volume
  }

  function SetMapAt(t: Tag, s: Mem, x: Slot): Mem {
    match t
    case Network => Mem(s.z.(network := x.ref), x.store)
    case Container => Mem(s.z.(container := x.ref), x.store)
    case _ => Mem(s.z.(volume := x.ref), x.store)
  }

  function DecodeMapAt(t: Tag, b: Bytes, s: Mem): Dec<Mem> {
    MapDec(StringMap(b, Slot(MapAt(t, s.z), s.store)), (x: Slot) => SetMapAt(t, s, x))
  }

  function SetString(t: Tag, s: Mem, v: Bytes): Mem {
    match t
    case Registry => s.(z := s.z.(registry := v))
    case Repository => s.(z := s.z.(repository := v))
    case NetworkMode => s.(z := s.z.(networkMode := v))
    case _ => s.(z := s.z.(cwd := v))
  }

  function ProfileField(src: Source, k: Bytes, b: Bytes, s: Mem): Dec<Mem> {
    var t := ProfileTag(k);
    match t
    case Unknown => SkipField(src, b, s)
    case Network => DecodeMapAt(t, b, s)
    case Container => DecodeMapAt(t, b, s)
    case Volume => DecodeMapAt(t, b, s)
    case ExtendedInfo =>
      MapDec(DecodeInfo(src, b, s.z.layers), (l: Slice<Layer>) => s.(z := s.z.(layers := l)))
    case Binds =>
      MapDec(DecodeBinds(b, s.z.binds), (l: Slice<Bytes>) => s.(z := s.z.(binds := l)))
    case ExtraVolumes => DecodeVolumes(src, b, s)
    case _ => var r := ReadString(b); Finish(r, SetString(t, s, Or(r, [])))
  }

  function ProfileFieldOf(src: Source): (Bytes, Bytes, Mem) -> Dec<Mem> {
    (k: Bytes, b: Bytes, s: Mem) => ProfileField(src, k, b, s)
  }

  /** `UnmarshalMsg` and `DecodeMsg` of a profile. */
  function DecodeProfile(src: Source, b: Bytes, s: Mem): Dec<Mem> {
    Struct(src, b, s, ProfileFieldOf(src))
  }

  // ------------------------------------------------- decoding on parse trees

  datatype Out<+S> = Good(state: S) | Bad(state: S)

  function FinishT<T, S>(r: Option<T>, s: S): Out<S> {
    if r.Some? then Good(s) else Bad(s)
  }

  function MapOut<A, B>(d: Out<A>, h: A -> B): Out<B> {
    match d case Good(s) => Good(h(s)) case Bad(s) => Bad(h(s))
  }

  function OrT<T>(r: Option<T>, zero: T): T { if r.Some? then r.value else zero }

  function FieldsT<S>(stream: bool, es: seq<Entry>, s: S, g: (Bytes, Msg, S) -> Out<S>): Out<S> {
    if |es| == 0 then Good(s)
    else match KeyOf(stream, es[0].key)
      case None => Bad(s)
      case Some(k) =>
        match g(k, es[0].val, s)
        case Bad(s') => Bad(s')
        case Good(s') => FieldsT(stream, es[1..], s', g)
  }

  function StructT<S>(stream: bool, m: Msg, s: S, g: (Bytes, Msg, S) -> Out<S>): Out<S> {
    if m.Dict? then FieldsT(stream, m.entries, s, g) else Bad(s)
  }

  function ItemsT<S>(i: nat, items: seq<Msg>, s: S, g: (nat, Msg, S) -> Out<S>): Out<S>
    decreases |items|
  {
    if |items| == 0 then Good(s)
    else match g(i, items[0], s)
      case Bad(s') => Bad(s')
      case Good(s') => ItemsT(i + 1, items[1..], s', g)
  }

  function PairsT(es: seq<Entry>, acc: StrMap): Out<StrMap> {
    if |es| == 0 then Good(acc)
    else match (StrOf(es[0].key), StrOf(es[0].val))
      case (Some(k), Some(v)) => PairsT(es[1..], acc[k := v])
      case _ => Bad(acc)
  }

  function StringMapT(m: Msg, s: Slot): Out<Slot> {
    if m.Dict? then MapOut(PairsT(m.entries, map[]), (c: StrMap) => SetMap(s.ref, c, s.store)) else Bad(s)
  }

  function LayerFieldT(k: Bytes, m: Msg, z: Layer): Out<Layer> {
    match LayerTag(k)
    case Digest => FinishT(StrOf(m), z.(digest := OrT(StrOf(m), [])))
    case DigestType => FinishT(StrOf(m), z.(digestType := OrT(StrOf(m), [])))
    case Size => FinishT(UintOf(m), z.(size := OrT(UintOf(m), 0)))
    case TorrentId => FinishT(StrOf(m), z.(torrentId := OrT(StrOf(m), [])))
    case _ => Good(z)
  }

  function DecodeLayerT(stream: bool, m: Msg, z: Layer): Out<Layer> {
    StructT(stream, m, z, LayerFieldT)
  }

  function LayerItemT(stream: bool, i: nat, m: Msg, s: Slice<Layer>): Out<Slice<Layer>> {
    if i >= |s.cells| then Bad(s)
    else MapOut(DecodeLayerT(stream, m, s.cells[i]), (l: Layer) => SetCell(s, i, l))
  }

  function LayerItemTOf(stream: bool): (nat, Msg, Slice<Layer>) -> Out<Slice<Layer>> {
    (i: nat, m: Msg, s: Slice<Layer>) => LayerItemT(stream, i, m, s)
  }

  function InfoFieldT(stream: bool, k: Bytes, m: Msg, s: Slice<Layer>): Out<Slice<Layer>> {
    match InfoTag(k)
    case Layers =>
      if m.Arr? then ItemsT(0, m.items, Resize(s, |m.items|, ZERO_LAYER), LayerItemTOf(stream)) else Bad(s)
    case _ => Good(s)
  }

  function InfoFieldTOf(stream: bool): (Bytes, Msg, Slice<Layer>) -> Out<Slice<Layer>> {
    (k: Bytes, m: Msg, s: Slice<Layer>) => InfoFieldT(stream, k, m, s)
  }

  function DecodeInfoT(stream: bool, m: Msg, s: Slice<Layer>): Out<Slice<Layer>> {
    StructT(stream, m, s, InfoFieldTOf(stream))
  }

  function BindItemT(i: nat, m: Msg, s: Slice<Bytes>): Out<Slice<Bytes>> {
    FinishT(StrOf(m), SetCell(s, i, OrT(StrOf(m), [])))
  }

  function DecodeBindsT(m: Msg, s: Slice<Bytes>): Out<Slice<Bytes>> {
    if m.Arr? then ItemsT(0, m.items, Resize(s, |m.items|, []), BindItemT) else Bad(s)
  }

  function VolumeFieldT(k: Bytes, m: Msg, s: VolumeMem): Out<VolumeMem> {
    match VolumeTag(k)
    case Target => FinishT(StrOf(m), s.(v := s.v.(target := OrT(StrOf(m), []))))
    case Properties =>
      MapOut(StringMapT(m, Slot(s.v.properties, s.store)),
             (x: Slot) => VolumeMem(s.v.(properties := x.ref), x.store))
    case _ => Good(s)
  }

  function DecodeVolumeT(stream: bool, m: Msg, s: VolumeMem): Out<VolumeMem> {
    StructT(stream, m, s, VolumeFieldT)
  }

  function VolumeItemT(stream: bool, i: nat, m: Msg, s: Mem): Out<Mem> {
    if i >= |s.z.extraVolumes.cells| then Bad(s)
    else MapOut(DecodeVolumeT(stream, m, VolumeMem(s.z.extraVolumes.cells[i], s.store)),
                (x: VolumeMem) => SetVolume(s, i, x))
  }

  function VolumeItemTOf(stream: bool): (nat, Msg, Mem) -> Out<Mem> {
    (i: nat, m: Msg, s: Mem) => VolumeItemT(stream, i, m, s)
  }

  function DecodeVolumesT(stream: bool, m: Msg, s: Mem): Out<Mem> {
    if m.Arr? then ItemsT(0, m.items, ResizeVolumes(s, |m.items|), VolumeItemTOf(stream)) else Bad(s)
  }

  function DecodeMapAtT(t: Tag, m: Msg, s: Mem): Out<Mem> {
    MapOut(StringMapT(m, Slot(MapAt(t, s.z), s.store)), (x: Slot) => SetMapAt(t, s, x))
  }

  function ProfileFieldT(stream: bool, k: Bytes, m: Msg, s: Mem): Out<Mem> {
    var t := ProfileTag(k);
    match t
    case Unknown => Good(s)
    case Network => DecodeMapAtT(t, m, s)
    case Container => DecodeMapAtT(t, m, s)
    case Volume => DecodeMapAtT(t, m, s)
    case ExtendedInfo =>
      MapOut(DecodeInfoT(stream, m, s.z.layers), (l: Slice<Layer>) => s.(z := s.z.(layers := l)))
    case Binds =>
      MapOut(DecodeBindsT(m, s.z.binds), (l: Slice<Bytes>) => s.(z := s.z.(binds := l)))
    case ExtraVolumes => DecodeVolumesT(stream, m, s)
    case _ => FinishT(StrOf(m), SetString(t, s, OrT(StrOf(m), [])))
  }

  function ProfileFieldTOf(stream: bool): (Bytes, Msg, Mem) -> Out<Mem> {
    (k: Bytes, m: Msg, s: Mem) => ProfileFieldT(stream, k, m, s)
  }

  function DecodeProfileT(stream: bool, m: Msg, s: Mem): Out<Mem> {
    StructT(stream, m, s, ProfileFieldTOf(stream))
  }

  // ------------------------------------------------------ what can be skipped

  /** Field handlers and array items get past what they have to skip; `n` is the number of bytes that follow. */
  type FieldPass = (Bytes, Msg, nat) -> bool

  predicate FieldsPass(stream: bool, es: seq<Entry>, n: nat, p: FieldPass) {
    |es| == 0 ||
    (&& (KeyOf(stream, es[0].key).Some? ==> p(KeyOf(stream, es[0].key).value, es[0].val, LenEntries(es[1..]) + n))
     && FieldsPass(stream, es[1..], n, p))
  }

  predicate ItemsPass(items: seq<Msg>, n: nat, p: (Msg, nat) -> bool) {
    |items| == 0 || (p(items[0], LenItems(items[1..]) + n) && ItemsPass(items[1..], n, p))
  }

  predicate LayerFieldPass(src: Source, k: Bytes, m: Msg, n: nat) { LayerTag(k) == Unknown ==> Skippable(Looks(src), m, n) }

  function LayerFieldPassOf(src: Source): FieldPass { (k: Bytes, m: Msg, n: nat) => LayerFieldPass(src, k, m, n) }

  predicate LayerPass(src: Source, m: Msg, n: nat) {
    m.Dict? ==> FieldsPass(src.Stream?, m.entries, n, LayerFieldPassOf(src))
  }

  function LayerPassOf(src: Source): (Msg, nat) -> bool { (m: Msg, n: nat) => LayerPass(src, m, n) }

  predicate InfoFieldPass(src: Source, k: Bytes, m: Msg, n: nat) {
    if InfoTag(k) == Layers then m.Arr? ==> ItemsPass(m.items, n, LayerPassOf(src)) else Skippable(Looks(src), m, n)
  }

  function InfoFieldPassOf(src: Source): FieldPass { (k: Bytes, m: Msg, n: nat) => InfoFieldPass(src, k, m, n) }

  predicate InfoPass(src: Source, m: Msg, n: nat) {
    m.Dict? ==> FieldsPass(src.Stream?, m.entries, n, InfoFieldPassOf(src))
  }

  predicate VolumeFieldPass(src: Source, k: Bytes, m: Msg, n: nat) { VolumeTag(k) == Unknown ==> Skippable(Looks(src), m, n) }

  function VolumeFieldPassOf(src: Source): FieldPass { (k: Bytes, m: Msg, n: nat) => VolumeFieldPass(src, k, m, n) }

  predicate VolumePass(src: Source, m: Msg, n: nat) {
    m.Dict? ==> FieldsPass(src.Stream?, m.entries, n, VolumeFieldPassOf(src))
  }

  function VolumePassOf(src: Source): (Msg, nat) -> bool { (m: Msg, n: nat) => VolumePass(src, m, n) }

  predicate VolumesPass(src: Source, m: Msg, n: nat) { m.Arr? ==> ItemsPass(m.items, n, VolumePassOf(src)) }

  predicate ProfileFieldPass(src: Source, k: Bytes, m: Msg, n: nat) {
    match ProfileTag(k)
    case Unknown => Skippable(Looks(src), m, n)
    case ExtendedInfo => InfoPass(src, m, n)
    case ExtraVolumes => VolumesPass(src, m, n)
    case _ => true
  }

  function ProfileFieldPassOf(src: Source): FieldPass { (k: Bytes, m: Msg, n: nat) => ProfileFieldPass(src, k, m, n) }

  /** The decoder gets past every value it has no field for, at all four levels. */
  predicate ProfilePass(src: Source, m: Msg, n: nat) {
    m.Dict? ==> FieldsPass(src.Stream?, m.entries, n, ProfileFieldPassOf(src))
  }

  // ------------------------------------------------ objects that always pass

  /** Nothing gets in the way of the byte-slice decoder, or of any decoder in an object without the long extensions. */
  predicate Harmless(src: Source, m: Msg) { src.Stream? ==> Portable(m) }

  lemma HarmlessSkips(src: Source, m: Msg, n: nat)
    requires Harmless(src, m)
    ensures Skippable(Looks(src), m, n)
  {
    PortableSkips(Looks(src), m, n);
  }

  lemma {:induction false} FieldsHarmless(src: Source, es: seq<Entry>, n: nat, p: FieldPass)
    requires forall i :: 0 <= i < |es| ==> Harmless(src, es[i].val)
    requires forall k: Bytes, m: Msg, n: nat {:trigger p(k, m, n)} :: Harmless(src, m) ==> p(k, m, n)
    ensures FieldsPass(src.Stream?, es, n, p)
    decreases |es|
  {
    if |es| == 0 {
    } else {
      assert Harmless(src, es[0].val);
      FieldsHarmless(src, es[1..], n, p);
    }
  }

  lemma {:induction false} ItemsHarmless(src: Source, items: seq<Msg>, n: nat, p: (Msg, nat) -> bool)
    requires forall i :: 0 <= i < |items| ==> Harmless(src, items[i])
    requires forall m: Msg, n: nat {:trigger p(m, n)} :: Harmless(src, m) ==> p(m, n)
    ensures ItemsPass(items, n, p)
    decreases |items|
  {
    if |items| == 0 {
    } else {
      assert Harmless(src, items[0]);
      ItemsHarmless(src, items[1..], n, p);
    }
  }

  lemma EntriesHarmless(src: Source, m: Msg)
    requires Harmless(src, m) && m.Dict?
    ensures forall i :: 0 <= i < |m.entries| ==> Harmless(src, m.entries[i].val)
  {
    assert src.Stream? ==> forall i :: 0 <= i < |m.entries| ==> PortableEntry(m.entries[i]);
  }

  lemma LayerHarmless(src: Source, m: Msg, n: nat)
    requires Harmless(src, m)
    ensures LayerPass(src, m, n)
  {
    if m.Dict? {
      EntriesHarmless(src, m);
      hide Harmless;
      forall k: Bytes, m: Msg, n: nat | Harmless(src, m)
        ensures LayerFieldPass(src, k, m, n)
      {
        HarmlessSkips(src, m, n);
      }
      FieldsHarmless(src, m.entries, n, LayerFieldPassOf(src));
    }
  }

  lemma InfoFieldHarmless(src: Source, k: Bytes, m: Msg, n: nat)
    requires Harmless(src, m)
    ensures InfoFieldPass(src, k, m, n)
  {
    HarmlessSkips(src, m, n);
    if InfoTag(k) == Layers && m.Arr? {
      hide LayerPass;
      forall m: Msg, n: nat | Harmless(src, m)
        ensures LayerPass(src, m, n)
      {
        LayerHarmless(src, m, n);
      }
      ItemsHarmless(src, m.items, n, LayerPassOf(src));
    }
  }

  lemma InfoHarmless(src: Source, m: Msg, n: nat)
    requires Harmless(src, m)
    ensures InfoPass(src, m, n)
  {
    if m.Dict? {
      EntriesHarmless(src, m);
      hide Harmless, InfoFieldPass;
      forall k: Bytes, m: Msg, n: nat | Harmless(src, m)
        ensures InfoFieldPass(src, k, m, n)
      {
        InfoFieldHarmless(src, k, m, n);
      }
      FieldsHarmless(src, m.entries, n, InfoFieldPassOf(src));
    }
  }

  lemma VolumeHarmless(src: Source, m: Msg, n: nat)
    requires Harmless(src, m)
    ensures VolumePass(src, m, n)
  {
    if m.Dict? {
      EntriesHarmless(src, m);
      hide Harmless;
      forall k: Bytes, m: Msg, n: nat | Harmless(src, m)
        ensures VolumeFieldPass(src, k, m, n)
      {
        HarmlessSkips(src, m, n);
      }
      FieldsHarmless(src, m.entries, n, VolumeFieldPassOf(src));
    }
  }

  lemma VolumesHarmless(src: Source, m: Msg, n: nat)
    requires Harmless(src, m)
    ensures VolumesPass(src, m, n)
  {
    if m.Arr? {
      hide VolumePass;
      forall m: Msg, n: nat | Harmless(src, m)
        ensures VolumePass(src, m, n)
      {
        VolumeHarmless(src, m, n);
      }
      ItemsHarmless(src, m.items, n, VolumePassOf(src));
    }
  }

  lemma ProfileFieldHarmless(src: Source, k: Bytes, m: Msg, n: nat)
    requires Harmless(src, m)
    ensures ProfileFieldPass(src, k, m, n)
  {
    hide Harmless, InfoPass, VolumesPass, Skippable;
    HarmlessSkips(src, m, n);
    InfoHarmless(src, m, n);
    VolumesHarmless(src, m, n);
  }

  lemma ProfileHarmless(src: Source, m: Msg, n: nat)
    requires Harmless(src, m)
    ensures ProfilePass(src, m, n)
  {
    if m.Dict? {
      EntriesHarmless(src, m);
      hide Harmless, ProfileFieldPass;
      forall k: Bytes, m: Msg, n: nat | Harmless(src, m)
        ensures ProfileFieldPass(src, k, m, n)
      {
        ProfileFieldHarmless(src, k, m, n);
      }
      FieldsHarmless(src, m.entries, n, ProfileFieldPassOf(src));
    }
  }
}
