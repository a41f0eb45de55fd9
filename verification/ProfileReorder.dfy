/**
 The profile decoder does not care in which order the entries of a map come, nor
 about entries it does not know: at the top level, inside `extended_info`, inside
 each layer and inside each extra volume.  The one thing that can break this is a
 target two of whose map fields point to the same map object; the last section
 says exactly which targets those are.
 */
module ProfileReorder {
  import opened Options
  import opened MessagePack
  import opened ProfileDecoder
  import opened DecoderLoops
  import opened ProfileRefinement
  import opened ProfileRoundTrip

  // ------------------------------------------------------------ map entries

  /** Both succeed with the same target, or both fail. */
  ghost predicate Same<S>(o: Out<S>, p: Out<S>) {
    (o.Good? && p.Good? && o.state == p.state) || (o.Bad? && p.Bad?)
  }

  predicate Readable(stream: bool, es: seq<Entry>) {
    forall i :: 0 <= i < |es| ==> KeyOf(stream, es[i].key).Some?
  }

  /** The field an entry is for. */
  function EntryTag(stream: bool, tag: Bytes -> Tag, e: Entry): Tag {
    match KeyOf(stream, e.key) case None => Unknown case Some(k) => tag(k)
  }

  /** The entries the decoder knows, in their order. */
  function Known(stream: bool, tag: Bytes -> Tag, es: seq<Entry>): seq<Entry> {
    if |es| == 0 then []
    else (if EntryTag(stream, tag, es[0]) == Unknown then [] else [es[0]]) + Known(stream, tag, es[1..])
  }

  predicate AllKnown(stream: bool, tag: Bytes -> Tag, es: seq<Entry>) {
    forall i :: 0 <= i < |es| ==> EntryTag(stream, tag, es[i]) != Unknown
  }

  predicate Distinct(stream: bool, tag: Bytes -> Tag, es: seq<Entry>) {
    forall i, j :: 0 <= i < j < |es| ==> EntryTag(stream, tag, es[i]) != EntryTag(stream, tag, es[j])
  }

  /** The same known entries, each field once, in any order and among any unknown ones. */
  ghost predicate Shuffled(stream: bool, tag: Bytes -> Tag, es: seq<Entry>, fs: seq<Entry>) {
    && Readable(stream, es) && Readable(stream, fs)
    && Distinct(stream, tag, Known(stream, tag, es))
    && multiset(Known(stream, tag, es)) == multiset(Known(stream, tag, fs))
  }

  /** Handle one more entry. */
  function Then<S>(o: Out<S>, k: Bytes, m: Msg, g: (Bytes, Msg, S) -> Out<S>): Out<S> {
    match o case Bad(s) => Bad(s) case Good(s) => g(k, m, s)
  }

  ghost predicate SkipsUnknown<S(!new)>(tag: Bytes -> Tag, g: (Bytes, Msg, S) -> Out<S>) {
    forall k: Bytes, m: Msg, s: S :: tag(k) == Unknown ==> g(k, m, s) == Good(s)
  }

  /** Different fields may be handled in either order; `inv` says of which targets this holds, and lasts. */
  ghost predicate Commutes<S(!new)>(tag: Bytes -> Tag, inv: S -> bool, g: (Bytes, Msg, S) -> Out<S>) {
    && (forall k: Bytes, m: Msg, s: S :: inv(s) && tag(k) != Unknown && g(k, m, s).Good? ==> inv(g(k, m, s).state))
    && (forall k: Bytes, m: Msg, k': Bytes, m': Msg, s: S {:trigger Then(g(k, m, s), k', m', g)} ::
          inv(s) && tag(k) != Unknown && tag(k') != Unknown && tag(k) != tag(k') ==>
          Same(Then(g(k, m, s), k', m', g), Then(g(k', m', s), k, m, g)))
  }

  lemma {:induction false} DropUnknown<S(!new)>(stream: bool, tag: Bytes -> Tag, es: seq<Entry>, s: S, g: (Bytes, Msg, S) -> Out<S>)
    requires Readable(stream, es) && SkipsUnknown(tag, g)
    ensures FieldsT(stream, es, s, g) == FieldsT(stream, Known(stream, tag, es), s, g)
    ensures AllKnown(stream, tag, Known(stream, tag, es)) && Readable(stream, Known(stream, tag, es))
    decreases |es|
  {
    if |es| == 0 {
    } else {
      var k := KeyOf(stream, es[0].key).value;
      var rest := Known(stream, tag, es[1..]);
      if tag(k) == Unknown {
        assert Known(stream, tag, es) == rest;
      } else {
        assert Known(stream, tag, es) == [es[0]] + rest && ([es[0]] + rest)[1..] == rest;
      }
      var o := g(k, es[0].val, s);
      DropUnknown(stream, tag, es[1..], if o.Good? then o.state else s, g);
    }
  }

  /** An unknown entry changes nothing. */
  lemma {:induction false} InsertUnknown<S(!new)>(stream: bool, tag: Bytes -> Tag, pre: seq<Entry>, e: Entry, post: seq<Entry>, s: S,
                                                 g: (Bytes, Msg, S) -> Out<S>)
    requires SkipsUnknown(tag, g) && KeyOf(stream, e.key).Some? && EntryTag(stream, tag, e) == Unknown
    ensures FieldsT(stream, pre + ([e] + post), s, g) == FieldsT(stream, pre + post, s, g)
    decreases |pre|
  {
    if |pre| == 0 {
      assert pre + post == post && pre + ([e] + post) == [e] + post;
      ConsT(stream, e, post, s, g);
    } else {
      assert pre + post == [pre[0]] + (pre[1..] + post) && pre + ([e] + post) == [pre[0]] + (pre[1..] + ([e] + post));
      if KeyOf(stream, pre[0].key).Some? {
        ConsT(stream, pre[0], pre[1..] + post, s, g);
        ConsT(stream, pre[0], pre[1..] + ([e] + post), s, g);
        var o := g(KeyOf(stream, pre[0].key).value, pre[0].val, s);
        if o.Good? {
          InsertUnknown(stream, tag, pre[1..], e, post, o.state, g);
        }
      }
    }
  }

  lemma ConsT<S>(stream: bool, x: Entry, es: seq<Entry>, s: S, g: (Bytes, Msg, S) -> Out<S>)
    requires KeyOf(stream, x.key).Some?
    ensures FieldsT(stream, [x] + es, s, g) ==
            (var o := g(KeyOf(stream, x.key).value, x.val, s); if o.Bad? then o else FieldsT(stream, es, o.state, g))
  {
    assert ([x] + es)[1..] == es;
  }

  /** An entry may be handled before those in front of it. */
  lemma {:induction false} MoveToFront<S(!new)>(stream: bool, tag: Bytes -> Tag, inv: S -> bool, pre: seq<Entry>, x: Entry,
                                               post: seq<Entry>, s: S, g: (Bytes, Msg, S) -> Out<S>)
    requires Commutes(tag, inv, g) && inv(s)
    requires Readable(stream, pre) && AllKnown(stream, tag, pre)
    requires KeyOf(stream, x.key).Some? && EntryTag(stream, tag, x) != Unknown
    requires forall i :: 0 <= i < |pre| ==> EntryTag(stream, tag, pre[i]) != EntryTag(stream, tag, x)
    ensures Same(FieldsT(stream, pre + ([x] + post), s, g), FieldsT(stream, [x] + (pre + post), s, g))
    decreases |pre|
  {
    hide FieldsT;
    if |pre| == 0 {
      assert pre + ([x] + post) == [x] + post && pre + post == post;
    } else {
      var y, pre' := pre[0], pre[1..];
      var kx, ky := KeyOf(stream, x.key).value, KeyOf(stream, y.key).value;
      assert pre + ([x] + post) == [y] + (pre' + ([x] + post));
      assert pre + post == [y] + (pre' + post);
      ConsT(stream, y, pre' + ([x] + post), s, g);
      ConsT(stream, x, pre + post, s, g);
      var oy, ox := g(ky, y.val, s), g(kx, x.val, s);
      assert Same(Then(oy, kx, x.val, g), Then(ox, ky, y.val, g));
      if oy.Good? {
        MoveToFront(stream, tag, inv, pre', x, post, oy.state, g);
        ConsT(stream, x, pre' + post, oy.state, g);
      }
      if ox.Good? {
        ConsT(stream, y, pre' + post, ox.state, g);
      }
    }
  }

  lemma SameLength(es: seq<Entry>, fs: seq<Entry>)
    requires multiset(es) == multiset(fs)
    ensures |es| == |fs|
  {
    assert |multiset(es)| == |multiset(fs)|;
  }

  lemma Remove(es: seq<Entry>, i: nat)
    requires i < |es|
    ensures es == es[..i] + ([es[i]] + es[i + 1..]) && multiset(es) == multiset{es[i]} + multiset(es[..i] + es[i + 1..])
  {
    assert es == es[..i] + ([es[i]] + es[i + 1..]);
  }

  lemma Cancel(x: Entry, a: multiset<Entry>, b: multiset<Entry>)
    requires multiset{x} + a == multiset{x} + b
    ensures a == b
  {
    assert a == multiset{x} + a - multiset{x} && b == multiset{x} + b - multiset{x};
  }

  /** Find the first of `fs` in `es`. */
  lemma Pick(es: seq<Entry>, fs: seq<Entry>) returns (i: nat)
    requires |fs| > 0 && multiset(es) == multiset(fs)
    ensures i < |es| && es[i] == fs[0] && es == es[..i] + ([fs[0]] + es[i + 1..]) && fs == [fs[0]] + fs[1..]
    ensures multiset(es[..i] + es[i + 1..]) == multiset(fs[1..])
  {
    assert fs[0] in multiset(fs) && fs[0] in multiset(es);
    i :| 0 <= i < |es| && es[i] == fs[0];
    Remove(es, i);
    Remove(fs, 0);
    assert fs[..0] + fs[1..] == fs[1..];
    Cancel(fs[0], multiset(es[..i] + es[i + 1..]), multiset(fs[1..]));
  }

  lemma RemoveKeeps(stream: bool, tag: Bytes -> Tag, es: seq<Entry>, i: nat)
    requires i < |es| && Readable(stream, es) && AllKnown(stream, tag, es) && Distinct(stream, tag, es)
    ensures
      var rest := es[..i] + es[i + 1..];
      && Readable(stream, rest) && AllKnown(stream, tag, rest) && Distinct(stream, tag, rest)
      && Readable(stream, es[..i]) && AllKnown(stream, tag, es[..i])
      && forall j :: 0 <= j < i ==> EntryTag(stream, tag, es[..i][j]) != EntryTag(stream, tag, es[i])
  {
    hide EntryTag;
    var rest := es[..i] + es[i + 1..];
    assert forall j :: 0 <= j < |rest| ==> rest[j] == (if j < i then es[j] else es[j + 1]);
  }

  lemma {:induction false} Permute<S(!new)>(stream: bool, tag: Bytes -> Tag, inv: S -> bool, es: seq<Entry>, fs: seq<Entry>, s: S,
                                           g: (Bytes, Msg, S) -> Out<S>)
    requires Commutes(tag, inv, g) && inv(s)
    requires Readable(stream, es) && AllKnown(stream, tag, es) && Distinct(stream, tag, es)
    requires multiset(es) == multiset(fs)
    ensures Same(FieldsT(stream, es, s, g), FieldsT(stream, fs, s, g))
    decreases |es|
  {
    hide FieldsT, EntryTag, KeyOf, Commutes, Readable, AllKnown, Distinct;
    SameLength(es, fs);
    if |fs| == 0 {
      assert es == fs;
    } else {
      var x, rest := fs[0], fs[1..];
      var i := Pick(es, fs);
      var pre, post := es[..i], es[i + 1..];
      RemoveKeeps(stream, tag, es, i);
      KnownAt(stream, tag, es, i);
      MoveToFront(stream, tag, inv, pre, x, post, s, g);
      ConsT(stream, x, pre + post, s, g);
      ConsT(stream, x, rest, s, g);
      var o := g(KeyOf(stream, x.key).value, x.val, s);
      if o.Good? {
        StillInv(stream, tag, inv, x, s, g);
        Permute(stream, tag, inv, pre + post, rest, o.state, g);
      }
    }
  }

  lemma KnownAt(stream: bool, tag: Bytes -> Tag, es: seq<Entry>, i: nat)
    requires i < |es| && Readable(stream, es) && AllKnown(stream, tag, es)
    ensures KeyOf(stream, es[i].key).Some? && EntryTag(stream, tag, es[i]) != Unknown
  {
  }

  lemma StillInv<S(!new)>(stream: bool, tag: Bytes -> Tag, inv: S -> bool, x: Entry, s: S, g: (Bytes, Msg, S) -> Out<S>)
    requires Commutes(tag, inv, g) && inv(s) && KeyOf(stream, x.key).Some? && EntryTag(stream, tag, x) != Unknown
    ensures var o := g(KeyOf(stream, x.key).value, x.val, s); o.Good? ==> inv(o.state)
  {
  }

  /** Order and unknown entries do not matter. */
  lemma ShuffleSame<S(!new)>(stream: bool, tag: Bytes -> Tag, inv: S -> bool, es: seq<Entry>, fs: seq<Entry>, s: S,
                             g: (Bytes, Msg, S) -> Out<S>)
    requires SkipsUnknown(tag, g) && Commutes(tag, inv, g) && inv(s)
    requires Shuffled(stream, tag, es, fs)
    ensures Same(FieldsT(stream, es, s, g), FieldsT(stream, fs, s, g))
  {
    DropUnknown(stream, tag, es, s, g);
    DropUnknown(stream, tag, fs, s, g);
    Permute(stream, tag, inv, Known(stream, tag, es), Known(stream, tag, fs), s, g);
  }

  /** The same keys, with values that are handled alike. */
  ghost predicate Alike<S(!new)>(stream: bool, inv: S -> bool, es: seq<Entry>, fs: seq<Entry>, g: (Bytes, Msg, S) -> Out<S>) {
    && |es| == |fs|
    && forall i :: 0 <= i < |es| ==> EntryAlike(stream, inv, es[i], fs[i], g)
  }

  ghost predicate EntryAlike<S(!new)>(stream: bool, inv: S -> bool, e: Entry, f: Entry, g: (Bytes, Msg, S) -> Out<S>) {
    && e.key == f.key
    && (KeyOf(stream, e.key).Some? ==>
          forall s :: inv(s) ==>
            && Same(g(KeyOf(stream, e.key).value, e.val, s), g(KeyOf(stream, e.key).value, f.val, s))
            && (g(KeyOf(stream, e.key).value, e.val, s).Good? ==> inv(g(KeyOf(stream, e.key).value, e.val, s).state)))
  }

  lemma {:induction false} AlikeSame<S(!new)>(stream: bool, inv: S -> bool, es: seq<Entry>, fs: seq<Entry>, s: S,
                                             g: (Bytes, Msg, S) -> Out<S>)
    requires Alike(stream, inv, es, fs, g) && inv(s)
    ensures Same(FieldsT(stream, es, s, g), FieldsT(stream, fs, s, g))
    decreases |es|
  {
    if |es| == 0 {
    } else {
      assert EntryAlike(stream, inv, es[0], fs[0], g);
      if KeyOf(stream, es[0].key).Some? {
        var o := g(KeyOf(stream, es[0].key).value, es[0].val, s);
        if o.Good? {
          AlikeSame(stream, inv, es[1..], fs[1..], o.state, g);
        }
      }
    }
  }

  lemma {:induction false} ItemsSame<S(!new)>(i: nat, ms: seq<Msg>, ns: seq<Msg>, inv: S -> bool, s: S, g: (nat, Msg, S) -> Out<S>)
    requires |ms| == |ns| && inv(s)
    requires forall j: nat, t: S :: j < |ms| && inv(t) ==>
               Same(g(i + j, ms[j], t), g(i + j, ns[j], t)) && (g(i + j, ms[j], t).Good? ==> inv(g(i + j, ms[j], t).state))
    ensures Same(ItemsT(i, ms, s, g), ItemsT(i, ns, s, g))
    decreases |ms|
  {
    if |ms| == 0 {
    } else {
      var o := g(i + 0, ms[0], s);
      assert Same(g(i + 0, ms[0], s), g(i + 0, ns[0], s));
      if o.Good? {
        forall j: nat, t: S | j < |ms[1..]| && inv(t)
          ensures Same(g(i + 1 + j, ms[1..][j], t), g(i + 1 + j, ns[1..][j], t))
               && (g(i + 1 + j, ms[1..][j], t).Good? ==> inv(g(i + 1 + j, ms[1..][j], t).state))
        {
          assert i + 1 + j == i + (j + 1) && ms[1..][j] == ms[j + 1] && ns[1..][j] == ns[j + 1];
        }
        ItemsSame(i + 1, ms[1..], ns[1..], inv, o.state, g);
      }
    }
  }

  // ------------------------------------------------------------------- layers

  /** Two objects a layer is read from alike. */
  ghost predicate LayerLike(stream: bool, m: Msg, n: Msg) {
    m == n || (m.Dict? && n.Dict? && Shuffled(stream, LayerTag, m.entries, n.entries))
  }

  lemma LayerCommutes()
    ensures SkipsUnknown(LayerTag, LayerFieldT)
    ensures Commutes(LayerTag, (l: Layer) => true, LayerFieldT)
  {
  }

  lemma LayerSame(stream: bool, m: Msg, n: Msg, z: Layer)
    requires LayerLike(stream, m, n)
    ensures Same(DecodeLayerT(stream, m, z), DecodeLayerT(stream, n, z))
  {
    if m != n {
      hide Shuffled, Commutes, SkipsUnknown, LayerFieldT;
      LayerCommutes();
      ShuffleSame(stream, LayerTag, (l: Layer) => true, m.entries, n.entries, z, LayerFieldT);
    }
  }

  /** Arrays of layers, layer by layer alike. */
  ghost predicate LayersLike(stream: bool, m: Msg, n: Msg) {
    m == n || (m.Arr? && n.Arr? && |m.items| == |n.items| && forall i :: 0 <= i < |m.items| ==> LayerLike(stream, m.items[i], n.items[i]))
  }

  lemma LayerItemSame(stream: bool, i: nat, m: Msg, n: Msg, s: Slice<Layer>)
    requires LayerLike(stream, m, n)
    ensures Same(LayerItemT(stream, i, m, s), LayerItemT(stream, i, n, s))
  {
    hide DecodeLayerT, LayerLike;
    if i < |s.cells| {
      LayerSame(stream, m, n, s.cells[i]);
    }
  }

  lemma LayerItemsSame(stream: bool, ms: seq<Msg>, ns: seq<Msg>, s: Slice<Layer>)
    requires |ms| == |ns| && forall i :: 0 <= i < |ms| ==> LayerLike(stream, ms[i], ns[i])
    ensures Same(ItemsT(0, ms, s, LayerItemTOf(stream)), ItemsT(0, ns, s, LayerItemTOf(stream)))
  {
    hide LayerItemT, LayerLike, ItemsT;
    forall j: nat, t: Slice<Layer> | j < |ms|
      ensures Same(LayerItemT(stream, j, ms[j], t), LayerItemT(stream, j, ns[j], t))
    {
      LayerItemSame(stream, j, ms[j], ns[j], t);
    }
    ItemsSame(0, ms, ns, (t: Slice<Layer>) => true, s, LayerItemTOf(stream));
  }

  lemma LayersSame(stream: bool, m: Msg, n: Msg, s: Slice<Layer>)
    requires LayersLike(stream, m, n)
    ensures Same(InfoFieldT(stream, LAYERS, m, s), InfoFieldT(stream, LAYERS, n, s))
  {
    hide LayerLike, ItemsT, Resize, LayerItemTOf;
    if m != n {
      LayerItemsSame(stream, m.items, n.items, Resize(s, |m.items|, ZERO_LAYER));
    }
  }

  /** Values of an `extended_info` entry alike. */
  ghost predicate InfoEntryLike(stream: bool, e: Entry, f: Entry) {
    e.key == f.key && (e.val == f.val || (EntryTag(stream, InfoTag, e) == Layers && LayersLike(stream, e.val, f.val)))
  }

  ghost predicate InfoEntriesLike(stream: bool, es: seq<Entry>, fs: seq<Entry>) {
    |es| == |fs| && forall i :: 0 <= i < |es| ==> InfoEntryLike(stream, es[i], fs[i])
  }

  /** Rearranged at this level and inside every layer. */
  ghost predicate InfoLike(stream: bool, m: Msg, n: Msg) {
    m == n || (m.Dict? && n.Dict? && exists mid: seq<Entry> ::
                 InfoEntriesLike(stream, m.entries, mid) && Shuffled(stream, InfoTag, mid, n.entries))
  }

  lemma InfoEntrySame(stream: bool, e: Entry, f: Entry)
    requires InfoEntryLike(stream, e, f)
    ensures EntryAlike(stream, (t: Slice<Layer>) => true, e, f, InfoFieldTOf(stream))
  {
    hide LayersLike, InfoFieldT;
    if e.val != f.val {
      assert KeyOf(stream, e.key) == Some(LAYERS);
      forall t: Slice<Layer>
        ensures Same(InfoFieldT(stream, LAYERS, e.val, t), InfoFieldT(stream, LAYERS, f.val, t))
      {
        LayersSame(stream, e.val, f.val, t);
      }
    }
  }

  lemma InfoCommutes(stream: bool)
    ensures SkipsUnknown(InfoTag, InfoFieldTOf(stream))
    ensures Commutes(InfoTag, (t: Slice<Layer>) => true, InfoFieldTOf(stream))
  {
  }

  lemma InfoSame(stream: bool, m: Msg, n: Msg, s: Slice<Layer>)
    requires InfoLike(stream, m, n)
    ensures Same(DecodeInfoT(stream, m, s), DecodeInfoT(stream, n, s))
  {
    if m != n {
      hide FieldsT, InfoEntryLike, EntryAlike, Shuffled, SkipsUnknown, Commutes, InfoFieldTOf;
      var mid: seq<Entry> :| InfoEntriesLike(stream, m.entries, mid) && Shuffled(stream, InfoTag, mid, n.entries);
      var inv := (t: Slice<Layer>) => true;
      forall i | 0 <= i < |mid|
        ensures EntryAlike(stream, inv, m.entries[i], mid[i], InfoFieldTOf(stream))
      {
        InfoEntrySame(stream, m.entries[i], mid[i]);
      }
      InfoCommutes(stream);
      AlikeSame(stream, inv, m.entries, mid, s, InfoFieldTOf(stream));
      ShuffleSame(stream, InfoTag, inv, mid, n.entries, s, InfoFieldTOf(stream));
    }
  }

  // ------------------------------------------------------------------ volumes

  ghost predicate VolumeLike(stream: bool, m: Msg, n: Msg) {
    m == n || (m.Dict? && n.Dict? && Shuffled(stream, VolumeTag, m.entries, n.entries))
  }

  lemma VolumeSame(stream: bool, m: Msg, n: Msg, s: VolumeMem)
    requires VolumeLike(stream, m, n)
    ensures Same(DecodeVolumeT(stream, m, s), DecodeVolumeT(stream, n, s))
  {
    if m != n {
      hide Shuffled, Commutes, SkipsUnknown, VolumeFieldT;
      VolumeCommutes();
      ShuffleSame(stream, VolumeTag, (t: VolumeMem) => true, m.entries, n.entries, s, VolumeFieldT);
    }
  }

  lemma VolumeCommutes()
    ensures SkipsUnknown(VolumeTag, VolumeFieldT)
    ensures Commutes(VolumeTag, (t: VolumeMem) => true, VolumeFieldT)
  {
    hide StringMapT;
  }

  ghost predicate VolumesLike(stream: bool, m: Msg, n: Msg) {
    m == n || (m.Arr? && n.Arr? && |m.items| == |n.items| && forall i :: 0 <= i < |m.items| ==> VolumeLike(stream, m.items[i], n.items[i]))
  }

  lemma VolumesSame(stream: bool, m: Msg, n: Msg, s: Mem)
    requires VolumesLike(stream, m, n)
    ensures Same(DecodeVolumesT(stream, m, s), DecodeVolumesT(stream, n, s))
  {
    if m != n {
      hide DecodeVolumeT, VolumeLike;
      forall j: nat, t: Mem | j < |m.items|
        ensures Same(VolumeItemT(stream, j, m.items[j], t), VolumeItemT(stream, j, n.items[j], t))
      {
        if j < |t.z.extraVolumes.cells| {
          VolumeSame(stream, m.items[j], n.items[j], VolumeMem(t.z.extraVolumes.cells[j], t.store));
        }
      }
      ItemsSame(0, m.items, n.items, (t: Mem) => true, ResizeVolumes(s, |m.items|), VolumeItemTOf(stream));
    }
  }

  // ----------------------------------------------------- independent fields

  /** `z` with field `t` taken from `y`. */
  function Graft(t: Tag, z: Profile, y: Profile): Profile {
    match t
    case Registry => z.(registry := y.registry)
    case Repository => z.(repository := y.repository)
    case NetworkMode => z.(networkMode := y.networkMode)
    case Network => z.(network := y.network)
    case ExtendedInfo => z.(layers := y.layers)
    case Cwd => z.(cwd := y.cwd)
    case Binds => z.(binds := y.binds)
    case Container => z.(container := y.container)
    case Volume => z.(volume := y.volume)
    case _ => z.(extraVolumes := y.extraVolumes)
  }

  const EMPTY := Profile([], [], [], Nil, Slice([], 0), [], Slice([], 0), Nil, Nil, Slice([], 0))

  /** Nothing but field `t` of `z`, and no shared maps. */
  function Only(t: Tag, z: Profile): Mem { Mem(Graft(t, EMPTY, z), map[]) }

  /** `s` with field `t`, and the maps written on the way, taken from `b`. */
  function Merge(t: Tag, s: Mem, b: Mem): Mem { Mem(Graft(t, s.z, b.z), s.store + b.store) }

  lemma SetMapMerge(r: Ref, c: StrMap, store: Store)
    ensures
      var x, y := SetMap(r, c, store), SetMap(r, c, map[]);
      x.ref == y.ref && x.store == store + y.store && y.store.Keys <= RefAddrs(r) && RefAddrs(x.ref) <= RefAddrs(r)
  {
  }

  function RefAddrs(r: Ref): set<nat> { if r.Shared? then {r.addr} else {} }

  function CellAddrs(cells: seq<VolumeProfile>): set<nat> {
    set i | 0 <= i < |cells| && cells[i].properties.Shared? :: cells[i].properties.addr
  }

  /** The shared maps a field writes to. */
  function Addrs(t: Tag, z: Profile): set<nat> {
    match t
    case Network => RefAddrs(z.network)
    case Container => RefAddrs(z.container)
    case Volume => RefAddrs(z.volume)
    case ExtraVolumes => CellAddrs(z.extraVolumes.cells)
    case _ => {}
  }

  function MergeVolume(v: VolumeMem, store: Store): VolumeMem { VolumeMem(v.v, store + v.store) }

  /** A volume is read the same way whatever the other shared maps hold. */
  lemma VolumeFieldMerge(k: Bytes, m: Msg, v: VolumeProfile, store: Store)
    ensures
      var b := VolumeFieldT(k, m, VolumeMem(v, map[]));
      && VolumeFieldT(k, m, VolumeMem(v, store)) == MapOut(b, (x: VolumeMem) => MergeVolume(x, store))
      && b.state.store.Keys <= RefAddrs(v.properties) && RefAddrs(b.state.v.properties) <= RefAddrs(v.properties)
  {
    if VolumeTag(k) == Properties && m.Dict? {
      SetMapMerge(v.properties, PairsT(m.entries, map[]).state, store);
    }
    assert store + map[] == store;
  }

  lemma MergeAssoc(a: Store, b: Store, c: Store)
    ensures (a + b) + c == a + (b + c)
  {
  }

  lemma {:induction false} VolumeFieldsMerge(stream: bool, es: seq<Entry>, v: VolumeProfile, store: Store)
    ensures
      var b := FieldsT(stream, es, VolumeMem(v, map[]), VolumeFieldT);
      && FieldsT(stream, es, VolumeMem(v, store), VolumeFieldT) == MapOut(b, (x: VolumeMem) => MergeVolume(x, store))
      && b.state.store.Keys <= RefAddrs(v.properties) && RefAddrs(b.state.v.properties) <= RefAddrs(v.properties)
    decreases |es|
  {
    hide VolumeFieldT, RefAddrs;
    assert store + map[] == store;
    if |es| > 0 && KeyOf(stream, es[0].key).Some? {
      var k := KeyOf(stream, es[0].key).value;
      VolumeFieldMerge(k, es[0].val, v, store);
      var b := VolumeFieldT(k, es[0].val, VolumeMem(v, map[]));
      if b.Good? {
        VolumeFieldsMerge(stream, es[1..], b.state.v, store + b.state.store);
        VolumeFieldsMerge(stream, es[1..], b.state.v, b.state.store);
        MergeAssoc(store, b.state.store, FieldsT(stream, es[1..], VolumeMem(b.state.v, map[]), VolumeFieldT).state.store);
      }
    }
  }

  lemma SetCellAddrs(cells: seq<VolumeProfile>, i: nat, v: VolumeProfile)
    requires i < |cells| && RefAddrs(v.properties) <= RefAddrs(cells[i].properties)
    ensures CellAddrs(cells[i := v]) <= CellAddrs(cells) && RefAddrs(cells[i].properties) <= CellAddrs(cells)
  {
  }

  lemma VolumeItemMerge(stream: bool, i: nat, m: Msg, s: Mem)
    ensures
      var b := VolumeItemT(stream, i, m, Only(ExtraVolumes, s.z));
      && VolumeItemT(stream, i, m, s) == MapOut(b, (x: Mem) => Merge(ExtraVolumes, s, x))
      && b.state.z == Graft(ExtraVolumes, EMPTY, b.state.z)
      && b.state.store.Keys <= Addrs(ExtraVolumes, s.z) && Addrs(ExtraVolumes, b.state.z) <= Addrs(ExtraVolumes, s.z)
  {
    hide RefAddrs, CellAddrs, FieldsT;
    var cells := s.z.extraVolumes.cells;
    assert s.store + map[] == s.store;
    if i < |cells| {
      var v := cells[i];
      var b := DecodeVolumeT(stream, m, VolumeMem(v, map[]));
      if m.Dict? {
        VolumeFieldsMerge(stream, m.entries, v, s.store);
      }
      SetCellAddrs(cells, i, b.state.v);
    }
  }

  lemma {:induction false} VolumeItemsMerge(stream: bool, i: nat, ms: seq<Msg>, s: Mem)
    ensures
      var b := ItemsT(i, ms, Only(ExtraVolumes, s.z), VolumeItemTOf(stream));
      && ItemsT(i, ms, s, VolumeItemTOf(stream)) == MapOut(b, (x: Mem) => Merge(ExtraVolumes, s, x))
      && b.state.z == Graft(ExtraVolumes, EMPTY, b.state.z)
      && b.state.store.Keys <= Addrs(ExtraVolumes, s.z) && Addrs(ExtraVolumes, b.state.z) <= Addrs(ExtraVolumes, s.z)
    decreases |ms|
  {
    hide VolumeItemT, CellAddrs;
    assert s.store + map[] == s.store;
    if |ms| == 0 {
    } else {
      VolumeItemMerge(stream, i, ms[0], s);
      var b := VolumeItemT(stream, i, ms[0], Only(ExtraVolumes, s.z));
      if b.Good? {
        VolumeItemsMerge(stream, i + 1, ms[1..], Merge(ExtraVolumes, s, b.state));
        VolumeItemsMerge(stream, i + 1, ms[1..], b.state);
        MergeAssoc(s.store, b.state.store, ItemsT(i + 1, ms[1..], Only(ExtraVolumes, b.state.z), VolumeItemTOf(stream)).state.store);
      }
    }
  }

  lemma ResizeAddrs(s: Slice<VolumeProfile>, n: nat)
    ensures CellAddrs(Resize(s, n, ZERO_VOLUME).cells) <= CellAddrs(s.cells)
  {
  }

  lemma DecodeVolumesMerge(stream: bool, m: Msg, s: Mem)
    ensures
      var b := DecodeVolumesT(stream, m, Only(ExtraVolumes, s.z));
      && DecodeVolumesT(stream, m, s) == MapOut(b, (x: Mem) => Merge(ExtraVolumes, s, x))
      && b.state.store.Keys <= Addrs(ExtraVolumes, s.z) && Addrs(ExtraVolumes, b.state.z) <= Addrs(ExtraVolumes, s.z)
  {
    hide CellAddrs, ItemsT, VolumeItemTOf;
    assert s.store + map[] == s.store;
    if m.Arr? {
      ResizeAddrs(s.z.extraVolumes, |m.items|);
      VolumeItemsMerge(stream, 0, m.items, ResizeVolumes(s, |m.items|));
    }
  }

  lemma DecodeMapMerge(t: Tag, m: Msg, s: Mem)
    requires t in {Network, Container, Volume}
    ensures
      var b := DecodeMapAtT(t, m, Only(t, s.z));
      && DecodeMapAtT(t, m, s) == MapOut(b, (x: Mem) => Merge(t, s, x))
      && b.state.store.Keys <= Addrs(t, s.z) && Addrs(t, b.state.z) <= Addrs(t, s.z)
  {
    hide PairsT;
    assert s.store + map[] == s.store;
    if m.Dict? {
      SetMapMerge(MapAt(t, s.z), PairsT(m.entries, map[]).state, s.store);
    }
  }

  /** A field is decoded from and into its own part of the target. */
  lemma FieldMerge(stream: bool, k: Bytes, m: Msg, s: Mem)
    requires ProfileTag(k) != Unknown
    ensures IsField(ProfileTag(k))
    ensures
      var t := ProfileTag(k);
      var b := ProfileFieldT(stream, k, m, Only(t, s.z));
      && ProfileFieldT(stream, k, m, s) == MapOut(b, (x: Mem) => Merge(t, s, x))
      && b.state.store.Keys <= Addrs(t, s.z) && Addrs(t, b.state.z) <= Addrs(t, s.z)
  {
    TagIsField(k);
    hide ProfileTag, DecodeInfoT, DecodeBindsT, DecodeVolumesT, DecodeMapAtT, CellAddrs, RefAddrs;
    var t := ProfileTag(k);
    assert s.store + map[] == s.store;
    if t == ExtraVolumes {
      DecodeVolumesMerge(stream, m, s);
    } else if t in {Network, Container, Volume} {
      DecodeMapMerge(t, m, s);
    }
  }

  lemma TagIsField(k: Bytes)
    ensures ProfileTag(k) == Unknown || IsField(ProfileTag(k))
  {
  }

  /** No two fields of the target write to the same map object. */
  ghost predicate Apart(z: Profile) {
    forall t, u :: IsField(t) && IsField(u) && t != u ==> Addrs(t, z) !! Addrs(u, z)
  }

  lemma GraftParts(t: Tag, u: Tag, z: Profile, y: Profile)
    requires IsField(t) && IsField(u)
    ensures u != t ==> Addrs(u, Graft(t, z, y)) == Addrs(u, z)
    ensures u == t ==> Addrs(u, Graft(t, z, y)) == Addrs(u, y)
    ensures u != t ==> Only(u, Graft(t, z, y)) == Only(u, z)
  {
  }

  lemma GraftSwap(t: Tag, u: Tag, z: Profile, y: Profile, w: Profile)
    requires IsField(t) && IsField(u) && t != u
    ensures Graft(u, Graft(t, z, y), w) == Graft(t, Graft(u, z, w), y)
  {
  }

  lemma StoreSwap(s: Store, a: Store, b: Store)
    requires a.Keys !! b.Keys
    ensures (s + a) + b == (s + b) + a
  {
  }

  lemma StaysApart(t: Tag, s: Mem, b: Mem)
    requires IsField(t) && Apart(s.z) && Addrs(t, b.z) <= Addrs(t, s.z)
    ensures Apart(Merge(t, s, b).z)
  {
    hide Addrs, Graft;
    var z := Merge(t, s, b).z;
    forall u, v | IsField(u) && IsField(v) && u != v
      ensures Addrs(u, z) !! Addrs(v, z)
    {
      GraftParts(t, u, s.z, b.z);
      GraftParts(t, v, s.z, b.z);
    }
  }

  /** One field after another: each is decoded as if the target held nothing but that field. */
  lemma ThenMerge(stream: bool, k: Bytes, m: Msg, k': Bytes, m': Msg, s: Mem)
    requires ProfileTag(k) != Unknown && ProfileTag(k') != Unknown && ProfileTag(k) != ProfileTag(k')
    ensures
      var t, u, g := ProfileTag(k), ProfileTag(k'), ProfileFieldTOf(stream);
      var a, b := ProfileFieldT(stream, k, m, Only(t, s.z)), ProfileFieldT(stream, k', m', Only(u, s.z));
      var o := Then(g(k, m, s), k', m', g);
      && (a.Good? && b.Good? ==> o == Good(Merge(u, Merge(t, s, a.state), b.state)))
      && (a.Bad? || b.Bad? ==> o.Bad?)
      && a.state.store.Keys <= Addrs(t, s.z) && b.state.store.Keys <= Addrs(u, s.z) && IsField(t) && IsField(u)
  {
    hide ProfileFieldT, ProfileTag, Addrs, Graft, Only;
    var t, u := ProfileTag(k), ProfileTag(k');
    var a := ProfileFieldT(stream, k, m, Only(t, s.z));
    FieldMerge(stream, k, m, s);
    FieldMerge(stream, k', m', s);
    FieldMerge(stream, k', m', Merge(t, s, a.state));
    GraftParts(t, u, s.z, a.state.z);
  }

  lemma FieldsCommute(stream: bool, k: Bytes, m: Msg, k': Bytes, m': Msg, s: Mem)
    requires Apart(s.z) && ProfileTag(k) != Unknown && ProfileTag(k') != Unknown && ProfileTag(k) != ProfileTag(k')
    ensures
      var g := ProfileFieldTOf(stream);
      Same(Then(g(k, m, s), k', m', g), Then(g(k', m', s), k, m, g))
  {
    hide ProfileFieldT, ProfileTag, Addrs, Graft, Only, Then;
    var t, u := ProfileTag(k), ProfileTag(k');
    var a, b := ProfileFieldT(stream, k, m, Only(t, s.z)), ProfileFieldT(stream, k', m', Only(u, s.z));
    ThenMerge(stream, k, m, k', m', s);
    ThenMerge(stream, k', m', k, m, s);
    assert Addrs(t, s.z) !! Addrs(u, s.z);
    if a.Good? && b.Good? {
      GraftSwap(t, u, s.z, a.state.z, b.state.z);
      StoreSwap(s.store, a.state.store, b.state.store);
    }
  }

  lemma ProfileCommutes(stream: bool)
    ensures SkipsUnknown(ProfileTag, ProfileFieldTOf(stream))
    ensures Commutes(ProfileTag, (s: Mem) => Apart(s.z), ProfileFieldTOf(stream))
  {
    hide Apart, ProfileTag;
    forall k: Bytes, m: Msg, s: Mem | Apart(s.z) && ProfileTag(k) != Unknown && ProfileFieldT(stream, k, m, s).Good?
      ensures Apart(ProfileFieldT(stream, k, m, s).state.z)
    {
      FieldApart(stream, k, m, s);
    }
    var g := ProfileFieldTOf(stream);
    forall k: Bytes, m: Msg, k': Bytes, m': Msg, s: Mem |
      Apart(s.z) && ProfileTag(k) != Unknown && ProfileTag(k') != Unknown && ProfileTag(k) != ProfileTag(k')
      ensures Same(Then(g(k, m, s), k', m', g), Then(g(k', m', s), k, m, g))
    {
      FieldsCommute(stream, k, m, k', m', s);
    }
  }

  lemma FieldApart(stream: bool, k: Bytes, m: Msg, s: Mem)
    requires Apart(s.z)
    ensures Apart(ProfileFieldT(stream, k, m, s).state.z)
  {
    if ProfileTag(k) != Unknown {
      hide ProfileFieldT, Apart, ProfileTag;
      FieldMerge(stream, k, m, s);
      StaysApart(ProfileTag(k), s, ProfileFieldT(stream, k, m, Only(ProfileTag(k), s.z)).state);
    }
  }

  // ------------------------------------------------------------ main results

  ghost predicate ProfileEntryLike(stream: bool, e: Entry, f: Entry) {
    && e.key == f.key
    && (|| e.val == f.val
        || (EntryTag(stream, ProfileTag, e) == ExtendedInfo && InfoLike(stream, e.val, f.val))
        || (EntryTag(stream, ProfileTag, e) == ExtraVolumes && VolumesLike(stream, e.val, f.val)))
  }

  ghost predicate ProfileEntriesLike(stream: bool, es: seq<Entry>, fs: seq<Entry>) {
    |es| == |fs| && forall i :: 0 <= i < |es| ==> ProfileEntryLike(stream, es[i], fs[i])
  }

  /**
   `n` is `m` with the entries of its map, of its `extended_info`, of its layers
   and of its extra volumes permuted, and with unknown entries added or dropped
   at each of these levels.
   */
  ghost predicate ProfileLike(stream: bool, m: Msg, n: Msg) {
    m == n || (m.Dict? && n.Dict? && exists mid: seq<Entry> ::
                 ProfileEntriesLike(stream, m.entries, mid) && Shuffled(stream, ProfileTag, mid, n.entries))
  }

  lemma ProfileEntrySame(stream: bool, e: Entry, f: Entry)
    requires ProfileEntryLike(stream, e, f)
    ensures EntryAlike(stream, (s: Mem) => Apart(s.z), e, f, ProfileFieldTOf(stream))
  {
    hide InfoLike, VolumesLike, Apart, ProfileTag, DecodeInfoT, DecodeVolumesT;
    if KeyOf(stream, e.key).Some? {
      var k := KeyOf(stream, e.key).value;
      forall s: Mem | Apart(s.z)
        ensures Same(ProfileFieldT(stream, k, e.val, s), ProfileFieldT(stream, k, f.val, s))
             && Apart(ProfileFieldT(stream, k, e.val, s).state.z)
      {
        FieldApart(stream, k, e.val, s);
        if e.val != f.val {
          if ProfileTag(k) == ExtendedInfo {
            InfoSame(stream, e.val, f.val, s.z.layers);
          } else {
            VolumesSame(stream, e.val, f.val, s);
          }
        }
      }
    }
  }

  lemma ReorderTree(stream: bool, m: Msg, n: Msg, s: Mem)
    requires ProfileLike(stream, m, n) && Apart(s.z)
    ensures Same(DecodeProfileT(stream, m, s), DecodeProfileT(stream, n, s))
  {
    if m != n {
      hide FieldsT, ProfileEntryLike, EntryAlike, Shuffled, SkipsUnknown, Commutes, ProfileFieldTOf, Apart;
      var mid: seq<Entry> :| ProfileEntriesLike(stream, m.entries, mid) && Shuffled(stream, ProfileTag, mid, n.entries);
      var inv := (s: Mem) => Apart(s.z);
      forall i | 0 <= i < |mid|
        ensures EntryAlike(stream, inv, m.entries[i], mid[i], ProfileFieldTOf(stream))
      {
        ProfileEntrySame(stream, m.entries[i], mid[i]);
      }
      ProfileCommutes(stream);
      AlikeSame(stream, inv, m.entries, mid, s, ProfileFieldTOf(stream));
      ShuffleSame(stream, ProfileTag, inv, mid, n.entries, s, ProfileFieldTOf(stream));
    }
  }

  /** Both succeed with the same target, each leaving what followed it, or both fail. */
  ghost predicate SameDec<S>(d: Dec<S>, rest: Bytes, d': Dec<S>, rest': Bytes) {
    (d.Done? && d'.Done? && d.state == d'.state && d.rest == rest && d'.rest == rest') || (d.Fail? && d'.Fail?)
  }

  /**
   On bytes, from slices or from two streams, each buffered in its own way: if
   both can be got through they decode alike, and one that cannot is refused.
   */
  lemma Reorder(src: Source, src': Source, m: Msg, n: Msg, s: Mem, rest: Bytes, rest': Bytes)
    requires WellFormed(m) && WellFormed(n) && src.Stream? == src'.Stream? && ProfileLike(src.Stream?, m, n) && Apart(s.z)
    ensures
      var d, d' := DecodeProfile(src, Enc(m) + rest, s), DecodeProfile(src', Enc(n) + rest', s);
      && (ProfilePass(src, m, |rest|) && ProfilePass(src', n, |rest'|) ==> SameDec(d, rest, d', rest'))
      && (!ProfilePass(src, m, |rest|) ==> d.Fail?) && (!ProfilePass(src', n, |rest'|) ==> d'.Fail?)
  {
    hide ProfileLike, Apart, DecodeProfile, DecodeProfileT, Enc, WellFormed, ProfilePass;
    ReorderTree(src.Stream?, m, n, s);
    DecodeProfileRefine(src, m, s, rest);
    DecodeProfileRefine(src', n, s, rest');
  }

  /** So without the long extensions, or from slices, they always decode alike. */
  lemma ReorderHarmless(src: Source, src': Source, m: Msg, n: Msg, s: Mem, rest: Bytes, rest': Bytes)
    requires WellFormed(m) && WellFormed(n) && src.Stream? == src'.Stream? && ProfileLike(src.Stream?, m, n) && Apart(s.z)
    requires Harmless(src, m) && Harmless(src', n)
    ensures SameDec(DecodeProfile(src, Enc(m) + rest, s), rest, DecodeProfile(src', Enc(n) + rest', s), rest')
  {
    hide ProfileLike, Apart, DecodeProfile, Enc, WellFormed, ProfilePass, Harmless;
    Reorder(src, src', m, n, s, rest, rest');
    ProfileHarmless(src, m, |rest|);
    ProfileHarmless(src', n, |rest'|);
  }

  lemma {:induction false} LenConcat(es: seq<Entry>, fs: seq<Entry>)
    ensures LenEntries(es + fs) == LenEntries(es) + LenEntries(fs)
    decreases |es|
  {
    if |es| == 0 {
      assert es + fs == fs;
    } else {
      LenConcat(es[1..], fs);
      assert (es + fs)[1..] == es[1..] + fs;
    }
  }

  lemma {:induction false} PassConcat(stream: bool, es: seq<Entry>, fs: seq<Entry>, n: nat, p: FieldPass)
    ensures FieldsPass(stream, es + fs, n, p) <==>
      FieldsPass(stream, es, LenEntries(fs) + n, p) && FieldsPass(stream, fs, n, p)
    decreases |es|
  {
    if |es| == 0 {
      assert es + fs == fs;
    } else {
      PassConcat(stream, es[1..], fs, n, p);
      LenConcat(es[1..], fs);
      assert (es + fs)[1..] == es[1..] + fs;
    }
  }

  /**
   An unknown entry put into a profile that decodes from `src`.  The new object is
   another stream, so it is buffered in another way, `src'`.  The outcome is the
   same exactly when, buffered like that, the decoder gets past the new value and
   still past the unknown values before and behind it.
   */
  lemma UnknownExactly(
    src: Source, src': Source, w: nat, w': nat, pre: seq<Entry>, e: Entry, post: seq<Entry>, s: Mem, rest: Bytes)
    requires WellFormed(Dict(w, pre + post)) && WellFormed(Dict(w', pre + ([e] + post))) && src.Stream? == src'.Stream?
    requires KeyOf(src.Stream?, e.key).Some? && EntryTag(src.Stream?, ProfileTag, e) == Unknown
    requires DecodeProfile(src, Enc(Dict(w, pre + post)) + rest, s).Done?
    ensures
      var d, d' := DecodeProfile(src, Enc(Dict(w, pre + post)) + rest, s),
                   DecodeProfile(src', Enc(Dict(w', pre + ([e] + post))) + rest, s);
      d' == d <==>
      && Skippable(Looks(src'), e.val, LenEntries(post) + |rest|)
      && FieldsPass(src'.Stream?, pre, LenEntries([e] + post) + |rest|, ProfileFieldPassOf(src'))
      && FieldsPass(src'.Stream?, post, |rest|, ProfileFieldPassOf(src'))
  {
    hide DecodeProfile, DecodeProfileT, Enc, WellFormed, LenEntries, Skippable, FieldsPass, ProfileFieldPassOf, EntryTag, KeyOf;
    DecodeProfileRefine(src, Dict(w, pre + post), s, rest);
    DecodeProfileRefine(src', Dict(w', pre + ([e] + post)), s, rest);
    UnknownTree(src.Stream?, w, w', pre, e, post, s);
    PassConcat(src'.Stream?, pre, [e] + post, |rest|, ProfileFieldPassOf(src'));
    OnePass(src', e, post, |rest|);
  }

  lemma UnknownTree(stream: bool, w: nat, w': nat, pre: seq<Entry>, e: Entry, post: seq<Entry>, s: Mem)
    requires KeyOf(stream, e.key).Some? && EntryTag(stream, ProfileTag, e) == Unknown
    ensures DecodeProfileT(stream, Dict(w', pre + ([e] + post)), s) == DecodeProfileT(stream, Dict(w, pre + post), s)
  {
    ProfileCommutes(stream);
    hide SkipsUnknown, FieldsT, ProfileFieldTOf, Commutes;
    InsertUnknown(stream, ProfileTag, pre, e, post, s, ProfileFieldTOf(stream));
  }

  lemma OnePass(src: Source, e: Entry, post: seq<Entry>, n: nat)
    requires KeyOf(src.Stream?, e.key).Some? && EntryTag(src.Stream?, ProfileTag, e) == Unknown
    ensures FieldsPass(src.Stream?, [e] + post, n, ProfileFieldPassOf(src)) <==>
      Skippable(Looks(src), e.val, LenEntries(post) + n) && FieldsPass(src.Stream?, post, n, ProfileFieldPassOf(src))
  {
    assert ([e] + post)[1..] == post;
  }

  /** An unknown entry with a long extension, and one with a number. */
  const LONG := Entry(Str(0, [0x6c]), Ext(4, 0, []))
  const AHEAD := Entry(Str(0, [0x61]), Atom(0, []))

  lemma TwoUnknown(stream: bool)
    ensures KeyOf(stream, LONG.key).Some? && EntryTag(stream, ProfileTag, LONG) == Unknown
    ensures KeyOf(stream, AHEAD.key).Some? && EntryTag(stream, ProfileTag, AHEAD) == Unknown
    ensures EntryWellFormed(LONG) && EntryWellFormed(AHEAD) && Portable(AHEAD.val)
  {
    assert |REGISTRY| > 1;
  }

  lemma LongPass(src: Source, n: nat)
    requires src.Stream?
    ensures ProfilePass(src, Dict(0, [LONG] + []), n) <==> !src.full(6 + n)
    ensures ProfilePass(src, Dict(0, [AHEAD] + ([LONG] + [])), n) ==> !src.full(6 + n)
  {
    TwoUnknown(true);
    OnePass(src, LONG, [], n);
    OnePass(src, AHEAD, [LONG] + [], n);
    hide EntryTag, KeyOf, ProfileFieldPassOf;
    assert FieldsPass(true, [], n, ProfileFieldPassOf(src));
  }

  lemma LongTree(stream: bool, s: Mem)
    ensures DecodeProfileT(stream, Dict(0, [LONG] + []), s) == Good(s)
  {
    TwoUnknown(stream);
    hide EntryTag, KeyOf;
    UnknownTree(stream, 0, 0, [], LONG, [], s);
    assert [] + ([LONG] + []) == [LONG] + [];
  }

  /**
   A number put in front of an extension that was sized from the stream: in the
   new stream the extension is met with five bytes buffered, and decoding fails.
   */
  lemma MovedAlong(src: Source, src': Source, s: Mem, rest: Bytes)
    requires src.Stream? && src'.Stream? && !src.full(6 + |rest|) && src'.full(6 + |rest|)
    ensures WellFormed(Dict(0, [LONG] + [])) && WellFormed(Dict(0, [AHEAD] + ([LONG] + []))) && Portable(AHEAD.val)
    ensures DecodeProfile(src, Enc(Dict(0, [LONG] + [])) + rest, s).Done?
    ensures DecodeProfile(src', Enc(Dict(0, [AHEAD] + ([LONG] + []))) + rest, s).Fail?
  {
    hide EntryTag, KeyOf, Enc, WellFormed, DecodeProfile, DecodeProfileT, ProfilePass;
    TwoUnknown(true);
    NoEntries();
    ConsEntries(LONG, []);
    ConsEntries(AHEAD, [LONG] + []);
    DictEnc([LONG] + []);
    DictEnc([AHEAD] + ([LONG] + []));
    LongPass(src, |rest|);
    LongPass(src', |rest|);
    LongTree(true, s);
    DecodeProfileRefine(src, Dict(0, [LONG] + []), s, rest);
    DecodeProfileRefine(src', Dict(0, [AHEAD] + ([LONG] + [])), s, rest);
  }

  // ----------------------------------------------------- targets that matter

  function KeyFor(t: Tag): (k: Bytes)
    requires t in {Network, Container, Volume, ExtraVolumes}
    ensures k != [] && |k| < LENGTHS
  {
    match t case Network => NETWORK case Container => CONTAINER case Volume => VOLUME case _ => EXTRAVOLUMES
  }

  /** One entry, so that a map read last can be told from an empty one. */
  const ONE: Order := [([0x61], [0x62])]

  function NoVolumes(n: nat): (vs: seq<VolumeWalk>)
    ensures |vs| == n && forall i :: 0 <= i < n ==> vs[i] == VolumeWalk([], [])
  {
    if n == 0 then [] else [VolumeWalk([], [])] + NoVolumes(n - 1)
  }

  /** An object that empties every map field `u` points to. */
  function Clearing(u: Tag, z: Profile): Msg {
    if u == ExtraVolumes then VolumesTree(NoVolumes(|z.extraVolumes.cells|)) else MapTree([])
  }

  lemma KeyTags(t: Tag)
    requires t in {Network, Container, Volume, ExtraVolumes}
    ensures ProfileTag(KeyFor(t)) == t
  {
    Tags();
  }

  lemma AddrsTag(t: Tag, z: Profile, a: nat)
    requires IsField(t) && a in Addrs(t, z)
    ensures t in {Network, Container, Volume, ExtraVolumes}
  {
  }

  lemma ClearedVolumes(stream: bool, s: Mem, a: nat)
    requires a in CellAddrs(s.z.extraVolumes.cells)
    ensures
      var d := DecodeVolumesT(stream, Clearing(ExtraVolumes, s.z), s);
      d.Good? && Lookup(Shared(a), d.state.store) == map[]
      && d.state.z == s.z.(extraVolumes := d.state.z.extraVolumes)
  {
    var cells := s.z.extraVolumes.cells;
    var vs := NoVolumes(|cells|);
    var s' := ResizeVolumes(s, |cells|);
    assert s'.z.extraVolumes.cells[0..] == cells && s'.z == s.z.(extraVolumes := s'.z.extraVolumes) && s'.store == s.store;
    hide DecodeVolumesT, VolumesTree, Writes, LoadVolumes, ResizeVolumes, VolumeSites, CellAddrs, Lookup;
    VolumesArray(stream, vs, s);
    VolumesWrite(0, vs, s');
    ClearedSite(cells, s.store, a);
  }

  lemma ClearedSite(cells: seq<VolumeProfile>, store: Store, a: nat)
    requires a in CellAddrs(cells)
    ensures Lookup(Shared(a), Writes(VolumeSites(cells, NoVolumes(|cells|)), store)) == map[]
  {
    var sites := VolumeSites(cells, NoVolumes(|cells|));
    WritesAgreeing(sites, store);
    hide Writes;
    var i :| 0 <= i < |cells| && cells[i].properties == Shared(a);
    assert Lookup(Written(sites[i]), Writes(sites, store)) == map[];
  }

  /** Reading a clearing object leaves the map at `a` empty. */
  lemma ClearStep(stream: bool, u: Tag, s: Mem, z: Profile, a: nat, es: seq<Entry>)
    requires IsField(u) && a in Addrs(u, s.z) && s.z.extraVolumes == z.extraVolumes
    ensures u in {Network, Container, Volume, ExtraVolumes}
    ensures exists t: Mem {:trigger FieldsT(stream, es, t, ProfileFieldTOf(stream))} ::
              && FieldsT(stream, [Field(KeyFor(u), Clearing(u, z))] + es, s, ProfileFieldTOf(stream))
                 == FieldsT(stream, es, t, ProfileFieldTOf(stream))
              && Lookup(Shared(a), t.store) == map[]
              && forall v :: v in {Network, Container, Volume} && v != u ==> MapAt(v, t.z) == MapAt(v, s.z)
  {
    AddrsTag(u, s.z, a);
    KeyTags(u);
    hide FieldsT, ProfileTag;
    if u == ExtraVolumes {
      ClearedVolumes(stream, s, a);
      var d := DecodeVolumesT(stream, Clearing(u, z), s);
      FieldStep(stream, KeyFor(u), Clearing(u, z), es, s, d.state);
    } else {
      MapStep(stream, KeyFor(u), [], es, s);
    }
  }

  lemma FillStep(stream: bool, t: Tag, s: Mem, a: nat, es: seq<Entry>)
    requires t in {Network, Container, Volume} && MapAt(t, s.z) == Shared(a)
    ensures exists r: Mem {:trigger FieldsT(stream, es, r, ProfileFieldTOf(stream))} ::
              && FieldsT(stream, [Field(KeyFor(t), MapTree(ONE))] + es, s, ProfileFieldTOf(stream))
                 == FieldsT(stream, es, r, ProfileFieldTOf(stream))
              && Lookup(Shared(a), r.store) == ToMap(ONE)
              && r.z == s.z
  {
    KeyTags(t);
    hide FieldsT, ProfileTag;
    MapStep(stream, KeyFor(t), ONE, es, s);
    assert SetMapAt(t, s, SetMap(MapAt(t, s.z), ToMap(ONE), s.store)).z == s.z;
  }

  lemma TwoKnown(stream: bool, tag: Bytes -> Tag, e: Entry, f: Entry)
    requires EntryTag(stream, tag, e) != Unknown && EntryTag(stream, tag, f) != Unknown
    ensures Known(stream, tag, [e] + ([f] + [])) == [e] + ([f] + [])
  {
    var es := [e] + ([f] + []);
    assert es[1..] == [f] + [] && ([f] + [])[1..] == [];
    assert Known(stream, tag, []) == [];
    assert Known(stream, tag, [f] + []) == [f] + Known(stream, tag, []);
    assert Known(stream, tag, es) == [e] + Known(stream, tag, [f] + []);
  }

  lemma TwoShuffled(stream: bool, tag: Bytes -> Tag, e: Entry, f: Entry)
    requires EntryTag(stream, tag, e) != Unknown && EntryTag(stream, tag, f) != Unknown
    requires EntryTag(stream, tag, e) != EntryTag(stream, tag, f)
    ensures Shuffled(stream, tag, [e] + ([f] + []), [f] + ([e] + []))
  {
    TwoKnown(stream, tag, e, f);
    TwoKnown(stream, tag, f, e);
  }

  lemma SwappedLike(stream: bool, t: Tag, u: Tag, v: Msg, w: Msg)
    requires t in {Network, Container, Volume, ExtraVolumes} && u in {Network, Container, Volume, ExtraVolumes}
    requires t != u
    ensures
      var e, f := Field(KeyFor(t), v), Field(KeyFor(u), w);
      ProfileLike(stream, Dict(0, [e] + ([f] + [])), Dict(0, [f] + ([e] + [])))
  {
    hide ProfileTag, KeyFor, ProfileEntriesLike, Shuffled, EntryTag, Field;
    FieldTag(stream, t, v);
    FieldTag(stream, u, w);
    var e, f := Field(KeyFor(t), v), Field(KeyFor(u), w);
    SelfLike(stream, [e] + ([f] + []));
    TwoShuffled(stream, ProfileTag, e, f);
  }

  lemma FieldTag(stream: bool, t: Tag, v: Msg)
    requires t in {Network, Container, Volume, ExtraVolumes}
    ensures EntryTag(stream, ProfileTag, Field(KeyFor(t), v)) == t && t != Unknown
  {
    KeyTags(t);
    hide ProfileTag, KeyFor;
  }

  lemma SelfLike(stream: bool, es: seq<Entry>)
    ensures ProfileEntriesLike(stream, es, es)
  {
    hide InfoLike, VolumesLike, EntryTag;
  }

  lemma FillThenClear(stream: bool, t: Tag, u: Tag, s: Mem, a: nat)
    requires t in {Network, Container, Volume} && IsField(u) && MapAt(t, s.z) == Shared(a) && a in Addrs(u, s.z)
    ensures u in {Network, Container, Volume, ExtraVolumes}
    ensures
      var d := DecodeProfileT(stream, Dict(0, [Field(KeyFor(t), MapTree(ONE))] + ([Field(KeyFor(u), Clearing(u, s.z))] + [])), s);
      d.Good? && Lookup(Shared(a), d.state.store) == map[]
  {
    AddrsTag(u, s.z, a);
    hide FieldsT, KeyFor, Clearing, MapTree, ProfileFieldTOf, Addrs;
    var es := [Field(KeyFor(u), Clearing(u, s.z))] + [];
    FillStep(stream, t, s, a, es);
    var r: Mem :| FieldsT(stream, [Field(KeyFor(t), MapTree(ONE))] + es, s, ProfileFieldTOf(stream))
                  == FieldsT(stream, es, r, ProfileFieldTOf(stream)) && r.z == s.z;
    ClearStep(stream, u, r, s.z, a, []);
    var r': Mem :| FieldsT(stream, es, r, ProfileFieldTOf(stream)) == FieldsT(stream, [], r', ProfileFieldTOf(stream))
                   && Lookup(Shared(a), r'.store) == map[];
    NoFields(stream, r', ProfileFieldTOf(stream));
  }

  lemma ClearThenFill(stream: bool, t: Tag, u: Tag, s: Mem, a: nat)
    requires t in {Network, Container, Volume} && IsField(u) && t != u && MapAt(t, s.z) == Shared(a)
    requires a in Addrs(u, s.z)
    ensures u in {Network, Container, Volume, ExtraVolumes}
    ensures
      var d := DecodeProfileT(stream, Dict(0, [Field(KeyFor(u), Clearing(u, s.z))] + ([Field(KeyFor(t), MapTree(ONE))] + [])), s);
      d.Good? && Lookup(Shared(a), d.state.store) == ToMap(ONE)
  {
    AddrsTag(u, s.z, a);
    hide FieldsT, KeyFor, Clearing, MapTree, ProfileFieldTOf, Addrs;
    var es := [Field(KeyFor(t), MapTree(ONE))] + [];
    ClearStep(stream, u, s, s.z, a, es);
    var q: Mem :| FieldsT(stream, [Field(KeyFor(u), Clearing(u, s.z))] + es, s, ProfileFieldTOf(stream))
                  == FieldsT(stream, es, q, ProfileFieldTOf(stream)) && MapAt(t, q.z) == MapAt(t, s.z);
    FillStep(stream, t, q, a, []);
    var q': Mem :| FieldsT(stream, es, q, ProfileFieldTOf(stream)) == FieldsT(stream, [], q', ProfileFieldTOf(stream))
                   && Lookup(Shared(a), q'.store) == ToMap(ONE);
    NoFields(stream, q', ProfileFieldTOf(stream));
  }

  /** Two fields that write to the same map object: whichever comes last wins. */
  lemma Clash(stream: bool, t: Tag, u: Tag, s: Mem, a: nat) returns (m: Msg, n: Msg)
    requires t in {Network, Container, Volume} && IsField(u) && t != u && a in Addrs(t, s.z) && a in Addrs(u, s.z)
    ensures ProfileLike(stream, m, n) && !Same(DecodeProfileT(stream, m, s), DecodeProfileT(stream, n, s))
    ensures Portable(m) && Portable(n)
    ensures |s.z.extraVolumes.cells| < LENGTHS ==> WellFormed(m) && WellFormed(n)
  {
    AddrsTag(u, s.z, a);
    assert MapAt(t, s.z) == Shared(a);
    hide ProfileLike, DecodeProfileT, KeyFor, Clearing, MapTree, Addrs, Portable, WellFormed;
    BothPrint(KeyFor(t), KeyFor(u), u, s.z);
    var e, f := Field(KeyFor(t), MapTree(ONE)), Field(KeyFor(u), Clearing(u, s.z));
    m, n := Dict(0, [e] + ([f] + [])), Dict(0, [f] + ([e] + []));
    SwappedLike(stream, t, u, MapTree(ONE), Clearing(u, s.z));
    FillThenClear(stream, t, u, s, a);
    ClearThenFill(stream, t, u, s, a);
    OneEntry();
  }

  lemma TwoFields(k: Bytes, v: Msg, k': Bytes, v': Msg)
    requires |k| < LENGTHS && |k'| < LENGTHS && Portable(v) && Portable(v')
    ensures
      var m := Dict(0, [Field(k, v)] + ([Field(k', v')] + []));
      Portable(m) && (WellFormed(v) && WellFormed(v') ==> WellFormed(m))
  {
    var es := [Field(k', v')] + [];
    NonePortable();
    ConsPortable(k', v', []);
    ConsPortable(k, v, es);
    DictPortable(0, [Field(k, v)] + es);
    hide WellFormed, Portable, Enc, EncEntry;
    if WellFormed(v) && WellFormed(v') {
      FieldEnc(k, v, Enc(v));
      FieldEnc(k', v', Enc(v'));
      ConsEntries(Field(k', v'), []);
      ConsEntries(Field(k, v), es);
      DictEnc([Field(k, v)] + es);
    }
  }

  lemma ClearingPrints(u: Tag, z: Profile)
    ensures Portable(Clearing(u, z)) && (|z.extraVolumes.cells| < LENGTHS ==> WellFormed(Clearing(u, z)))
  {
    if u == ExtraVolumes {
      var vs := NoVolumes(|z.extraVolumes.cells|);
      VolumesPortable(vs);
      ArrPortable(HeadWidth(|vs|), VolumeTrees(vs));
      hide VolumeTrees, Portable, WellFormed;
      VolumeTreesEnc(vs);
      if |vs| < LENGTHS {
        ArrEnc(VolumeTrees(vs));
      }
    } else {
      MapPortable([]);
      MapTreeEnc([]);
    }
  }

  lemma BothPrint(k: Bytes, k': Bytes, u: Tag, z: Profile)
    requires |k| < LENGTHS && |k'| < LENGTHS
    ensures
      var e, f := Field(k, MapTree(ONE)), Field(k', Clearing(u, z));
      var m, n := Dict(0, [e] + ([f] + [])), Dict(0, [f] + ([e] + []));
      Portable(m) && Portable(n) && (|z.extraVolumes.cells| < LENGTHS ==> WellFormed(m) && WellFormed(n))
  {
    MapPortable(ONE);
    MapTreeEnc(ONE);
    hide MapTree, Clearing, Portable, WellFormed;
    ClearingPrints(u, z);
    TwoFields(k, MapTree(ONE), k', Clearing(u, z));
    TwoFields(k', Clearing(u, z), k, MapTree(ONE));
  }

  lemma OneEntry()
    ensures ToMap(ONE) != map[]
  {
    assert Added(map[], ONE) == Added(map[[0x61] := [0x62]], ONE[1..]);
    assert [0x61] in map[[0x61] := [0x62]];
  }

  lemma NotApart(stream: bool, s: Mem) returns (m: Msg, n: Msg)
    requires !Apart(s.z)
    ensures ProfileLike(stream, m, n) && !Same(DecodeProfileT(stream, m, s), DecodeProfileT(stream, n, s))
    ensures Portable(m) && Portable(n)
    ensures |s.z.extraVolumes.cells| < LENGTHS ==> WellFormed(m) && WellFormed(n)
  {
    hide ProfileLike, DecodeProfileT, Addrs, Portable, WellFormed;
    var t, u :| IsField(t) && IsField(u) && t != u && !(Addrs(t, s.z) !! Addrs(u, s.z));
    var a :| a in Addrs(t, s.z) && a in Addrs(u, s.z);
    AddrsTag(t, s.z, a);
    AddrsTag(u, s.z, a);
    if t != ExtraVolumes {
      m, n := Clash(stream, t, u, s, a);
    } else {
      m, n := Clash(stream, u, t, s, a);
    }
  }

  /** Order is irrelevant for a target exactly when no two of its fields write to the same map object. */
  lemma ReorderExactlyTree(stream: bool, s: Mem)
    ensures Apart(s.z) <==>
            forall m, n :: ProfileLike(stream, m, n) ==> Same(DecodeProfileT(stream, m, s), DecodeProfileT(stream, n, s))
  {
    hide Apart, ProfileLike, DecodeProfileT;
    if Apart(s.z) {
      forall m, n | ProfileLike(stream, m, n)
        ensures Same(DecodeProfileT(stream, m, s), DecodeProfileT(stream, n, s))
      {
        ReorderTree(stream, m, n, s);
      }
    } else {
      var m, n := NotApart(stream, s);
    }
  }

  /** Whatever the decoder can be sent and get through: order and unknown entries do not matter. */
  ghost predicate OrderIrrelevant(src: Source, src': Source, s: Mem, rest: Bytes, rest': Bytes) {
    forall m, n ::
      && WellFormed(m) && WellFormed(n) && ProfileLike(src.Stream?, m, n)
      && ProfilePass(src, m, |rest|) && ProfilePass(src', n, |rest'|) ==>
      SameDec(DecodeProfile(src, Enc(m) + rest, s), rest, DecodeProfile(src', Enc(n) + rest', s), rest')
  }

  /** The same on bytes.  An array has fewer than 2^32 items, so no cell beyond those is ever written. */
  lemma ReorderExactly(src: Source, src': Source, s: Mem, rest: Bytes, rest': Bytes)
    requires src.Stream? == src'.Stream?
    ensures Apart(s.z) ==> OrderIrrelevant(src, src', s, rest, rest')
    ensures OrderIrrelevant(src, src', s, rest, rest') && |s.z.extraVolumes.cells| < LENGTHS ==> Apart(s.z)
  {
    hide Apart, ProfileLike, DecodeProfile, DecodeProfileT, Enc, WellFormed, ProfilePass, Portable;
    if Apart(s.z) {
      forall m, n |
        && WellFormed(m) && WellFormed(n) && ProfileLike(src.Stream?, m, n)
        && ProfilePass(src, m, |rest|) && ProfilePass(src', n, |rest'|)
        ensures SameDec(DecodeProfile(src, Enc(m) + rest, s), rest, DecodeProfile(src', Enc(n) + rest', s), rest')
      {
        Reorder(src, src', m, n, s, rest, rest');
      }
    } else if |s.z.extraVolumes.cells| < LENGTHS {
      var m, n := NotApart(src.Stream?, s);
      ProfileHarmless(src, m, |rest|);
      ProfileHarmless(src', n, |rest'|);
      DecodeProfileRefine(src, m, s, rest);
      DecodeProfileRefine(src', n, s, rest');
    }
  }
}
