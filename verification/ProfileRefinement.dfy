/**
 The byte decoder of the profile run on a printed tree does what the tree decoder
 does, for accepted and refused trees alike, down to the half-written target an
 error leaves behind, if it can get past every value it has no field for; and it
 fails if it cannot.  This holds for every buffering of a stream.
 */
module ProfileRefinement {
  import opened Options
  import opened MessagePack
  import opened ProfileDecoder
  import opened DecoderLoops

  lemma {:induction false} PairsRefine(es: seq<Entry>, acc: StrMap, rest: Bytes)
    requires AllWellFormed(es)
    ensures Pairs(|es|, EncEntries(es) + rest, acc) == Lift(PairsT(es, acc), rest)
    decreases |es|
  {
    if |es| == 0 {
      assert EncEntries(es) + rest == rest;
    } else {
      var Entry(key, val) := es[0];
      var tail := EncEntries(es[1..]) + rest;
      assert EntryWellFormed(es[0]);
      assert EncEntries(es) + rest == Enc(key) + (Enc(val) + tail);
      ReadStringEnc(key, Enc(val) + tail);
      ReadStringEnc(val, tail);
      if StrOf(key).Some? && StrOf(val).Some? {
        PairsRefine(es[1..], acc[StrOf(key).value := StrOf(val).value], rest);
      }
    }
  }

  lemma StringMapRefine(m: Msg, s: Slot, rest: Bytes)
    requires WellFormed(m)
    ensures StringMap(Enc(m) + rest, s) == Lift(StringMapT(m, s), rest)
  {
    ReadMapHeaderEnc(m, rest);
    if m.Dict? {
      PairsRefine(m.entries, map[], rest);
    }
  }

  lemma SkipRefine<S>(src: Source, m: Msg, s: S, rest: Bytes)
    requires WellFormed(m)
    ensures Follows(Skippable(Looks(src), m, |rest|), SkipField(src, Enc(m) + rest, s), Good(s), rest)
  {
    SkipEnc(Looks(src), m, rest);
  }

  lemma LayerFieldRefines(src: Source)
    ensures FieldRefines(LayerFieldOf(src), LayerFieldT, LayerFieldPassOf(src))
  {
    hide Enc, SkipField, ReadString, ReadUint, WellFormed, Skippable, StrOf, UintOf;
    forall k: Bytes, m: Msg, z: Layer, rest: Bytes | WellFormed(m)
      ensures Follows(LayerFieldPass(src, k, m, |rest|), LayerField(src, k, Enc(m) + rest, z), LayerFieldT(k, m, z), rest)
    {
      ReadStringEnc(m, rest);
      ReadUintEnc(m, rest);
      SkipRefine(src, m, z, rest);
    }
  }

  lemma DecodeLayerRefine(src: Source, m: Msg, z: Layer, rest: Bytes)
    requires WellFormed(m)
    ensures Follows(LayerPass(src, m, |rest|), DecodeLayer(src, Enc(m) + rest, z), DecodeLayerT(src.Stream?, m, z), rest)
  {
    LayerFieldRefines(src);
    StructRefine(src, m, z, rest, LayerFieldOf(src), LayerFieldT, LayerFieldPassOf(src));
  }

  lemma LayerItemRefines(src: Source)
    ensures ItemRefines(LayerItemOf(src), LayerItemTOf(src.Stream?), LayerPassOf(src))
  {
    hide LayerPass, DecodeLayer, DecodeLayerT;
    forall i: nat, m: Msg, s: Slice<Layer>, rest: Bytes | WellFormed(m)
      ensures Follows(LayerPass(src, m, |rest|), LayerItem(src, i, Enc(m) + rest, s), LayerItemT(src.Stream?, i, m, s), rest)
    {
      if i < |s.cells| {
        DecodeLayerRefine(src, m, s.cells[i], rest);
      }
    }
  }

  lemma InfoFieldRefine(src: Source, k: Bytes, m: Msg, s: Slice<Layer>, rest: Bytes)
    requires WellFormed(m)
    ensures Follows(InfoFieldPass(src, k, m, |rest|), InfoField(src, k, Enc(m) + rest, s), InfoFieldT(src.Stream?, k, m, s), rest)
  {
    hide Enc, SkipField, Skippable, ReadArrayHeader, LayerItem, LayerItemT;
    SkipRefine(src, m, s, rest);
    ReadArrayHeaderEnc(m, rest);
    if m.Arr? {
      LayerItemRefines(src);
      ItemsRefine(0, m.items, Resize(s, |m.items|, ZERO_LAYER), rest, LayerItemOf(src), LayerItemTOf(src.Stream?), LayerPassOf(src));
    }
  }

  lemma InfoFieldRefines(src: Source)
    ensures FieldRefines(InfoFieldOf(src), InfoFieldTOf(src.Stream?), InfoFieldPassOf(src))
  {
    hide InfoField, InfoFieldT, InfoFieldPass;
    forall k: Bytes, m: Msg, s: Slice<Layer>, rest: Bytes | WellFormed(m)
      ensures Follows(InfoFieldPass(src, k, m, |rest|), InfoField(src, k, Enc(m) + rest, s), InfoFieldT(src.Stream?, k, m, s), rest)
    {
      InfoFieldRefine(src, k, m, s, rest);
    }
  }

  lemma DecodeInfoRefine(src: Source, m: Msg, s: Slice<Layer>, rest: Bytes)
    requires WellFormed(m)
    ensures Follows(InfoPass(src, m, |rest|), DecodeInfo(src, Enc(m) + rest, s), DecodeInfoT(src.Stream?, m, s), rest)
  {
    InfoFieldRefines(src);
    StructRefine(src, m, s, rest, InfoFieldOf(src), InfoFieldTOf(src.Stream?), InfoFieldPassOf(src));
  }

  const ANY: (Msg, nat) -> bool := (m: Msg, n: nat) => true

  lemma BindItemRefines()
    ensures ItemRefines(BindItem, BindItemT, ANY)
  {
    hide Enc, ReadString, WellFormed;
    forall i: nat, x: Msg, s: Slice<Bytes>, rest: Bytes | WellFormed(x)
      ensures BindItem(i, Enc(x) + rest, s) == Lift(BindItemT(i, x, s), rest)
    {
      ReadStringEnc(x, rest);
    }
  }

  lemma DecodeBindsRefine(m: Msg, s: Slice<Bytes>, rest: Bytes)
    requires WellFormed(m)
    ensures DecodeBinds(Enc(m) + rest, s) == Lift(DecodeBindsT(m, s), rest)
  {
    hide Enc, ReadArrayHeader, ItemRefines, BindItem, BindItemT, Items, ItemsT, ItemsPass, Resize;
    ReadArrayHeaderEnc(m, rest);
    if m.Arr? {
      BindItemRefines();
      AllPass(m.items, |rest|);
      ItemsRefine(0, m.items, Resize(s, |m.items|, []), rest, BindItem, BindItemT, ANY);
    }
  }

  lemma {:induction false} AllPass(items: seq<Msg>, n: nat)
    ensures ItemsPass(items, n, ANY)
    decreases |items|
  {
    if |items| == 0 {
    } else {
      AllPass(items[1..], n);
    }
  }

  lemma VolumeFieldRefines(src: Source)
    ensures FieldRefines(VolumeFieldOf(src), VolumeFieldT, VolumeFieldPassOf(src))
  {
    hide Enc, SkipField, Skippable, ReadString, StringMap, StringMapT, WellFormed, StrOf;
    forall k: Bytes, m: Msg, s: VolumeMem, rest: Bytes | WellFormed(m)
      ensures Follows(VolumeFieldPass(src, k, m, |rest|), VolumeField(src, k, Enc(m) + rest, s), VolumeFieldT(k, m, s), rest)
    {
      ReadStringEnc(m, rest);
      SkipRefine(src, m, s, rest);
      StringMapRefine(m, Slot(s.v.properties, s.store), rest);
    }
  }

  lemma DecodeVolumeRefine(src: Source, m: Msg, s: VolumeMem, rest: Bytes)
    requires WellFormed(m)
    ensures Follows(VolumePass(src, m, |rest|), DecodeVolume(src, Enc(m) + rest, s), DecodeVolumeT(src.Stream?, m, s), rest)
  {
    VolumeFieldRefines(src);
    StructRefine(src, m, s, rest, VolumeFieldOf(src), VolumeFieldT, VolumeFieldPassOf(src));
  }

  lemma VolumeItemRefines(src: Source)
    ensures ItemRefines(VolumeItemOf(src), VolumeItemTOf(src.Stream?), VolumePassOf(src))
  {
    hide VolumePass, DecodeVolume, DecodeVolumeT;
    forall i: nat, m: Msg, s: Mem, rest: Bytes | WellFormed(m)
      ensures Follows(VolumePass(src, m, |rest|), VolumeItem(src, i, Enc(m) + rest, s), VolumeItemT(src.Stream?, i, m, s), rest)
    {
      if i < |s.z.extraVolumes.cells| {
        DecodeVolumeRefine(src, m, VolumeMem(s.z.extraVolumes.cells[i], s.store), rest);
      }
    }
  }

  lemma DecodeVolumesRefine(src: Source, m: Msg, s: Mem, rest: Bytes)
    requires WellFormed(m)
    ensures Follows(VolumesPass(src, m, |rest|), DecodeVolumes(src, Enc(m) + rest, s), DecodeVolumesT(src.Stream?, m, s), rest)
  {
    hide Enc, ReadArrayHeader, VolumeItem, VolumeItemT, ResizeVolumes;
    ReadArrayHeaderEnc(m, rest);
    if m.Arr? {
      VolumeItemRefines(src);
      ItemsRefine(0, m.items, ResizeVolumes(s, |m.items|), rest, VolumeItemOf(src), VolumeItemTOf(src.Stream?), VolumePassOf(src));
    }
  }

  lemma ProfileFieldRefine(src: Source, k: Bytes, m: Msg, s: Mem, rest: Bytes)
    requires WellFormed(m)
    ensures Follows(ProfileFieldPass(src, k, m, |rest|), ProfileField(src, k, Enc(m) + rest, s), ProfileFieldT(src.Stream?, k, m, s), rest)
  {
    hide Enc, WellFormed, Skippable, StrOf, SkipField, ReadString, StringMap, StringMapT, ProfileTag, InfoPass, VolumesPass;
    hide DecodeInfo, DecodeInfoT, DecodeBinds, DecodeBindsT, DecodeVolumes, DecodeVolumesT, SetString, SetMapAt;
    match ProfileTag(k)
    case Unknown => SkipRefine(src, m, s, rest);
    case ExtendedInfo => DecodeInfoRefine(src, m, s.z.layers, rest);
    case Binds => DecodeBindsRefine(m, s.z.binds, rest);
    case ExtraVolumes => DecodeVolumesRefine(src, m, s, rest);
    case Network => StringMapRefine(m, Slot(MapAt(ProfileTag(k), s.z), s.store), rest);
    case Container => StringMapRefine(m, Slot(MapAt(ProfileTag(k), s.z), s.store), rest);
    case Volume => StringMapRefine(m, Slot(MapAt(ProfileTag(k), s.z), s.store), rest);
    case _ => ReadStringEnc(m, rest);
  }

  lemma ProfileFieldRefines(src: Source)
    ensures FieldRefines(ProfileFieldOf(src), ProfileFieldTOf(src.Stream?), ProfileFieldPassOf(src))
  {
    hide ProfileField, ProfileFieldT, ProfileFieldPass;
    forall k: Bytes, m: Msg, s: Mem, rest: Bytes | WellFormed(m)
      ensures Follows(ProfileFieldPass(src, k, m, |rest|), ProfileField(src, k, Enc(m) + rest, s), ProfileFieldT(src.Stream?, k, m, s), rest)
    {
      ProfileFieldRefine(src, k, m, s, rest);
    }
  }

  /**
   On every well-formed object, whatever follows it and however the stream is
   buffered: the byte decoder does what the tree decoder does if it can get past
   every value it has no field for, and fails if it cannot.
   */
  lemma DecodeProfileRefine(src: Source, m: Msg, s: Mem, rest: Bytes)
    requires WellFormed(m)
    ensures Follows(ProfilePass(src, m, |rest|), DecodeProfile(src, Enc(m) + rest, s), DecodeProfileT(src.Stream?, m, s), rest)
  {
    ProfileFieldRefines(src);
    StructRefine(src, m, s, rest, ProfileFieldOf(src), ProfileFieldTOf(src.Stream?), ProfileFieldPassOf(src));
  }
}
