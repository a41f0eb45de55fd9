/**
 The loops every generated decoder is made of: if the handler of a field, or of
 an item, does on printed bytes what it does on the tree, so does the loop.
 */
module DecoderLoops {
  import opened Options
  import opened MessagePack
  import opened ProfileDecoder

  function Lift<S>(o: Out<S>, rest: Bytes): Dec<S> {
    match o case Good(s) => Done(s, rest) case Bad(s) => Fail(s)
  }

  /** What the tree decoder does, if everything can be skipped; a failure, if not. */
  ghost predicate Follows<S>(pass: bool, d: Dec<S>, o: Out<S>, rest: Bytes) {
    if pass then d == Lift(o, rest) else d.Fail?
  }

  /** The byte handler of a field does what the tree handler does. */
  ghost predicate FieldRefines<S(!new)>(f: (Bytes, Bytes, S) -> Dec<S>, g: (Bytes, Msg, S) -> Out<S>, p: FieldPass) {
    forall k: Bytes, m: Msg, s: S, rest: Bytes {:trigger f(k, Enc(m) + rest, s)} :: WellFormed(m) ==>
      Follows(p(k, m, |rest|), f(k, Enc(m) + rest, s), g(k, m, s), rest)
  }

  ghost predicate ItemRefines<S(!new)>(f: (nat, Bytes, S) -> Dec<S>, g: (nat, Msg, S) -> Out<S>, p: (Msg, nat) -> bool) {
    forall i: nat, m: Msg, s: S, rest: Bytes {:trigger f(i, Enc(m) + rest, s)} :: WellFormed(m) ==>
      Follows(p(m, |rest|), f(i, Enc(m) + rest, s), g(i, m, s), rest)
  }

  lemma FieldFollows<S(!new)>(
    k: Bytes, m: Msg, s: S, rest: Bytes, f: (Bytes, Bytes, S) -> Dec<S>, g: (Bytes, Msg, S) -> Out<S>, p: FieldPass)
    requires FieldRefines(f, g, p) && WellFormed(m)
    ensures Follows(p(k, m, |rest|), f(k, Enc(m) + rest, s), g(k, m, s), rest)
  {
  }

  lemma {:induction false} FieldsRefine<S(!new)>(
    src: Source, es: seq<Entry>, s: S, rest: Bytes,
    f: (Bytes, Bytes, S) -> Dec<S>, g: (Bytes, Msg, S) -> Out<S>, p: FieldPass)
    requires AllWellFormed(es) && FieldRefines(f, g, p)
    ensures
      Follows(FieldsPass(src.Stream?, es, |rest|, p),
              Fields(src, |es|, EncEntries(es) + rest, s, f), FieldsT(src.Stream?, es, s, g), rest)
    decreases |es|
  {
    if |es| == 0 {
      assert EncEntries(es) + rest == rest;
    } else {
      var Entry(key, val) := es[0];
      var tail := EncEntries(es[1..]) + rest;
      assert EntryWellFormed(es[0]);
      Assoc(EncEntry(es[0]), EncEntries(es[1..]), rest);
      Assoc(Enc(key), Enc(val), tail);
      LenEntriesEnc(es[1..]);
      ReadMapKeyEnc(src.Stream?, key, Enc(val) + tail);
      hide Enc, ReadMapKey, KeyOf, FieldRefines;
      match KeyOf(src.Stream?, key)
      case None =>
      case Some(k) =>
        FieldFollows(k, val, s, tail, f, g, p);
        match g(k, val, s)
        case Bad(_) =>
        case Good(s') => FieldsRefine(src, es[1..], s', rest, f, g, p);
    }
  }

  lemma StructRefine<S(!new)>(
    src: Source, m: Msg, s: S, rest: Bytes,
    f: (Bytes, Bytes, S) -> Dec<S>, g: (Bytes, Msg, S) -> Out<S>, p: FieldPass)
    requires WellFormed(m) && FieldRefines(f, g, p)
    ensures
      Follows(m.Dict? ==> FieldsPass(src.Stream?, m.entries, |rest|, p),
              Struct(src, Enc(m) + rest, s, f), StructT(src.Stream?, m, s, g), rest)
  {
    ReadMapHeaderEnc(m, rest);
    if m.Dict? {
      FieldsRefine(src, m.entries, s, rest, f, g, p);
    }
  }

  lemma {:induction false} ItemsRefine<S(!new)>(
    i: nat, items: seq<Msg>, s: S, rest: Bytes,
    f: (nat, Bytes, S) -> Dec<S>, g: (nat, Msg, S) -> Out<S>, p: (Msg, nat) -> bool)
    requires (forall j :: 0 <= j < |items| ==> WellFormed(items[j])) && ItemRefines(f, g, p)
    ensures
      Follows(ItemsPass(items, |rest|, p),
              Items(i, i + |items|, EncItems(items) + rest, s, f), ItemsT(i, items, s, g), rest)
    decreases |items|
  {
    if |items| == 0 {
      assert EncItems(items) + rest == rest;
    } else {
      var tail := EncItems(items[1..]) + rest;
      Assoc(Enc(items[0]), EncItems(items[1..]), rest);
      LenItemsEnc(items[1..]);
      match g(i, items[0], s)
      case Bad(_) =>
      case Good(s') => ItemsRefine(i + 1, items[1..], s', rest, f, g, p);
    }
  }
}
