/**
 How the connection loop cuts its input into messages.  A message is an array
 `[channel, number, args]` or `[channel, number, args, headers]`; who handles
 `args` decides how many bytes are taken.  Errors of a skip are ignored, so the
 model says where the reader is left after them.
 */
module Framing {
  import opened Options
  import opened MessagePack

  // ----------------------------------------------------------------- reading

  /** Where a skip leaves the reader, whether or not it succeeds. */
  function Drop(full: Buffering, b: Bytes): (r: Bytes)
    ensures |r| <= |b|
    decreases |b|, 0
  {
    match GetSize(Window(full, b))
    case None => b
    case Some((size, objects)) =>
      if |b| < size then [] else DropMany(full, objects, b[size..])
  }

  function DropMany(full: Buffering, n: nat, b: Bytes): (r: Bytes)
    ensures |r| <= |b|
    decreases |b|, n + 1
  {
    if n == 0 then b
    else match Skip(full, b)
      case None => Drop(full, b)
      case Some(rest) => DropMany(full, n - 1, rest)
  }

  datatype Head = Head(hasHeaders: bool, channel: nat, number: nat)

  function Next(b: Bytes): (r: Res<Head>)
    ensures r.Ok? ==> |r.rest| < |b|
  {
    match ReadArrayHeader(b)
    case Err => Err
    case Ok(sz, r1) =>
      match ReadUint(r1)
      case Err => Err
      case Ok(channel, r2) =>
        match ReadUint(r2)
        case Err => Err
        case Ok(number, r3) => Ok(Head(sz == 4, channel, number), r3)
  }

  datatype Request =
    | Spool(profile: Bytes, name: Bytes)
    | Spawn(profile: Bytes, name: Bytes, executable: Bytes, args: StrMap, env: StrMap)

  /** What a dispatcher makes of a message: `Invalid` closes the connection. */
  datatype Verdict = Accepted(request: Request) | Ended | Refused | Invalid

  datatype Handled = Handled(verdict: Verdict, rest: Bytes)

  predicate NextIsMap(b: Bytes) { |b| > 0 && (0x80 <= b[0] < 0x90 || b[0] == 0xde || b[0] == 0xdf) }

  datatype MapRead = MapRead(value: Option<StrMap>, rest: Bytes)

  function ReadPairs(n: nat, b: Bytes, acc: StrMap): (r: MapRead)
    ensures |r.rest| <= |b|
  {
    hide ReadString;
    if n == 0 then MapRead(Some(acc), b)
    else match ReadString(b)
      case Err => MapRead(None, b)
      case Ok(k, r1) =>
        match ReadString(r1)
        case Err => MapRead(None, r1)
        case Ok(v, r2) => ReadPairs(n - 1, r2, acc[k := v])
  }

  function ReadMapStrStr(b: Bytes): (r: MapRead)
    ensures |r.rest| <= |b|
  {
    match ReadMapHeader(b)
    case Err => MapRead(None, b)
    case Ok(n, r) => ReadPairs(n, r, map[])
  }

  /** The profile is copied without being decoded. */
  function CopyProfile(b: Bytes): Res<Bytes> {
    if !NextIsMap(b) then Err
    else match Skip(NEVER, b)
      case None => Err
      case Some(r) => Ok(b[..|b| - |r|], r)
  }

  function HandleSpool(b: Bytes): (r: Handled)
    ensures |r.rest| <= |b|
  {
    match ReadArrayHeader(b)
    case Err => Handled(Refused, b)
    case Ok(n, r) =>
      if n != 2 then Handled(Invalid, r)
      else match CopyProfile(r)
        case Err => Handled(Refused, if NextIsMap(r) then Drop(NEVER, r) else r)
        case Ok(profile, r1) =>
          match ReadString(r1)
          case Err => Handled(Refused, r1)
          case Ok(name, r2) => Handled(Accepted(Spool(profile, name)), r2)
  }

  function HandleSpawn(b: Bytes): (r: Handled)
    ensures |r.rest| <= |b|
  {
    match ReadArrayHeader(b)
    case Err => Handled(Refused, b)
    case Ok(n, r) =>
      if n != 5 then Handled(Invalid, r)
      else match CopyProfile(r)
        case Err => Handled(Refused, if NextIsMap(r) then Drop(NEVER, r) else r)
        case Ok(profile, r1) =>
          match ReadString(r1)
          case Err => Handled(Refused, r1)
          case Ok(name, r2) =>
            match ReadString(r2)
            case Err => Handled(Refused, r2)
            case Ok(executable, r3) => HandleMaps(profile, name, executable, r3)
  }

  function HandleMaps(profile: Bytes, name: Bytes, executable: Bytes, b: Bytes): (r: Handled)
    ensures |r.rest| <= |b|
  {
    var args := ReadMapStrStr(b);
    if args.value.None? then Handled(Refused, args.rest)
    else
      var env := ReadMapStrStr(args.rest);
      if env.value.None? then Handled(Refused, env.rest)
      else Handled(Accepted(Spawn(profile, name, executable, args.value.value, env.value.value)), env.rest)
  }

  /** Who deals with a message: a dispatcher just made, one from the map, or nobody. */
  datatype Kind = New | Attached | Detached

  function Handle(full: Buffering, kind: Kind, number: nat, b: Bytes): (r: Handled)
    ensures |r.rest| <= |b|
  {
    match kind
    case New => if number == 0 then HandleSpool(b) else if number == 1 then HandleSpawn(b) else Handled(Refused, b)
    case Attached => if number == 0 then Handled(Ended, Drop(full, b)) else Handled(Refused, b)
    case Detached => Handled(Ended, Drop(full, b))
  }

  /** One turn of the loop after `Next`. */
  function Turn(full: Buffering, kind: Kind, h: Head, b: Bytes): (r: Handled)
    ensures |r.rest| <= |b|
  {
    var d := Handle(full, kind, h.number, b);
    Handled(d.verdict, if h.hasHeaders then Drop(full, d.rest) else d.rest)
  }

  // ----------------------------------------------------- where a skip leaves us

  lemma {:induction false} SkipDrops(full: Buffering, b: Bytes)
    requires Skip(full, b).Some?
    ensures Drop(full, b) == Skip(full, b).value
  {
    var g := GetSize(Window(full, b)).value;
    SkipManyDrops(full, g.1, b[g.0..]);
  }

  lemma {:induction false} SkipManyDrops(full: Buffering, n: nat, b: Bytes)
    requires SkipMany(full, n, b).Some?
    ensures DropMany(full, n, b) == SkipMany(full, n, b).value
  {
    if n == 0 {
    } else {
      SkipManyDrops(full, n - 1, Skip(full, b).value);
    }
  }

  /** A reader that no skip moves any more. */
  predicate Stuck(full: Buffering, b: Bytes) { GetSize(Window(full, b)).None? }

  lemma StuckStays(full: Buffering, b: Bytes)
    requires Stuck(full, b)
    ensures Drop(full, b) == b && Skip(full, b) == None
  {
  }

  lemma DropAs(full: Buffering, b: Bytes, size: nat, objects: nat, rest: Bytes)
    requires GetSize(b) == Some((size, objects)) && size <= |b| && b[size..] == rest
    requires !(full(|b|) && |b| > 5 && b[0] == 0xc9)
    ensures Drop(full, b) == DropMany(full, objects, rest)
  {
    hide GetSize, Window;
    WindowSize(full, b);
  }

  lemma DropManyHead(full: Buffering, n: nat, b: Bytes)
    ensures DropMany(full, n + 1, b) ==
      if Skip(full, b).None? then Drop(full, b) else DropMany(full, n, Skip(full, b).value)
  {
    hide Skip, Drop;
  }

  /** A skip that fails stops inside the object, and there it stays. */
  lemma {:induction false} StuckInside(full: Buffering, m: Msg, rest: Bytes)
    requires WellFormed(m) && !Skippable(full, m, |rest|)
    ensures |Drop(full, Enc(m) + rest)| > |rest| && Stuck(full, Drop(full, Enc(m) + rest))
    decreases m, 0
  {
    hide Skip, SkipMany, GetSize, Drop, DropMany, Stuck;
    match m
    case Arr(w, items) =>
      var tail := EncItems(items) + rest;
      StuckItems(full, items, rest);
      Assoc(ArrayHeader(w, |items|), EncItems(items), rest);
      ArrayGetSize(w, |items|, tail);
      DropAs(full, Enc(m) + rest, |ArrayHeader(w, |items|)|, |items|, tail);
    case Dict(w, entries) =>
      var tail := EncEntries(entries) + rest;
      StuckEntries(full, entries, rest);
      Assoc(MapHeader(w, |entries|), EncEntries(entries), rest);
      MapGetSize(w, |entries|, tail);
      DropAs(full, Enc(m) + rest, |MapHeader(w, |entries|)|, 2 * |entries|, tail);
    case Ext(_, _, _) => StuckExt(full, m, rest);
  }

  lemma StuckExt(full: Buffering, m: Msg, rest: Bytes)
    requires WellFormed(m) && m.Ext? && !Skippable(full, m, |rest|)
    ensures |Drop(full, Enc(m) + rest)| > |rest| && Stuck(full, Drop(full, Enc(m) + rest))
  {
    ExtBytes(m, rest);
    hide Enc;
    NoHeader(full, Enc(m) + rest);
    StuckStays(full, Enc(m) + rest);
  }

  lemma NoHeader(full: Buffering, b: Bytes)
    requires full(|b|) && |b| > 5 && b[0] == 0xc9
    ensures Stuck(full, b)
  {
  }

  lemma {:induction false} StuckItems(full: Buffering, items: seq<Msg>, rest: Bytes)
    requires (forall i :: 0 <= i < |items| ==> WellFormed(items[i])) && !SkippableItems(full, items, |rest|)
    ensures |DropMany(full, |items|, EncItems(items) + rest)| > |rest|
    ensures Stuck(full, DropMany(full, |items|, EncItems(items) + rest))
    decreases items, 1
  {
    hide Skip, SkipMany, Drop, DropMany, Stuck;
    var tail := EncItems(items[1..]) + rest;
    Assoc(Enc(items[0]), EncItems(items[1..]), rest);
    LenItemsEnc(items[1..]);
    SkipEnc(full, items[0], tail);
    DropManyHead(full, |items| - 1, Enc(items[0]) + tail);
    if Skippable(full, items[0], |tail|) {
      StuckItems(full, items[1..], rest);
    } else {
      StuckInside(full, items[0], tail);
    }
  }

  lemma {:induction false} StuckEntries(full: Buffering, entries: seq<Entry>, rest: Bytes)
    requires AllWellFormed(entries) && !SkippableEntries(full, entries, |rest|)
    ensures
      var p := DropMany(full, 2 * |entries|, EncEntries(entries) + rest);
      |p| > |rest| && Stuck(full, p)
    decreases entries, 1
  {
    hide Skip, SkipMany, Drop, DropMany, Stuck;
    var tail := EncEntries(entries[1..]) + rest;
    Assoc(EncEntry(entries[0]), EncEntries(entries[1..]), rest);
    LenEntriesEnc(entries[1..]);
    StuckEntry(full, entries[0], 2 * |entries[1..]|, tail);
    if SkippableEntry(full, entries[0], |tail|) {
      StuckEntries(full, entries[1..], rest);
    }
  }

  lemma {:induction false} StuckEntry(full: Buffering, e: Entry, n: nat, rest: Bytes)
    requires EntryWellFormed(e)
    ensures
      var p := DropMany(full, n + 2, EncEntry(e) + rest);
      if SkippableEntry(full, e, |rest|) then p == DropMany(full, n, rest) else |p| > |rest| && Stuck(full, p)
    decreases e, 0
  {
    hide Skip, SkipMany, Drop, DropMany, Stuck;
    var tail := Enc(e.val) + rest;
    Assoc(Enc(e.key), Enc(e.val), rest);
    LenEnc(e.val);
    SkipEnc(full, e.key, tail);
    DropManyHead(full, n + 1, Enc(e.key) + tail);
    SkipEnc(full, e.val, rest);
    DropManyHead(full, n, tail);
    if !Skippable(full, e.key, |tail|) {
      StuckInside(full, e.key, tail);
    } else if !Skippable(full, e.val, |rest|) {
      StuckInside(full, e.val, rest);
    }
  }

  /** Where a skip leaves the reader on a well-formed object: behind it exactly when it can be sized. */
  lemma DropEnc(full: Buffering, m: Msg, rest: Bytes)
    requires WellFormed(m)
    ensures
      var p := Drop(full, Enc(m) + rest);
      if Skippable(full, m, |rest|) then p == rest else |p| > |rest| && Stuck(full, p)
  {
    SkipEnc(full, m, rest);
    if Skippable(full, m, |rest|) {
      SkipDrops(full, Enc(m) + rest);
    } else {
      StuckInside(full, m, rest);
    }
  }

  // ---------------------------------------------------------------- messages

  /** A message as sent: any encoding of its numbers, any well-formed arguments and headers. */
  datatype Wire = Wire(w: nat, channel: Msg, number: Msg, args: Msg, headers: Option<Msg>)

  function HeaderItems(m: Wire): seq<Msg> { if m.headers.Some? then [m.headers.value] else [] }

  function Tree(m: Wire): Msg { Arr(m.w, [m.channel] + ([m.number] + ([m.args] + HeaderItems(m)))) }

  predicate Valid(m: Wire) {
    && m.w in {0, 2, 4} && UintOf(m.channel).Some? && UintOf(m.number).Some?
    && WellFormed(m.channel) && WellFormed(m.number) && WellFormed(m.args) && (m.headers.Some? ==> WellFormed(m.headers.value))
  }

  function Channel(m: Wire): nat
    requires Valid(m)
  {
    UintOf(m.channel).value
  }

  function Number(m: Wire): nat
    requires Valid(m)
  {
    UintOf(m.number).value
  }

  function Encoded(m: Wire): Bytes
    requires Valid(m)
  {
    Enc(Tree(m))
  }

  function HeaderBytes(m: Wire): Bytes
    requires Valid(m)
  {
    if m.headers.Some? then Enc(m.headers.value) else []
  }

  predicate IsSpool(m: Msg) { m.Arr? && |m.items| == 2 && m.items[0].Dict? && m.items[1].Str? }

  predicate IsSpawn(m: Msg) {
    && m.Arr? && |m.items| == 5 && m.items[0].Dict? && m.items[1].Str? && m.items[2].Str?
    && IsStrMap(m.items[3]) && IsStrMap(m.items[4])
  }

  predicate IsStrMap(m: Msg) { m.Dict? && StrEntries(m.entries) }

  predicate StrEntries(es: seq<Entry>) { forall i :: 0 <= i < |es| ==> es[i].key.Str? && es[i].val.Str? }

  /** A key that comes twice has its later value. */
  function PairsOf(es: seq<Entry>, acc: StrMap): StrMap
    requires StrEntries(es)
  {
    if |es| == 0 then acc else PairsOf(es[1..], acc[es[0].key.s := es[0].val.s])
  }

  predicate Opens(m: Wire)
    requires Valid(m)
  {
    (Number(m) == 0 && IsSpool(m.args)) || (Number(m) == 1 && IsSpawn(m.args))
  }

  function RequestOf(m: Wire): Request
    requires Valid(m) && Opens(m)
  {
    var items := m.args.items;
    if Number(m) == 0 then Spool(Enc(items[0]), items[1].s)
    else Spawn(Enc(items[0]), items[1].s, items[2].s, PairsOf(items[3].entries, map[]), PairsOf(items[4].entries, map[]))
  }

  // -------------------------------------------------- reading what was written

  lemma ItemsHead(items: seq<Msg>, rest: Bytes)
    requires |items| > 0 && forall i :: 0 <= i < |items| ==> WellFormed(items[i])
    ensures EncItems(items) + rest == Enc(items[0]) + (EncItems(items[1..]) + rest)
  {
    Assoc(Enc(items[0]), EncItems(items[1..]), rest);
  }

  lemma NoItems(rest: Bytes)
    ensures EncItems([]) + rest == rest
  {
  }

  lemma CopyProfileEnc(m: Msg, rest: Bytes)
    requires WellFormed(m) && m.Dict?
    ensures CopyProfile(Enc(m) + rest) == Ok(Enc(m), rest)
  {
    LeadOf(m, rest);
    SkipEnc(NEVER, m, rest);
    PortableSkips(NEVER, m, |rest|);
    hide Skip, Enc;
    assert (Enc(m) + rest)[..|Enc(m)|] == Enc(m);
  }

  lemma {:induction false} PairsEnc(es: seq<Entry>, rest: Bytes, acc: StrMap)
    requires AllWellFormed(es) && StrEntries(es)
    ensures ReadPairs(|es|, EncEntries(es) + rest, acc) == MapRead(Some(PairsOf(es, acc)), rest)
    decreases |es|
  {
    if |es| == 0 {
      assert EncEntries(es) + rest == rest;
    } else {
      var Entry(key, val) := es[0];
      var tail := EncEntries(es[1..]) + rest;
      assert EntryWellFormed(es[0]);
      Assoc(EncEntry(es[0]), EncEntries(es[1..]), rest);
      Assoc(Enc(key), Enc(val), tail);
      ReadStringEnc(key, Enc(val) + tail);
      ReadStringEnc(val, tail);
      hide Enc, ReadString;
      PairsEnc(es[1..], rest, acc[key.s := val.s]);
    }
  }

  lemma MapEnc(m: Msg, rest: Bytes)
    requires WellFormed(m) && IsStrMap(m)
    ensures ReadMapStrStr(Enc(m) + rest) == MapRead(Some(PairsOf(m.entries, map[])), rest)
  {
    ReadMapHeaderEnc(m, rest);
    PairsEnc(m.entries, rest, map[]);
  }

  lemma SpoolEnc(m: Msg, rest: Bytes)
    requires WellFormed(m) && IsSpool(m)
    ensures HandleSpool(Enc(m) + rest) == Handled(Accepted(Spool(Enc(m.items[0]), m.items[1].s)), rest)
  {
    var items := m.items;
    ReadArrayHeaderEnc(m, rest);
    ItemsHead(items, rest);
    ItemsHead(items[1..], rest);
    NoItems(rest);
    CopyProfileEnc(items[0], EncItems(items[1..]) + rest);
    ReadStringEnc(items[1], rest);
    hide Enc, EncItems, ReadString, ReadArrayHeader, CopyProfile;
  }

  lemma SpawnEnc(m: Msg, rest: Bytes)
    requires WellFormed(m) && IsSpawn(m)
    ensures HandleSpawn(Enc(m) + rest) ==
      Handled(Accepted(Spawn(Enc(m.items[0]), m.items[1].s, m.items[2].s,
                             PairsOf(m.items[3].entries, map[]), PairsOf(m.items[4].entries, map[]))), rest)
  {
    var items := m.items;
    ReadArrayHeaderEnc(m, rest);
    ItemsHead(items, rest);
    ItemsHead(items[1..], rest);
    ItemsHead(items[1..][1..], rest);
    var maps := items[3..];
    assert items[1..][1..][1..] == maps;
    CopyProfileEnc(items[0], EncItems(items[1..]) + rest);
    ReadStringEnc(items[1], EncItems(items[1..][1..]) + rest);
    ReadStringEnc(items[2], EncItems(maps) + rest);
    MapsEnc(maps, rest, Enc(items[0]), items[1].s, items[2].s);
    hide Enc, EncItems, ReadString, ReadArrayHeader, CopyProfile, HandleMaps, WellFormed;
  }

  lemma MapsEnc(maps: seq<Msg>, rest: Bytes, profile: Bytes, name: Bytes, executable: Bytes)
    requires |maps| == 2 && WellFormed(maps[0]) && WellFormed(maps[1]) && IsStrMap(maps[0]) && IsStrMap(maps[1])
    ensures HandleMaps(profile, name, executable, EncItems(maps) + rest) ==
      Handled(Accepted(Spawn(profile, name, executable, PairsOf(maps[0].entries, map[]), PairsOf(maps[1].entries, map[]))), rest)
  {
    ItemsHead(maps, rest);
    ItemsHead(maps[1..], rest);
    NoItems(rest);
    hide EncItems, ReadMapStrStr;
    MapEnc(maps[0], EncItems(maps[1..]) + rest);
    MapEnc(maps[1], rest);
  }

  lemma OpeningEnc(full: Buffering, m: Wire, rest: Bytes)
    requires Valid(m) && Opens(m)
    ensures Handle(full, New, Number(m), Enc(m.args) + rest) == Handled(Accepted(RequestOf(m)), rest)
  {
    hide Enc, HandleSpool, HandleSpawn;
    if Number(m) == 0 {
      SpoolEnc(m.args, rest);
    } else {
      SpawnEnc(m.args, rest);
    }
  }

  function HeadOf(m: Wire): Head
    requires Valid(m)
  {
    Head(m.headers.Some?, Channel(m), Number(m))
  }

  lemma WireItems(m: Wire, rest: Bytes)
    requires Valid(m)
    ensures WellFormed(Tree(m))
    ensures EncItems(Tree(m).items) + rest == Enc(m.channel) + (Enc(m.number) + (Enc(m.args) + (HeaderBytes(m) + rest)))
  {
    var items := Tree(m).items;
    assert forall i :: 0 <= i < |items| ==> WellFormed(items[i]);
    ItemsHead(items, rest);
    ItemsHead(items[1..], rest);
    ItemsHead(items[1..][1..], rest);
    assert items[1..][1..][1..] == HeaderItems(m) && items[1..][0] == m.number && items[1..][1..][0] == m.args;
    HeaderEnc(m, rest);
    hide EncItems, Enc, UintOf, WellFormed;
  }

  lemma NextEnc(m: Wire, rest: Bytes)
    requires Valid(m)
    ensures WellFormed(Tree(m))
    ensures Next(Encoded(m) + rest) == Ok(HeadOf(m), Enc(m.args) + (HeaderBytes(m) + rest))
  {
    hide Enc, EncItems, ReadUint, ReadArrayHeader, UintOf, HeaderBytes;
    WireItems(m, rest);
    ReadArrayHeaderEnc(Tree(m), rest);
    var tail := Enc(m.args) + (HeaderBytes(m) + rest);
    ReadUintEnc(m.channel, Enc(m.number) + tail);
    ReadUintEnc(m.number, tail);
  }

  lemma HeaderEnc(m: Wire, rest: Bytes)
    requires Valid(m)
    ensures EncItems(HeaderItems(m)) + rest == HeaderBytes(m) + rest
  {
    if m.headers.Some? {
      ItemsHead(HeaderItems(m), rest);
      NoItems(rest);
    }
  }

  /** Every skip this message causes gets past its object. */
  predicate Clear(full: Buffering, opening: bool, m: Wire, n: nat)
    requires Valid(m)
  {
    && (opening || Skippable(full, m.args, |HeaderBytes(m)| + n))
    && (m.headers.Some? ==> Skippable(full, m.headers.value, n))
  }

  /** The message is one this kind of handler expects. */
  predicate Expected(kind: Kind, m: Wire)
    requires Valid(m)
  {
    match kind case New => Opens(m) case Attached => Number(m) == 0 case Detached => true
  }

  /**
   One turn: whoever handles the message, the reader is left at the next message
   exactly when every skip gets past its object; and what was opened is what was
   asked for.
   */
  lemma TurnExactly(full: Buffering, kind: Kind, m: Wire, rest: Bytes)
    requires Valid(m) && Expected(kind, m)
    ensures
      var t := Turn(full, kind, HeadOf(m), Enc(m.args) + (HeaderBytes(m) + rest));
      && t.verdict == (if kind.New? then Accepted(RequestOf(m)) else Ended)
      && (t.rest == rest <==> Clear(full, kind.New?, m, |rest|))
      && |t.rest| >= |rest|
  {
    hide Drop, Skip, Enc, Stuck, HandleSpool, HandleSpawn;
    var b := HeaderBytes(m) + rest;
    if kind.New? {
      OpeningEnc(full, m, b);
    } else {
      DropEnc(full, m.args, b);
    }
    if m.headers.Some? {
      DropEnc(full, m.headers.value, rest);
      if !kind.New? && !Skippable(full, m.args, |b|) {
        StuckStays(full, Drop(full, Enc(m.args) + b));
      }
    } else {
      assert b == rest;
    }
  }
}
