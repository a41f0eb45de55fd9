/**
 The MessagePack wire format and the msgp primitives the daemon is built on.

 `Msg` is a parse tree of one MessagePack object, with the format family its
 writer chose.  `Enc` prints it.  The readers below work on bytes; each lemma
 says what a reader does on a printed tree followed by arbitrary bytes, for the
 trees it accepts and for the trees it refuses.
 */
module MessagePack {
  import opened Options

  type byte = b: int | 0 <= b < 0x100
  type Bytes = seq<byte>

  type StrMap = map<Bytes, Bytes>

  /** Outcome of a reader: the value and the unread bytes, or an error. */
  datatype Res<+T> = Ok(value: T, rest: Bytes) | Err

  // ---------------------------------------------------------------- integers

  function Pow256(w: nat): (p: nat)
    ensures p > 0
  {
    if w == 0 then 1 else 256 * Pow256(w - 1)
  }

  /** The low `w` bytes of `n`, most significant first. */
  function BigEndian(n: nat, w: nat): (b: Bytes)
    ensures |b| == w
  {
    if w == 0 then [] else BigEndian(n / 256, w - 1) + [n % 256]
  }

  function Value(b: Bytes): (n: nat)
    ensures n < Pow256(|b|)
  {
    if |b| == 0 then 0 else 256 * Value(b[..|b| - 1]) + b[|b| - 1]
  }

  lemma {:induction false} BigEndianValue(n: nat, w: nat)
    requires n < Pow256(w)
    ensures Value(BigEndian(n, w)) == n
  {
    if w == 0 {
    } else {
      BigEndianValue(n / 256, w - 1);
      assert BigEndian(n, w)[..w - 1] == BigEndian(n / 256, w - 1);
    }
  }

  // ----------------------------------------------------------- prefix table

  /** What follows the prefix bytes of an object. */
  datatype Mode =
    | Objects(n: nat)   // `n` further objects
    | Extra(w: nat)     // a payload whose length is stored in `w` bytes
    | ArrayOf(w: nat)   // as many objects as `w` bytes say
    | MapOf(w: nat)     // twice as many objects as `w` bytes say

  /** `size` is the number of prefix bytes; an undefined lead byte has size 0. */
  datatype LeadSpec = LeadSpec(size: nat, mode: Mode)

  function Sizes(lead: byte): LeadSpec {
    if lead < 0x80 then LeadSpec(1, Objects(0))
    else if lead < 0x90 then LeadSpec(1, Objects(2 * (lead - 0x80)))
    else if lead < 0xa0 then LeadSpec(1, Objects(lead - 0x90))
    else if lead < 0xc0 then LeadSpec(1 + (lead - 0xa0), Objects(0))
    else if lead >= 0xe0 then LeadSpec(1, Objects(0))
    else match lead
      case 0xc0 => LeadSpec(1, Objects(0))
      case 0xc2 => LeadSpec(1, Objects(0))
      case 0xc3 => LeadSpec(1, Objects(0))
      case 0xc4 => LeadSpec(2, Extra(1))
      case 0xc5 => LeadSpec(3, Extra(2))
      case 0xc6 => LeadSpec(5, Extra(4))
      case 0xc7 => LeadSpec(3, Extra(1))
      case 0xc8 => LeadSpec(4, Extra(2))
      case 0xc9 => LeadSpec(6, Extra(4))
      case 0xca => LeadSpec(5, Objects(0))
      case 0xcb => LeadSpec(9, Objects(0))
      case 0xcc => LeadSpec(2, Objects(0))
      case 0xcd => LeadSpec(3, Objects(0))
      case 0xce => LeadSpec(5, Objects(0))
      case 0xcf => LeadSpec(9, Objects(0))
      case 0xd0 => LeadSpec(2, Objects(0))
      case 0xd1 => LeadSpec(3, Objects(0))
      case 0xd2 => LeadSpec(5, Objects(0))
      case 0xd3 => LeadSpec(9, Objects(0))
      case 0xd4 => LeadSpec(3, Objects(0))
      case 0xd5 => LeadSpec(4, Objects(0))
      case 0xd6 => LeadSpec(6, Objects(0))
      case 0xd7 => LeadSpec(10, Objects(0))
      case 0xd8 => LeadSpec(18, Objects(0))
      case 0xd9 => LeadSpec(2, Extra(1))
      case 0xda => LeadSpec(3, Extra(2))
      case 0xdb => LeadSpec(5, Extra(4))
      case 0xdc => LeadSpec(3, ArrayOf(2))
      case 0xdd => LeadSpec(5, ArrayOf(4))
      case 0xde => LeadSpec(3, MapOf(2))
      case 0xdf => LeadSpec(5, MapOf(4))
      case _ => LeadSpec(0, Objects(0))
  }

  // -------------------------------------------------------------- parse trees

  /** `w` is the number of bytes that store a length; 0 stores it in the lead byte. */
  datatype Msg =
    | Atom(lead: byte, body: Bytes)            // fixed length: nil, bool, numbers, fixext
    | Str(w: nat, s: Bytes)                    // w = 0, 1, 2 or 4
    | Bin(w: nat, s: Bytes)                    // w = 1, 2 or 4
    | Ext(w: nat, tag: byte, s: Bytes)         // w = 1, 2 or 4
    | Arr(w: nat, items: seq<Msg>)             // w = 0, 2 or 4
    | Dict(w: nat, entries: seq<Entry>)        // w = 0, 2 or 4

  datatype Entry = Entry(key: Msg, val: Msg)

  /** One more than the largest count a header with `w` length bytes can hold. */
  function Limit(w: nat): nat {
    if w == 0 then 16 else if w == 2 then 0x1_0000 else 0x1_0000_0000
  }

  function StrLimit(w: nat): nat {
    if w == 0 then 32 else if w == 1 then 0x100 else if w == 2 then 0x1_0000 else 0x1_0000_0000
  }

  predicate WellFormed(m: Msg) {
    match m
    case Atom(lead, body) =>
      (lead < 0x80 || lead >= 0xc0) && Sizes(lead) == LeadSpec(1 + |body|, Objects(0))
    case Str(w, s) => w in {0, 1, 2, 4} && |s| < StrLimit(w)
    case Bin(w, s) => w in {1, 2, 4} && |s| < StrLimit(w)
    case Ext(w, _, s) => w in {1, 2, 4} && |s| < StrLimit(w)
    case Arr(w, items) =>
      && w in {0, 2, 4} && |items| < Limit(w)
      && forall i :: 0 <= i < |items| ==> WellFormed(items[i])
    case Dict(w, entries) =>
      && w in {0, 2, 4} && |entries| < Limit(w)
      && AllWellFormed(entries)
  }

  predicate AllWellFormed(entries: seq<Entry>) {
    forall i :: 0 <= i < |entries| ==> EntryWellFormed(entries[i])
  }

  predicate EntryWellFormed(e: Entry) {
    WellFormed(e.key) && WellFormed(e.val)
  }

  /** The lead byte of a `w`-byte length in a family whose members are `base`, `base + 1`, `base + 2`. */
  function Family(base: byte, w: nat): byte
    requires base < 0xf0
  {
    if w == 1 then base else if w == 2 then base + 1 else base + 2
  }

  function StrHeader(w: nat, n: nat): Bytes {
    if w == 0 then [0xa0 + n % 32] else [Family(0xd9, w)] + BigEndian(n, w)
  }

  function ArrayHeader(w: nat, n: nat): Bytes {
    if w == 0 then [0x90 + n % 16] else [if w == 2 then 0xdc else 0xdd] + BigEndian(n, w)
  }

  function MapHeader(w: nat, n: nat): Bytes {
    if w == 0 then [0x80 + n % 16] else [if w == 2 then 0xde else 0xdf] + BigEndian(n, w)
  }

  function Enc(m: Msg): Bytes
    requires WellFormed(m)
  {
    match m
    case Atom(lead, body) => [lead] + body
    case Str(w, s) => StrHeader(w, |s|) + s
    case Bin(w, s) => [Family(0xc4, w)] + BigEndian(|s|, w) + s
    case Ext(w, tag, s) => [Family(0xc7, w)] + BigEndian(|s|, w) + ([tag] + s)
    case Arr(w, items) => ArrayHeader(w, |items|) + EncItems(items)
    case Dict(w, entries) => MapHeader(w, |entries|) + EncEntries(entries)
  }

  function EncItems(items: seq<Msg>): Bytes
    requires forall i :: 0 <= i < |items| ==> WellFormed(items[i])
  {
    if |items| == 0 then [] else Enc(items[0]) + EncItems(items[1..])
  }

  function EncEntries(entries: seq<Entry>): Bytes
    requires AllWellFormed(entries)
  {
    if |entries| == 0 then []
    else EncEntry(entries[0]) + EncEntries(entries[1..])
  }

  function EncEntry(e: Entry): Bytes
    requires EntryWellFormed(e)
  {
    Enc(e.key) + Enc(e.val)
  }

  // ----------------------------------------------------------------- readers

  function ReadMapHeader(b: Bytes): (r: Res<nat>)
    ensures r.Ok? ==> |r.rest| < |b|
  {
    if |b| < 1 then Err
    else if 0x80 <= b[0] < 0x90 then Ok(b[0] - 0x80, b[1..])
    else if b[0] == 0xde then (if |b| < 3 then Err else Ok(Value(b[1..3]), b[3..]))
    else if b[0] == 0xdf then (if |b| < 5 then Err else Ok(Value(b[1..5]), b[5..]))
    else Err
  }

  function ReadArrayHeader(b: Bytes): (r: Res<nat>)
    ensures r.Ok? ==> |r.rest| < |b|
  {
    if |b| < 1 then Err
    else if 0x90 <= b[0] < 0xa0 then Ok(b[0] - 0x90, b[1..])
    else if b[0] == 0xdc then (if |b| < 3 then Err else Ok(Value(b[1..3]), b[3..]))
    else if b[0] == 0xdd then (if |b| < 5 then Err else Ok(Value(b[1..5]), b[5..]))
    else Err
  }

  /** A payload of `n` bytes. */
  function Take(n: nat, b: Bytes): Res<Bytes> {
    if |b| < n then Err else Ok(b[..n], b[n..])
  }

  /** A payload whose length is stored in the `w` bytes after the lead byte. */
  function ReadSized(w: nat, b: Bytes): Res<Bytes>
    requires |b| >= 1
  {
    if |b| < 1 + w then Err else Take(Value(b[1..1 + w]), b[1 + w..])
  }

  function ReadString(b: Bytes): (r: Res<Bytes>)
    ensures r.Ok? ==> |r.rest| < |b|
  {
    if |b| < 1 then Err
    else if 0xa0 <= b[0] < 0xc0 then Take(b[0] - 0xa0, b[1..])
    else if b[0] == 0xd9 then ReadSized(1, b)
    else if b[0] == 0xda then ReadSized(2, b)
    else if b[0] == 0xdb then ReadSized(4, b)
    else Err
  }

  /** A map key: `str` or `bin`.  The stream reader also refuses the empty key. */
  function ReadMapKey(stream: bool, b: Bytes): Res<Bytes> {
    var r :=
      if |b| < 1 then Err
      else if b[0] == 0xc4 then ReadSized(1, b)
      else if b[0] == 0xc5 then ReadSized(2, b)
      else if b[0] == 0xc6 then ReadSized(4, b)
      else ReadString(b);
    if stream && r.Ok? && r.value == [] then Err else r
  }

  /** Non-negative reading of `w` bytes in two's complement. */
  function NonNegative(b: Bytes): Option<nat> {
    if |b| > 0 && b[0] >= 0x80 then None else Some(Value(b))
  }

  function ReadUint(b: Bytes): Res<nat> {
    if |b| < 1 then Err
    else if b[0] < 0x80 then Ok(b[0], b[1..])
    else if 0xcc <= b[0] <= 0xd3 then
      var w := if b[0] < 0xd0 then UintWidth(b[0]) else UintWidth(b[0] - 4);
      if |b| < 1 + w then Err
      else if b[0] < 0xd0 then Ok(Value(b[1..1 + w]), b[1 + w..])
      else match NonNegative(b[1..1 + w])
        case None => Err
        case Some(v) => Ok(v, b[1 + w..])
    else Err
  }

  function UintWidth(lead: byte): nat {
    if lead == 0xcc then 1 else if lead == 0xcd then 2 else if lead == 0xce then 4 else 8
  }

  /** Bytes to drop and objects to skip after them. */
  function GetSize(b: Bytes): Option<(nat, nat)> {
    if |b| == 0 then None
    else
      var spec := Sizes(b[0]);
      if spec.size == 0 then None
      else match spec.mode
        case Objects(n) => Some((spec.size, n))
        case Extra(w) => if |b| < spec.size then None else Some((spec.size + Value(b[1..1 + w]), 0))
        case ArrayOf(w) => if |b| < spec.size then None else Some((spec.size, Value(b[1..1 + w])))
        case MapOf(w) => if |b| < spec.size then None else Some((spec.size, 2 * Value(b[1..1 + w])))
  }

  /** By the number of bytes the stream still has: are at least five of them buffered? */
  type Buffering = nat -> bool

  /** The byte-slice functions and `CopyNext` look at as much as they need. */
  const NEVER: Buffering := n => false

  const ALWAYS: Buffering := n => true

  /** What a skip looks at: five bytes when the stream has that many buffered. */
  function Window(full: Buffering, b: Bytes): Bytes {
    if full(|b|) && |b| > 5 then b[..5] else b
  }

  /** Drop one object. */
  function Skip(full: Buffering, b: Bytes): (r: Option<Bytes>)
    ensures r.Some? ==> |r.value| < |b|
    decreases |b|, 0
  {
    match GetSize(Window(full, b))
    case None => None
    case Some((size, objects)) =>
      if |b| < size then None else SkipMany(full, objects, b[size..])
  }

  /** Drop `n` objects. */
  function SkipMany(full: Buffering, n: nat, b: Bytes): (r: Option<Bytes>)
    ensures r.Some? ==> |r.value| <= |b|
    decreases |b|, n + 1
  {
    if n == 0 then Some(b)
    else match Skip(full, b)
      case None => None
      case Some(rest) => SkipMany(full, n - 1, rest)
  }

  /** The number of bytes a tree is printed to. */
  function Len(m: Msg): nat {
    match m
    case Atom(_, body) => 1 + |body|
    case Str(w, s) => |StrHeader(w, |s|)| + |s|
    case Bin(w, s) => 1 + w + |s|
    case Ext(w, _, s) => 2 + w + |s|
    case Arr(w, items) => |ArrayHeader(w, |items|)| + LenItems(items)
    case Dict(w, entries) => |MapHeader(w, |entries|)| + LenEntries(entries)
  }

  function LenItems(items: seq<Msg>): nat {
    if |items| == 0 then 0 else Len(items[0]) + LenItems(items[1..])
  }

  function LenEntries(entries: seq<Entry>): nat {
    if |entries| == 0 then 0 else LenEntry(entries[0]) + LenEntries(entries[1..])
  }

  function LenEntry(e: Entry): nat { Len(e.key) + Len(e.val) }

  /**
   The header of an extension with a four-byte length has six bytes, one more than
   a skip looks at when it finds five buffered.  `n` is what follows `m`.
   */
  predicate Skippable(full: Buffering, m: Msg, n: nat)
    decreases m, 0
  {
    match m
    case Ext(w, _, s) => w != 4 || !full(6 + |s| + n)
    case Arr(_, items) => SkippableItems(full, items, n)
    case Dict(_, entries) => SkippableEntries(full, entries, n)
    case _ => true
  }

  predicate SkippableItems(full: Buffering, items: seq<Msg>, n: nat)
    decreases items, 1
  {
    |items| == 0 || (Skippable(full, items[0], LenItems(items[1..]) + n) && SkippableItems(full, items[1..], n))
  }

  predicate SkippableEntries(full: Buffering, entries: seq<Entry>, n: nat)
    decreases entries, 1
  {
    || |entries| == 0
    || (SkippableEntry(full, entries[0], LenEntries(entries[1..]) + n) && SkippableEntries(full, entries[1..], n))
  }

  predicate SkippableEntry(full: Buffering, e: Entry, n: nat)
    decreases e, 0
  {
    Skippable(full, e.key, Len(e.val) + n) && Skippable(full, e.val, n)
  }

  // ------------------------------------------------- readers on printed trees

  function StrOf(m: Msg): Option<Bytes> {
    if m.Str? then Some(m.s) else None
  }

  function KeyOf(stream: bool, m: Msg): Option<Bytes> {
    if (m.Str? || m.Bin?) && !(stream && m.s == []) then Some(m.s) else None
  }

  function UintOf(m: Msg): Option<nat> {
    match m
    case Atom(lead, body) =>
      if lead < 0x80 then Some(lead)
      else if 0xcc <= lead <= 0xcf then Some(Value(body))
      else if 0xd0 <= lead <= 0xd3 then NonNegative(body)
      else None
    case _ => None
  }

  function Answer<T>(v: Option<T>, rest: Bytes): Res<T> {
    match v case None => Err case Some(x) => Ok(x, rest)
  }

  lemma Assoc(a: Bytes, b: Bytes, c: Bytes)
    ensures (a + b) + c == a + (b + c)
  {
  }

  lemma Limits()
    ensures Pow256(1) == 0x100 && Pow256(2) == 0x1_0000 && Pow256(4) == 0x1_0000_0000
  {
    assert Pow256(1) == 256 * Pow256(0);
    assert Pow256(2) == 256 * Pow256(1);
    assert Pow256(3) == 256 * Pow256(2);
    assert Pow256(4) == 256 * Pow256(3);
  }

  /** A stored length is read back, and what follows it is untouched. */
  lemma LengthThen(lead: byte, n: nat, w: nat, tail: Bytes)
    requires w in {1, 2, 4} && n < StrLimit(w)
    ensures
      var b := [lead] + BigEndian(n, w) + tail;
      |b| >= 1 + w && b[0] == lead && Value(b[1..1 + w]) == n && b[1 + w..] == tail
  {
    Limits();
    BigEndianValue(n, w);
    var b := [lead] + BigEndian(n, w) + tail;
    assert b[1..1 + w] == BigEndian(n, w);
  }

  /** The lead byte tells the kind of the object. */
  lemma LeadOf(m: Msg, rest: Bytes)
    requires WellFormed(m)
    ensures |Enc(m)| > 0 && (Enc(m) + rest)[0] == Enc(m)[0]
    ensures
      var lead := Enc(m)[0];
      match m
      case Atom(l, _) => lead == l
      case Str(w, _) => 0xa0 <= lead < 0xc0 || 0xd9 <= lead <= 0xdb
      case Bin(w, _) => lead == Family(0xc4, w)
      case Ext(w, _, _) => lead == Family(0xc7, w)
      case Arr(w, _) => 0x90 <= lead < 0xa0 || 0xdc <= lead <= 0xdd
      case Dict(w, _) => 0x80 <= lead < 0x90 || 0xde <= lead <= 0xdf
  {
  }

  /** An atom is none of the kinds that have a reader of their own, numbers apart. */
  lemma AtomLead(m: Msg)
    requires WellFormed(m) && m.Atom?
    ensures m.lead < 0x80 || 0xc0 <= m.lead < 0xc4 || 0xca <= m.lead < 0xd9 || 0xe0 <= m.lead
    ensures 0xcc <= m.lead < 0xd0 ==> |m.body| == UintWidth(m.lead)
    ensures 0xd0 <= m.lead < 0xd4 ==> |m.body| == UintWidth(m.lead - 4)
  {
  }

  lemma MapHeaderThen(w: nat, n: nat, tail: Bytes)
    requires w in {0, 2, 4} && n < Limit(w)
    ensures ReadMapHeader(MapHeader(w, n) + tail) == Ok(n, tail)
  {
    if w != 0 {
      LengthThen(MapHeader(w, n)[0], n, w, tail);
    }
  }

  lemma ArrayHeaderThen(w: nat, n: nat, tail: Bytes)
    requires w in {0, 2, 4} && n < Limit(w)
    ensures ReadArrayHeader(ArrayHeader(w, n) + tail) == Ok(n, tail)
  {
    if w != 0 {
      LengthThen(ArrayHeader(w, n)[0], n, w, tail);
    }
  }

  /** A map header is read back exactly, and nothing but a map passes for one. */
  lemma ReadMapHeaderEnc(m: Msg, rest: Bytes)
    requires WellFormed(m)
    ensures ReadMapHeader(Enc(m) + rest) ==
            (if m.Dict? then Ok(|m.entries|, EncEntries(m.entries) + rest) else Err)
  {
    LeadOf(m, rest);
    if m.Dict? {
      Assoc(MapHeader(m.w, |m.entries|), EncEntries(m.entries), rest);
      MapHeaderThen(m.w, |m.entries|, EncEntries(m.entries) + rest);
    } else if m.Atom? {
      AtomLead(m);
    }
  }

  lemma ReadArrayHeaderEnc(m: Msg, rest: Bytes)
    requires WellFormed(m)
    ensures ReadArrayHeader(Enc(m) + rest) ==
            (if m.Arr? then Ok(|m.items|, EncItems(m.items) + rest) else Err)
  {
    LeadOf(m, rest);
    if m.Arr? {
      Assoc(ArrayHeader(m.w, |m.items|), EncItems(m.items), rest);
      ArrayHeaderThen(m.w, |m.items|, EncItems(m.items) + rest);
    } else if m.Atom? {
      AtomLead(m);
    }
  }

  lemma SizedThen(lead: byte, w: nat, s: Bytes, rest: Bytes)
    requires w in {1, 2, 4} && |s| < StrLimit(w)
    ensures
      var b := [lead] + BigEndian(|s|, w) + s + rest;
      |b| >= 1 && b[0] == lead && ReadSized(w, b) == Ok(s, rest)
  {
    Assoc([lead] + BigEndian(|s|, w), s, rest);
    LengthThen(lead, |s|, w, s + rest);
  }

  lemma ReadStringEnc(m: Msg, rest: Bytes)
    requires WellFormed(m)
    ensures ReadString(Enc(m) + rest) == Answer(StrOf(m), rest)
  {
    LeadOf(m, rest);
    if m.Atom? {
      AtomLead(m);
    } else if m.Str? && m.w == 0 {
      Assoc([0xa0 + |m.s|], m.s, rest);
      assert ([0xa0 + |m.s|] + (m.s + rest))[1..] == m.s + rest;
    } else if m.Str? {
      SizedThen(Family(0xd9, m.w), m.w, m.s, rest);
    }
  }

  lemma ReadMapKeyEnc(stream: bool, m: Msg, rest: Bytes)
    requires WellFormed(m)
    ensures ReadMapKey(stream, Enc(m) + rest) == Answer(KeyOf(stream, m), rest)
  {
    LeadOf(m, rest);
    ReadStringEnc(m, rest);
    if m.Atom? {
      AtomLead(m);
    } else if m.Bin? {
      SizedThen(Family(0xc4, m.w), m.w, m.s, rest);
    }
  }

  lemma ReadUintEnc(m: Msg, rest: Bytes)
    requires WellFormed(m)
    ensures ReadUint(Enc(m) + rest) == Answer(UintOf(m), rest)
  {
    LeadOf(m, rest);
    if m.Atom? {
      AtomLead(m);
      var b := Enc(m) + rest;
      assert b[1..1 + |m.body|] == m.body;
      assert b[1 + |m.body|..] == rest;
    }
  }

  // ----------------------------------------------------------------- lengths

  lemma {:induction false} LenEnc(m: Msg)
    requires WellFormed(m)
    ensures |Enc(m)| == Len(m)
    decreases m, 0
  {
    match m
    case Arr(_, items) => LenItemsEnc(items);
    case Dict(_, entries) => LenEntriesEnc(entries);
    case _ =>
  }

  lemma {:induction false} LenItemsEnc(items: seq<Msg>)
    requires forall i :: 0 <= i < |items| ==> WellFormed(items[i])
    ensures |EncItems(items)| == LenItems(items)
    decreases items, 1
  {
    if |items| == 0 {
    } else {
      LenEnc(items[0]);
      LenItemsEnc(items[1..]);
    }
  }

  lemma {:induction false} LenEntriesEnc(entries: seq<Entry>)
    requires AllWellFormed(entries)
    ensures |EncEntries(entries)| == LenEntries(entries)
    decreases entries, 1
  {
    if |entries| == 0 {
    } else {
      assert EntryWellFormed(entries[0]);
      LenEntryEnc(entries[0]);
      LenEntriesEnc(entries[1..]);
    }
  }

  lemma {:induction false} LenEntryEnc(e: Entry)
    requires EntryWellFormed(e)
    ensures |EncEntry(e)| == LenEntry(e) && |Enc(e.key)| == Len(e.key) && |Enc(e.val)| == Len(e.val)
    decreases e, 0
  {
    LenEnc(e.key);
    LenEnc(e.val);
  }

  // -------------------------------------------------------------------- skip

  lemma SizesSmall(lead: byte)
    ensures
      var spec := Sizes(lead);
      match spec.mode
      case Objects(_) => true
      case Extra(w) => 1 + w <= spec.size && w <= 4 && (lead != 0xc9 ==> spec.size <= 5)
      case ArrayOf(w) => 1 + w <= spec.size <= 5
      case MapOf(w) => 1 + w <= spec.size <= 5
  {
  }

  lemma Prefix(b: Bytes, w: nat)
    requires w <= 4 && |b| > 5
    ensures b[..5][1..1 + w] == b[1..1 + w]
  {
  }

  /** Five bytes are enough for every header but one. */
  lemma WindowSize(full: Buffering, b: Bytes)
    requires !(full(|b|) && |b| > 5 && b[0] == 0xc9)
    ensures GetSize(Window(full, b)) == GetSize(b)
  {
    if full(|b|) && |b| > 5 {
      SizesSmall(b[0]);
      hide Sizes, Value;
      match Sizes(b[0]).mode
      case Objects(_) =>
      case Extra(w) => Prefix(b, w);
      case ArrayOf(w) => Prefix(b, w);
      case MapOf(w) => Prefix(b, w);
    }
  }

  lemma SkipAs(full: Buffering, b: Bytes, size: nat, objects: nat, rest: Bytes)
    requires GetSize(b) == Some((size, objects)) && size <= |b| && b[size..] == rest
    requires !(full(|b|) && |b| > 5 && b[0] == 0xc9)
    ensures Skip(full, b) == SkipMany(full, objects, rest)
  {
    hide GetSize, Window;
    WindowSize(full, b);
  }

  lemma SkipNone(full: Buffering, b: Bytes)
    ensures SkipMany(full, 0, b) == Some(b)
  {
  }

  lemma StrGetSize(w: nat, n: nat, tail: Bytes)
    requires w in {0, 1, 2, 4} && n < StrLimit(w)
    ensures GetSize(StrHeader(w, n) + tail) == Some((|StrHeader(w, n)| + n, 0))
  {
    if w != 0 {
      LengthThen(Family(0xd9, w), n, w, tail);
    }
  }

  lemma BinGetSize(w: nat, n: nat, tail: Bytes)
    requires w in {1, 2, 4} && n < StrLimit(w)
    ensures GetSize([Family(0xc4, w)] + BigEndian(n, w) + tail) == Some((1 + w + n, 0))
  {
    LengthThen(Family(0xc4, w), n, w, tail);
  }

  lemma ExtGetSize(w: nat, n: nat, tail: Bytes)
    requires w in {1, 2, 4} && n < StrLimit(w) && |tail| > 0
    ensures GetSize([Family(0xc7, w)] + BigEndian(n, w) + tail) == Some((2 + w + n, 0))
  {
    LengthThen(Family(0xc7, w), n, w, tail);
  }

  lemma MapGetSize(w: nat, n: nat, tail: Bytes)
    requires w in {0, 2, 4} && n < Limit(w)
    ensures GetSize(MapHeader(w, n) + tail) == Some((|MapHeader(w, n)|, 2 * n))
  {
    if w != 0 {
      LengthThen(MapHeader(w, n)[0], n, w, tail);
    }
  }

  lemma ArrayGetSize(w: nat, n: nat, tail: Bytes)
    requires w in {0, 2, 4} && n < Limit(w)
    ensures GetSize(ArrayHeader(w, n) + tail) == Some((|ArrayHeader(w, n)|, n))
  {
    if w != 0 {
      LengthThen(ArrayHeader(w, n)[0], n, w, tail);
    }
  }

  lemma NotExt(m: Msg, rest: Bytes)
    requires WellFormed(m) && !m.Ext?
    ensures (Enc(m) + rest)[0] != 0xc9
  {
    LeadOf(m, rest);
  }

  lemma SkipLeaf(full: Buffering, m: Msg, rest: Bytes)
    requires WellFormed(m) && !m.Arr? && !m.Dict? && !m.Ext?
    ensures Skip(full, Enc(m) + rest) == Some(rest)
  {
    hide Skip, SkipMany, GetSize, Sizes;
    NotExt(m, rest);
    SkipNone(full, rest);
    match m
    case Atom(lead, body) =>
      AtomGetSize(m, rest);
      SkipAs(full, Enc(m) + rest, 1 + |body|, 0, rest);
    case Str(w, s) =>
      Assoc(StrHeader(w, |s|), s, rest);
      StrGetSize(w, |s|, s + rest);
      SkipAs(full, Enc(m) + rest, |StrHeader(w, |s|)| + |s|, 0, rest);
    case Bin(w, s) =>
      Assoc([Family(0xc4, w)] + BigEndian(|s|, w), s, rest);
      BinGetSize(w, |s|, s + rest);
      SkipAs(full, Enc(m) + rest, 1 + w + |s|, 0, rest);
  }

  lemma ExtBytes(m: Msg, rest: Bytes)
    requires WellFormed(m) && m.Ext?
    ensures |Enc(m) + rest| == 2 + m.w + |m.s| + |rest| && (Enc(m) + rest)[0] == Family(0xc7, m.w)
    ensures (Enc(m) + rest)[2 + m.w + |m.s|..] == rest
    ensures GetSize(Enc(m) + rest) == Some((2 + m.w + |m.s|, 0))
  {
    Assoc([Family(0xc7, m.w)] + BigEndian(|m.s|, m.w), [m.tag] + m.s, rest);
    ExtGetSize(m.w, |m.s|, [m.tag] + m.s + rest);
  }

  lemma TooShort(full: Buffering, b: Bytes)
    requires full(|b|) && |b| > 5 && b[0] == 0xc9
    ensures Skip(full, b) == None
  {
  }

  lemma SkipExt(full: Buffering, m: Msg, rest: Bytes)
    requires WellFormed(m) && m.Ext?
    ensures Skip(full, Enc(m) + rest) == if Skippable(full, m, |rest|) then Some(rest) else None
  {
    hide Enc, GetSize, Skip, SkipMany;
    ExtBytes(m, rest);
    if Skippable(full, m, |rest|) {
      SkipNone(full, rest);
      SkipAs(full, Enc(m) + rest, 2 + m.w + |m.s|, 0, rest);
    } else {
      TooShort(full, Enc(m) + rest);
    }
  }

  lemma AtomGetSize(m: Msg, rest: Bytes)
    requires WellFormed(m) && m.Atom?
    ensures GetSize(Enc(m) + rest) == Some((1 + |m.body|, 0))
  {
    LeadOf(m, rest);
  }

  /** Skipping drops exactly one object, whatever its type and nesting, or fails at an extension it cannot size. */
  lemma {:induction false} SkipEnc(full: Buffering, m: Msg, rest: Bytes)
    requires WellFormed(m)
    ensures Skip(full, Enc(m) + rest) == if Skippable(full, m, |rest|) then Some(rest) else None
    decreases m, 0
  {
    hide Skip;
    hide SkipMany;
    hide GetSize;
    match m
    case Arr(w, items) =>
      var tail := EncItems(items) + rest;
      SkipItemsEnc(full, items, rest);
      Assoc(ArrayHeader(w, |items|), EncItems(items), rest);
      ArrayGetSize(w, |items|, tail);
      SkipAs(full, Enc(m) + rest, |ArrayHeader(w, |items|)|, |items|, tail);
    case Dict(w, entries) =>
      var tail := EncEntries(entries) + rest;
      SkipEntriesEnc(full, entries, rest);
      Assoc(MapHeader(w, |entries|), EncEntries(entries), rest);
      MapGetSize(w, |entries|, tail);
      SkipAs(full, Enc(m) + rest, |MapHeader(w, |entries|)|, 2 * |entries|, tail);
    case Ext(_, _, _) => SkipExt(full, m, rest);
    case _ => SkipLeaf(full, m, rest);
  }

  lemma SkipManyHead(full: Buffering, n: nat, b: Bytes)
    ensures SkipMany(full, n + 1, b) == if Skip(full, b).None? then None else SkipMany(full, n, Skip(full, b).value)
  {
    hide Skip;
  }

  lemma {:induction false} SkipItemsEnc(full: Buffering, items: seq<Msg>, rest: Bytes)
    requires forall i :: 0 <= i < |items| ==> WellFormed(items[i])
    ensures SkipMany(full, |items|, EncItems(items) + rest) ==
      if SkippableItems(full, items, |rest|) then Some(rest) else None
    decreases items, 1
  {
    hide Skip;
    hide SkipMany;
    if |items| == 0 {
      SkipNone(full, rest);
      assert EncItems(items) + rest == rest;
    } else {
      var tail := EncItems(items[1..]) + rest;
      Assoc(Enc(items[0]), EncItems(items[1..]), rest);
      LenItemsEnc(items[1..]);
      SkipEnc(full, items[0], tail);
      SkipManyHead(full, |items| - 1, Enc(items[0]) + tail);
      SkipItemsEnc(full, items[1..], rest);
    }
  }

  lemma {:induction false} SkipEntriesEnc(full: Buffering, entries: seq<Entry>, rest: Bytes)
    requires AllWellFormed(entries)
    ensures SkipMany(full, 2 * |entries|, EncEntries(entries) + rest) ==
      if SkippableEntries(full, entries, |rest|) then Some(rest) else None
    decreases entries, 1
  {
    hide Skip;
    hide SkipMany;
    if |entries| == 0 {
      SkipNone(full, rest);
      assert EncEntries(entries) + rest == rest;
    } else {
      var tail := EncEntries(entries[1..]) + rest;
      Assoc(EncEntry(entries[0]), EncEntries(entries[1..]), rest);
      LenEntriesEnc(entries[1..]);
      SkipEntryEnc(full, entries[0], 2 * |entries[1..]|, tail);
      SkipEntriesEnc(full, entries[1..], rest);
    }
  }

  lemma {:induction false} SkipEntryEnc(full: Buffering, e: Entry, n: nat, rest: Bytes)
    requires EntryWellFormed(e)
    ensures SkipMany(full, n + 2, EncEntry(e) + rest) ==
      if SkippableEntry(full, e, |rest|) then SkipMany(full, n, rest) else None
    decreases e, 0
  {
    hide Skip;
    hide SkipMany;
    var tail := Enc(e.val) + rest;
    Assoc(Enc(e.key), Enc(e.val), rest);
    LenEnc(e.val);
    SkipEnc(full, e.key, tail);
    SkipManyHead(full, n + 1, Enc(e.key) + tail);
    SkipEnc(full, e.val, rest);
    SkipManyHead(full, n, tail);
  }

  // ------------------------------------- values every skip can get past

  /** No extension with a four-byte length anywhere inside. */
  predicate Portable(m: Msg) {
    match m
    case Ext(w, _, _) => w != 4
    case Arr(_, items) => forall i :: 0 <= i < |items| ==> Portable(items[i])
    case Dict(_, entries) => forall i :: 0 <= i < |entries| ==> PortableEntry(entries[i])
    case _ => true
  }

  predicate PortableEntry(e: Entry) { Portable(e.key) && Portable(e.val) }

  /** Portable values can be skipped however the stream is buffered; with five bytes always there, no others can. */
  lemma {:induction false} PortableSkips(full: Buffering, m: Msg, n: nat)
    ensures Portable(m) ==> Skippable(full, m, n)
    ensures Skippable(NEVER, m, n)
    ensures Skippable(ALWAYS, m, n) ==> Portable(m)
    decreases m, 0
  {
    match m
    case Arr(_, items) => PortableItems(full, items, n);
    case Dict(_, entries) => PortableEntries(full, entries, n);
    case _ =>
  }

  lemma {:induction false} PortableItems(full: Buffering, items: seq<Msg>, n: nat)
    ensures (forall i :: 0 <= i < |items| ==> Portable(items[i])) ==> SkippableItems(full, items, n)
    ensures SkippableItems(NEVER, items, n)
    ensures SkippableItems(ALWAYS, items, n) ==> forall i :: 0 <= i < |items| ==> Portable(items[i])
    decreases items, 1
  {
    if |items| == 0 {
    } else {
      PortableSkips(full, items[0], LenItems(items[1..]) + n);
      PortableItems(full, items[1..], n);
      assert forall i :: 0 <= i < |items| ==> items[i] == if i == 0 then items[0] else items[1..][i - 1];
    }
  }

  lemma {:induction false} PortableEntries(full: Buffering, entries: seq<Entry>, n: nat)
    ensures (forall i :: 0 <= i < |entries| ==> PortableEntry(entries[i])) ==> SkippableEntries(full, entries, n)
    ensures SkippableEntries(NEVER, entries, n)
    ensures SkippableEntries(ALWAYS, entries, n) ==> forall i :: 0 <= i < |entries| ==> PortableEntry(entries[i])
    decreases entries, 1
  {
    if |entries| == 0 {
    } else {
      PortableEntrySkips(full, entries[0], LenEntries(entries[1..]) + n);
      PortableEntries(full, entries[1..], n);
      hide PortableEntry;
      assert forall i :: 0 <= i < |entries| ==> entries[i] == if i == 0 then entries[0] else entries[1..][i - 1];
    }
  }

  lemma {:induction false} PortableEntrySkips(full: Buffering, e: Entry, n: nat)
    ensures PortableEntry(e) ==> SkippableEntry(full, e, n)
    ensures SkippableEntry(NEVER, e, n)
    ensures SkippableEntry(ALWAYS, e, n) ==> PortableEntry(e)
    decreases e, 0
  {
    PortableSkips(full, e.key, Len(e.val) + n);
    PortableSkips(full, e.val, n);
  }
}
