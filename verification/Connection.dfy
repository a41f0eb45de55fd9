/**
 The connection loop: channels multiplexed over one byte stream, a dispatcher
 per open channel, and other goroutines that may detach a channel at any time.
 */
module Connection {
  import opened Options
  import opened MessagePack
  import opened Framing

  datatype Dispatcher = SpoolCancel | SpawnKill

  type Sessions = map<nat, Dispatcher>

  datatype Conn = Conn(sessions: Sessions, highest: nat)

  /** Who gets a message for channel `c`. */
  function Route(s: Conn, c: nat): Kind {
    if c in s.sessions then Attached else if c <= s.highest then Detached else New
  }

  function Received(s: Conn, c: nat): Conn { if Route(s, c).New? then s.(highest := c) else s }

  function Without(s: Conn, cs: set<nat>): Conn { s.(sessions := s.sessions - cs) }

  /** Attach what `Handle` returned, or detach the channel. */
  function Settled(s: Conn, c: nat, d: Option<Dispatcher>): Conn {
    if d.Some? then s.(sessions := s.sessions[c := d.value]) else Without(s, {c})
  }

  /** Every channel with a dispatcher has been opened. */
  predicate Low(s: Conn) { forall c :: c in s.sessions ==> c <= s.highest }

  // ---------------------------------------------------------- channel lifetime

  /** Whether the message being handled is the one that opened its channel. */
  datatype Phase = AtTop | Handling(c: nat, opening: bool)

  datatype Life = Life(conn: Conn, phase: Phase, history: seq<nat>)

  datatype Event = Receive(c: nat) | Finish(d: Option<Dispatcher>) | DetachElsewhere(c: nat)

  const START := Life(Conn(map[], 0), AtTop, [])

  /** Only the dispatcher of a new channel returns one; those it returns never do. */
  predicate Enabled(s: Life, e: Event) {
    match e
    case Receive(_) => s.phase.AtTop?
    case Finish(d) => s.phase.Handling? && (d.Some? ==> s.phase.opening)
    case DetachElsewhere(_) => true
  }

  function Apply(s: Life, e: Event): Life
    requires Enabled(s, e)
  {
    match e
    case Receive(c) =>
      (match Route(s.conn, c)
       case Detached => s
       case Attached => s.(phase := Handling(c, false))
       case New => Life(Received(s.conn, c), Handling(c, true), s.history + [c]))
    case Finish(d) => s.(conn := Settled(s.conn, s.phase.c, d), phase := AtTop)
    case DetachElsewhere(c) => s.(conn := Without(s.conn, {c}))
  }

  predicate Run(states: seq<Life>, events: seq<Event>) {
    && |states| == |events| + 1
    && forall i :: 0 <= i < |events| ==> Enabled(states[i], events[i]) && states[i + 1] == Apply(states[i], events[i])
  }

  predicate Increasing(cs: seq<nat>) { forall i, j :: 0 <= i < j < |cs| ==> cs[i] < cs[j] }

  predicate LifeInv(s: Life) {
    && Low(s.conn) && Increasing(s.history)
    && s.conn.highest == (if s.history == [] then 0 else s.history[|s.history| - 1])
    && (forall c :: c in s.conn.sessions ==> c in s.history)
    && (s.phase.Handling? ==> s.phase.c in s.history)
    && (forall c :: c in s.history ==> 0 < c <= s.conn.highest)
  }

  /**
   In every state of every run: channels have been opened in strictly increasing
   order, so each at most once, and only opened channels up to `highest` have a
   dispatcher.
   */
  lemma {:induction false} Lifetime(states: seq<Life>, events: seq<Event>, k: nat)
    requires Run(states, events) && states[0] == START && k < |states|
    ensures LifeInv(states[k])
    decreases k
  {
    if k == 0 {
    } else {
      Lifetime(states, events, k - 1);
      LifeStep(states[k - 1], events[k - 1]);
      hide LifeInv, Apply, Enabled;
    }
  }

  lemma LifeStep(s: Life, e: Event)
    requires LifeInv(s) && Enabled(s, e)
    ensures LifeInv(Apply(s, e))
  {
    if e.Receive? && Route(s.conn, e.c).New? {
      OpenStep(s, e.c);
    }
  }

  lemma OpenStep(s: Life, c: nat)
    requires LifeInv(s) && Enabled(s, Receive(c)) && Route(s.conn, c).New?
    ensures LifeInv(Apply(s, Receive(c)))
  {
  }

  /** An opened channel without a dispatcher, unless the loop is handling the message that opened it. */
  predicate Dead(s: Life, c: nat) { c <= s.conn.highest && c !in s.conn.sessions && s.phase != Handling(c, true) }

  /** Dead channels stay dead. */
  lemma {:induction false} DeadForever(states: seq<Life>, events: seq<Event>, i: nat, j: nat, c: nat)
    requires Run(states, events) && i <= j < |states| && Dead(states[i], c)
    ensures Dead(states[j], c)
    decreases j - i
  {
    if i < j {
      DeadForever(states, events, i, j - 1, c);
    }
  }

  /**
   An absent channel can come back exactly when the loop is handling the message
   that opened it; one whose later message is being handled cannot.
   */
  lemma ComesBackExactly(s: Life, c: nat)
    requires c <= s.conn.highest && c !in s.conn.sessions
    ensures s.phase == Handling(c, true) <==>
      exists states: seq<Life>, events: seq<Event> :: Run(states, events) && states[0] == s && c in states[|events|].conn.sessions
  {
    if s.phase == Handling(c, true) {
      var e := Finish(Some(SpoolCancel));
      var states, events := [s, Apply(s, e)], [e];
      assert Run(states, events) && c in states[|events|].conn.sessions;
    } else {
      forall states: seq<Life>, events: seq<Event> | Run(states, events) && states[0] == s
        ensures c !in states[|events|].conn.sessions
      {
        DeadForever(states, events, 0, |events|, c);
      }
    }
  }

  // ---------------------------------------------------------------- the loop

  /** What others do during turn `i`: detaches before the look-up and while handling; whether the box takes the request. */
  datatype Chance = Chance(before: set<nat>, during: set<nat>, ok: bool)

  type Chances = nat -> Chance

  datatype Visit = Visit(at: Bytes, head: Head, kind: Kind, verdict: Verdict)

  /** The turns of the loop, and where the reader is when it ends. */
  datatype Log = Log(visits: seq<Visit>, end: Bytes)

  function DispatcherFor(v: Verdict, ok: bool): Option<Dispatcher> {
    if !v.Accepted? || !ok then None else Some(if v.request.Spool? then SpoolCancel else SpawnKill)
  }

  /** Who gets the message of this turn. */
  function KindOf(chance: Chance, s: Conn, c: nat): Kind { Route(Without(s, chance.before), c) }

  /** One turn after its head has been read. */
  function TurnOf(full: Buffering, chance: Chance, s: Conn, h: Head, b: Bytes): (t: Handled)
    ensures |t.rest| <= |b|
  {
    Turn(full, KindOf(chance, s, h.channel), h, b)
  }

  function ConnAfter(chance: Chance, s: Conn, c: nat, v: Verdict): Conn {
    Settled(Without(Received(Without(s, chance.before), c), chance.during), c, DispatcherFor(v, chance.ok))
  }

  function Converse(full: Buffering, chances: Chances, i: nat, s: Conn, b: Bytes): Log
    decreases |b|
  {
    match Next(b)
    case Err => Log([], b)
    case Ok(h, r) =>
      var t := TurnOf(full, chances(i), s, h, r);
      var v := Visit(b, h, KindOf(chances(i), s, h.channel), t.verdict);
      if t.verdict.Invalid? then Log([v], t.rest)
      else
        var l := Converse(full, chances, i + 1, ConnAfter(chances(i), s, h.channel, t.verdict), t.rest);
        Log([v] + l.visits, l.end)
  }

  /** The channels a conversation opens. */
  function NewChannels(vs: seq<Visit>): seq<nat> {
    if |vs| == 0 then [] else (if vs[0].kind.New? then [vs[0].head.channel] else []) + NewChannels(vs[1..])
  }

  // ------------------------------------------------- a conversation is a run

  lemma Join(states: seq<Life>, events: seq<Event>, states': seq<Life>, events': seq<Event>)
    requires Run(states, events) && Run(states', events') && states[|events|] == states'[0]
    ensures Run(states + states'[1..], events + events')
    ensures (states + states'[1..])[|events + events'|] == states'[|events'|]
  {
    hide Enabled, Apply;
    var ss, ee := states + states'[1..], events + events';
    forall i | 0 <= i < |ee|
      ensures Enabled(ss[i], ee[i]) && ss[i + 1] == Apply(ss[i], ee[i])
    {
      if i < |events| {
        assert ss[i] == states[i] && ss[i + 1] == states[i + 1] && ee[i] == events[i];
      } else {
        var j := i - |events|;
        assert ss[i] == states'[j] && ss[i + 1] == states'[j + 1] && ee[i] == events'[j];
      }
    }
  }

  lemma OneEvent(s: Life, e: Event)
    requires Enabled(s, e)
    ensures Run([s, Apply(s, e)], [e])
  {
  }

  /** Other goroutines detach some channels, one after the other. */
  lemma {:induction false} DetachRun(s: Life, cs: set<nat>) returns (states: seq<Life>, events: seq<Event>)
    ensures Run(states, events) && states[0] == s && states[|events|] == s.(conn := Without(s.conn, cs))
    decreases cs
  {
    if cs == {} {
      assert s.conn.sessions - {} == s.conn.sessions;
      states, events := [s], [];
    } else {
      var c :| c in cs;
      var e := DetachElsewhere(c);
      OneEvent(s, e);
      states, events := DetachRun(Apply(s, e), cs - {c});
      assert s.conn.sessions - {c} - (cs - {c}) == s.conn.sessions - cs;
      Join([s, Apply(s, e)], [e], states, events);
      states, events := [s, Apply(s, e)] + states[1..], [e] + events;
    }
  }

  /** Up to the point where the message is handed over. */
  lemma TurnStarts(chance: Chance, s: Life, c: nat) returns (states: seq<Life>, events: seq<Event>)
    requires s.phase.AtTop?
    ensures Run(states, events) && states[0] == s
    ensures
      var kind := KindOf(chance, s.conn, c);
      states[|events|] == Life(Received(Without(s.conn, chance.before), c), if kind.Detached? then AtTop else Handling(c, kind.New?),
                               s.history + if kind.New? then [c] else [])
  {
    states, events := DetachRun(s, chance.before);
    var t := states[|events|];
    hide Run;
    OneEvent(t, Receive(c));
    Join(states, events, [t, Apply(t, Receive(c))], [Receive(c)]);
    states, events := states + [t, Apply(t, Receive(c))][1..], events + [Receive(c)];
    assert s.history + [] == s.history;
  }

  lemma TurnIsRun(chance: Chance, s: Life, c: nat, v: Verdict) returns (states: seq<Life>, events: seq<Event>)
    requires s.phase.AtTop? && (KindOf(chance, s.conn, c).New? || DispatcherFor(v, chance.ok).None?)
    ensures Run(states, events) && states[0] == s
    ensures states[|events|] ==
      Life(ConnAfter(chance, s.conn, c, v), AtTop, s.history + if KindOf(chance, s.conn, c).New? then [c] else [])
  {
    states, events := TurnStarts(chance, s, c);
    var t := states[|events|];
    hide Run;
    var ds, es := DetachRun(t, chance.during);
    Join(states, events, ds, es);
    states, events := states + ds[1..], events + es;
    var u := states[|events|];
    if u.phase.Handling? {
      var e := Finish(DispatcherFor(v, chance.ok));
      OneEvent(u, e);
      Join(states, events, [u, Apply(u, e)], [e]);
      states, events := states + [u, Apply(u, e)][1..], events + [e];
    } else {
      assert u.conn.sessions - {c} == u.conn.sessions;
    }
  }

  /** Every conversation is a run of the channels' life, and opens the channels that run records. */
  lemma {:induction false} ConversationIsRun(full: Buffering, chances: Chances, i: nat, s: Life, b: Bytes)
    returns (states: seq<Life>, events: seq<Event>)
    requires s.phase.AtTop?
    ensures Run(states, events) && states[0] == s
    ensures states[|events|].history == s.history + NewChannels(Converse(full, chances, i, s.conn, b).visits)
    decreases |b|
  {
    hide Next, TurnOf, KindOf, ConnAfter, Enabled, Apply;
    var n := Next(b);
    if n.Err? {
      NoEvents(s);
      states, events := [s], [];
      assert s.history + [] == s.history;
    } else {
      var h, c := n.value, n.value.channel;
      var t := TurnOf(full, chances(i), s.conn, h, n.rest);
      var kind := KindOf(chances(i), s.conn, c);
      var v := Visit(b, h, kind, t.verdict);
      if t.verdict.Invalid? {
        states, events := TurnStarts(chances(i), s, c);
        FirstChannel(v, []);
        assert [v] + [] == [v];
      } else {
        TurnEnds(full, chances(i), s.conn, h, n.rest);
        states, events := TurnIsRun(chances(i), s, c, t.verdict);
        var u := states[|events|];
        var ss, ee := ConversationIsRun(full, chances, i + 1, u, t.rest);
        Join(states, events, ss, ee);
        states, events := states + ss[1..], events + ee;
        FirstChannel(v, Converse(full, chances, i + 1, u.conn, t.rest).visits);
      }
    }
  }

  lemma NoEvents(s: Life)
    ensures Run([s], [])
  {
  }

  lemma FirstChannel(v: Visit, vs: seq<Visit>)
    ensures NewChannels([v] + vs) == (if v.kind.New? then [v.head.channel] else []) + NewChannels(vs)
  {
    assert ([v] + vs)[1..] == vs;
  }

  lemma TurnEnds(full: Buffering, chance: Chance, s: Conn, h: Head, b: Bytes)
    ensures KindOf(chance, s, h.channel).New? || DispatcherFor(TurnOf(full, chance, s, h, b).verdict, chance.ok).None?
  {
    hide Turn;
    OthersEnd(full, KindOf(chance, s, h.channel), h, b, chance.ok);
  }

  /** So whatever a peer sends and whatever happens meanwhile, channels are opened in strictly increasing order. */
  lemma OpenedInOrder(full: Buffering, chances: Chances, b: Bytes)
    ensures Increasing(NewChannels(Converse(full, chances, 0, START.conn, b).visits))
  {
    var states, events := ConversationIsRun(full, chances, 0, START, b);
    Lifetime(states, events, |events|);
    var vs := Converse(full, chances, 0, START.conn, b).visits;
    assert START.history + NewChannels(vs) == NewChannels(vs);
  }

  // ------------------------------------------------------------------ framing

  function Max(a: nat, b: nat): nat { if a < b then b else a }

  /** What a peer sends: a new channel is opened with a request, later messages on it have number 0. */
  predicate WellSent(ms: seq<Wire>, highest: nat) {
    |ms| > 0 ==>
      && Valid(ms[0])
      && (if Channel(ms[0]) > highest then Opens(ms[0]) else Number(ms[0]) == 0)
      && WellSent(ms[1..], Max(highest, Channel(ms[0])))
  }

  function Stream(ms: seq<Wire>, highest: nat): Bytes
    requires WellSent(ms, highest)
  {
    if |ms| == 0 then [] else Encoded(ms[0]) + Stream(ms[1..], Max(highest, Channel(ms[0])))
  }

  /** Every skip along the stream gets past its object. */
  predicate AllClear(full: Buffering, ms: seq<Wire>, highest: nat)
    requires WellSent(ms, highest)
  {
    |ms| > 0 ==>
      var top := Max(highest, Channel(ms[0]));
      Clear(full, Channel(ms[0]) > highest, ms[0], |Stream(ms[1..], top)|) && AllClear(full, ms[1..], top)
  }

  /** The reader was at the start of each message in turn, and at the end of the stream last. */
  predicate AtBoundaries(l: Log, ms: seq<Wire>, highest: nat)
    requires WellSent(ms, highest)
    decreases |ms|
  {
    if |ms| == 0 then l == Log([], [])
    else
      && |l.visits| > 0 && l.visits[0].at == Stream(ms, highest)
      && AtBoundaries(Log(l.visits[1..], l.end), ms[1..], Max(highest, Channel(ms[0])))
  }

  /** What was seen is what was sent: channels, numbers, headers, and the requests of new channels. */
  predicate AsSent(vs: seq<Visit>, ms: seq<Wire>, highest: nat)
    requires WellSent(ms, highest)
    decreases |ms|
  {
    |vs| == |ms| && (|ms| > 0 ==>
      && vs[0].head == HeadOf(ms[0])
      && vs[0].verdict == (if Channel(ms[0]) > highest then Accepted(RequestOf(ms[0])) else Ended)
      && AsSent(vs[1..], ms[1..], Max(highest, Channel(ms[0]))))
  }

  lemma LowAfter(chance: Chance, s: Conn, c: nat, v: Verdict)
    requires Low(s)
    ensures Low(ConnAfter(chance, s, c, v)) && ConnAfter(chance, s, c, v).highest == Max(s.highest, c)
  {
  }

  lemma FirstTurn(full: Buffering, chance: Chance, s: Conn, m: Wire, rest: Bytes)
    requires Low(s) && Valid(m) && (if Channel(m) > s.highest then Opens(m) else Number(m) == 0)
    ensures Next(Encoded(m) + rest) == Ok(HeadOf(m), Enc(m.args) + (HeaderBytes(m) + rest))
    ensures
      var t := TurnOf(full, chance, s, HeadOf(m), Enc(m.args) + (HeaderBytes(m) + rest));
      && t.verdict == (if Channel(m) > s.highest then Accepted(RequestOf(m)) else Ended)
      && (t.rest == rest <==> Clear(full, Channel(m) > s.highest, m, |rest|))
  {
    hide Next, Turn, Clear, Encoded, HeaderBytes, Valid, Opens, RequestOf;
    NextEnc(m, rest);
    TurnExactly(full, Route(Without(s, chance.before), Channel(m)), m, rest);
  }

  lemma {:induction false} ConverseStart(full: Buffering, chances: Chances, i: nat, s: Conn, b: Bytes)
    ensures
      var l := Converse(full, chances, i, s, b);
      (l.visits == [] ==> l.end == b) && (l.visits != [] ==> l.visits[0].at == b)
  {
  }

  /**
   The loop sees the messages that were sent, and is at the start of one at the
   top of every turn, whatever is detached meanwhile and whatever the boxes say,
   exactly when every skip gets past its object.
   */
  lemma {:induction false} Framed(full: Buffering, chances: Chances, i: nat, s: Conn, ms: seq<Wire>)
    requires Low(s) && WellSent(ms, s.highest)
    ensures
      var l := Converse(full, chances, i, s, Stream(ms, s.highest));
      && (AtBoundaries(l, ms, s.highest) <==> AllClear(full, ms, s.highest))
      && (AllClear(full, ms, s.highest) ==> AsSent(l.visits, ms, s.highest))
    decreases |ms|
  {
    hide Next, TurnOf, Clear, Encoded, HeaderBytes, Opens, RequestOf, ConnAfter;
    if |ms| == 0 {
      EndOfStream();
    } else {
      var m, top := ms[0], Max(s.highest, Channel(ms[0]));
      var rest := Stream(ms[1..], top);
      FirstTurn(full, chances(i), s, m, rest);
      var b := Enc(m.args) + (HeaderBytes(m) + rest);
      var t := TurnOf(full, chances(i), s, HeadOf(m), b);
      var s' := ConnAfter(chances(i), s, Channel(m), t.verdict);
      LowAfter(chances(i), s, Channel(m), t.verdict);
      var l' := Converse(full, chances, i + 1, s', t.rest);
      assert ([Visit(Encoded(m) + rest, HeadOf(m), KindOf(chances(i), s, Channel(m)), t.verdict)] + l'.visits)[1..] == l'.visits;
      if t.rest == rest {
        Framed(full, chances, i + 1, s', ms[1..]);
      } else {
        ConverseStart(full, chances, i + 1, s', t.rest);
      }
    }
  }

  lemma EndOfStream()
    ensures Next([]) == Err
  {
  }

  predicate PortableWire(m: Wire) { Portable(m.args) && (m.headers.Some? ==> Portable(m.headers.value)) }

  lemma ClearOne(full: Buffering, opening: bool, m: Wire, n: nat)
    requires Valid(m) && PortableWire(m)
    ensures Clear(full, opening, m, n)
  {
    hide Portable, Skippable;
    PortableSkips(full, m.args, |HeaderBytes(m)| + n);
    if m.headers.Some? {
      PortableSkips(full, m.headers.value, n);
    }
  }

  /** In particular when no argument or header holds an extension with a four-byte length. */
  lemma {:induction false} PortableIsClear(full: Buffering, ms: seq<Wire>, highest: nat)
    requires WellSent(ms, highest) && forall k :: 0 <= k < |ms| ==> PortableWire(ms[k])
    ensures AllClear(full, ms, highest)
    decreases |ms|
  {
    hide PortableWire, Clear, Valid, Opens;
    if |ms| == 0 {
    } else {
      var top := Max(highest, Channel(ms[0]));
      ClearOne(full, Channel(ms[0]) > highest, ms[0], |Stream(ms[1..], top)|);
      PortableIsClear(full, ms[1..], top);
    }
  }

  /** A kill request whose argument is such an extension, with five bytes buffered, throws the loop off. */
  lemma ThrownOff(s: Bytes) returns (ms: seq<Wire>)
    requires |s| < 0x1_0000_0000
    ensures WellSent(ms, 0) && |ms| == 2 && !AllClear(ALWAYS, ms, 0)
  {
    var zero, one := Atom(0, []), Atom(1, []);
    var open := Wire(0, one, zero, Arr(0, [Dict(0, []), Str(0, [])]), None);
    var next := Wire(0, one, zero, Ext(4, 0, s), None);
    ms := [open, next];
    assert UintOf(one) == Some(1) && UintOf(zero) == Some(0);
    assert WellFormed(one) && WellFormed(zero);
    assert Valid(open) && Opens(open) && Valid(next);
    assert ms[1..] == [next] && [next][1..] == [];
    assert WellSent([], 1) && WellSent([next], 1);
    assert !Clear(ALWAYS, false, next, 0);
    assert Stream([], 1) == [];
  }

  // ------------------------------------------------------------------ handler

  class ConnectionHandler {
    var session: Sessions
    var highestChannel: nat

    constructor ()
      ensures Value() == START.conn
    {
      session, highestChannel := map[], 0;
    }

    function Value(): Conn
      reads this
    {
      Conn(session, highestChannel)
    }

    method Attach(channel: nat, d: Dispatcher)
      modifies this
      ensures Value() == Settled(old(Value()), channel, Some(d))
      ensures Route(Value(), channel) == Attached
      ensures forall c: nat :: c != channel ==> Route(Value(), c) == old(Route(Value(), c))
    {
      session := session[channel := d];
    }

    method Detach(channel: nat)
      modifies this
      ensures Value() == Settled(old(Value()), channel, None)
      ensures Route(Value(), channel) == if channel <= highestChannel then Detached else New
      ensures forall c: nat :: c != channel ==> Route(Value(), c) == old(Route(Value(), c))
    {
      session := session - {channel};
    }

    /** One turn: look the channel up, let somebody handle the message, attach or detach. */
    method TakeTurn(full: Buffering, chance: Chance, h: Head, b: Bytes) returns (t: Handled, kind: Kind)
      modifies this
      ensures t == TurnOf(full, chance, old(Value()), h, b) && kind == KindOf(chance, old(Value()), h.channel)
      ensures !t.verdict.Invalid? ==> Value() == ConnAfter(chance, old(Value()), h.channel, t.verdict)
    {
      hide Turn, DispatcherFor;
      session := session - chance.before;
      kind := Route(Value(), h.channel);
      if kind.New? {
        highestChannel := h.channel;
      }
      t := Turn(full, kind, h, b);
      session := session - chance.during;
      if t.verdict.Invalid? { return; }
      var d := DispatcherFor(t.verdict, chance.ok);
      if kind.Detached? {
        OthersEnd(full, kind, h, b, chance.ok);
        assert session - {h.channel} == session;
      } else if d.None? {
        Detach(h.channel);
      } else {
        Attach(h.channel, d.value);
      }
    }

    /** `HandleConn` on everything the peer sends, with what happens meanwhile given by `chances`. */
    method HandleConn(input: Bytes, full: Buffering, chances: Chances) returns (visits: seq<Visit>, end: Bytes)
      modifies this
      ensures Log(visits, end) == Converse(full, chances, 0, old(Value()), input)
    {
      hide Next, TurnOf, ConnAfter, KindOf;
      visits := [];
      var b, i := input, 0;
      while true
        invariant
          var l := Converse(full, chances, i, Value(), b);
          Converse(full, chances, 0, old(Value()), input) == Log(visits + l.visits, l.end)
        decreases |b|
      {
        var n := Next(b);
        if n.Err? { return visits, b; }
        ghost var past := visits;
        var t, kind := TakeTurn(full, chances(i), n.value, n.rest);
        visits := visits + [Visit(b, n.value, kind, t.verdict)];
        if t.verdict.Invalid? { return visits, t.rest; }
        Appended(past, Visit(b, n.value, kind, t.verdict), Converse(full, chances, i + 1, Value(), t.rest).visits);
        b, i := t.rest, i + 1;
      }
    }
  }

  /** Nothing but a message that opens a channel yields a dispatcher. */
  lemma OthersEnd(full: Buffering, kind: Kind, h: Head, b: Bytes, ok: bool)
    ensures kind.New? || DispatcherFor(Turn(full, kind, h, b).verdict, ok) == None
  {
  }

  lemma Appended(vs: seq<Visit>, v: Visit, ws: seq<Visit>)
    ensures vs + ([v] + ws) == vs + [v] + ws
  {
  }
}
