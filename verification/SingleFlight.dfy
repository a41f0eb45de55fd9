/**
 Coalesced blob downloads: callers that ask for the same digest share one fetch.
 `inProgress` maps a digest to the callers that wait for it; each has a channel
 with one slot.  Registration and notification happen under one mutex; every
 send is a step of its own, so callers receive and give up in between.
 */
module SingleFlight {

  type Digest = string

  /** What a fetch returns: a path or an error. */
  datatype Result = Path(path: string) | Error

  datatype Caller =
    | Calling                  // before it takes the mutex
    | Registered(first: bool)  // in the list; the first one has to start the fetch
    | Waiting
    | Answered(result: Result)
    | GaveUp                   // its context is done

  /** The goroutine a call may start. */
  datatype Fetcher =
    | NoFetcher
    | Fetching
    | Fetched(result: Result)            // wants the mutex
    | Notifying(result: Result, i: nat)  // has the mutex; the first `i` callers have been sent to
    | Finished(result: Result)

  datatype Call = Call(
    digest: Digest, caller: Caller, fetcher: Fetcher,
    buffer: seq<Result>,       // what is in the channel
    sent: seq<Result>)         // what has ever been sent on it

  datatype State = State(calls: seq<Call>, mutex: Mutex, inProgress: map<Digest, seq<nat>>)

  datatype Mutex = Free | TakenBy(f: nat)

  const INIT := State([], Free, map[])

  const SLOTS := 1

  // ------------------------------------------------------------------- steps

  datatype Action =
    | Ask(digest: Digest)
    | Register(c: nat) | Launch(c: nat) | Join(c: nat)
    | FetchReturns(f: nat, result: Result) | Lock(f: nat) | Send(f: nat) | Unlock(f: nat)
    | Receive(c: nat) | GiveUp(c: nat)

  function List(s: State, d: Digest): seq<nat> { if d in s.inProgress then s.inProgress[d] else [] }

  predicate IsCaller(s: State, c: nat, at: Caller) { c < |s.calls| && s.calls[c].caller == at }

  predicate CanSend(s: State, f: nat) {
    && f < |s.calls| && s.calls[f].fetcher.Notifying? && s.calls[f].fetcher.i < |List(s, s.calls[f].digest)|
    && var c := List(s, s.calls[f].digest)[s.calls[f].fetcher.i];
       c < |s.calls| && |s.calls[c].buffer| < SLOTS
  }

  predicate Enabled(s: State, a: Action) {
    match a
    case Ask(_) => true
    case Register(c) => IsCaller(s, c, Calling) && s.mutex.Free?
    case Launch(c) => IsCaller(s, c, Registered(true))
    case Join(c) => IsCaller(s, c, Registered(false))
    case FetchReturns(f, _) => f < |s.calls| && s.calls[f].fetcher.Fetching?
    case Lock(f) => f < |s.calls| && s.calls[f].fetcher.Fetched? && s.mutex.Free?
    case Send(f) => CanSend(s, f)
    case Unlock(f) => f < |s.calls| && s.calls[f].fetcher.Notifying? && s.calls[f].fetcher.i >= |List(s, s.calls[f].digest)|
    case Receive(c) => IsCaller(s, c, Waiting) && s.calls[c].buffer != []
    case GiveUp(c) => IsCaller(s, c, Waiting)
  }

  function WithCaller(s: State, c: nat, at: Caller): State
    requires c < |s.calls|
  {
    s.(calls := s.calls[c := s.calls[c].(caller := at)])
  }

  function WithFetcher(s: State, f: nat, at: Fetcher): State
    requires f < |s.calls|
  {
    s.(calls := s.calls[f := s.calls[f].(fetcher := at)])
  }

  function Sent(s: State, c: nat, r: Result): State
    requires c < |s.calls|
  {
    s.(calls := s.calls[c := s.calls[c].(buffer := s.calls[c].buffer + [r], sent := s.calls[c].sent + [r])])
  }

  function Apply(s: State, a: Action): State
    requires Enabled(s, a)
  {
    match a
    case Ask(d) => s.(calls := s.calls + [Call(d, Calling, NoFetcher, [], [])])
    case Register(c) =>
      var d := s.calls[c].digest;
      WithCaller(s, c, Registered(d !in s.inProgress)).(inProgress := s.inProgress[d := List(s, d) + [c]])
    case Launch(c) => WithFetcher(WithCaller(s, c, Waiting), c, Fetching)
    case Join(c) => WithCaller(s, c, Waiting)
    case FetchReturns(f, r) => WithFetcher(s, f, Fetched(r))
    case Lock(f) => WithFetcher(s, f, Notifying(s.calls[f].fetcher.result, 0)).(mutex := TakenBy(f))
    case Send(f) =>
      var r, i := s.calls[f].fetcher.result, s.calls[f].fetcher.i;
      WithFetcher(Sent(s, List(s, s.calls[f].digest)[i], r), f, Notifying(r, i + 1))
    case Unlock(f) =>
      WithFetcher(s, f, Finished(s.calls[f].fetcher.result)).(mutex := Free, inProgress := s.inProgress - {s.calls[f].digest})
    case Receive(c) =>
      s.(calls := s.calls[c := s.calls[c].(caller := Answered(s.calls[c].buffer[0]), buffer := s.calls[c].buffer[1..])])
    case GiveUp(c) => WithCaller(s, c, GaveUp)
  }

  predicate Run(states: seq<State>, actions: seq<Action>) {
    && |states| == |actions| + 1 && states[0] == INIT
    && forall i :: 0 <= i < |actions| ==> Enabled(states[i], actions[i]) && states[i + 1] == Apply(states[i], actions[i])
  }

  // -------------------------------------------------------------- invariant

  /** Call `c` runs the fetch of its digest, or is about to start it. */
  predicate Live(s: State, c: nat) {
    && c < |s.calls|
    && var call := s.calls[c];
       call.caller == Registered(true) || call.fetcher.Fetching? || call.fetcher.Fetched? || call.fetcher.Notifying?
  }

  /** The live calls are the heads of the lists: one per digest in progress, none for the others. */
  ghost predicate Heads(s: State) {
    && (forall d :: d in s.inProgress ==> s.inProgress[d] != [])
    && (forall c: nat :: c < |s.calls| ==> (Live(s, c) <==> IsHead(s, c)))
  }

  predicate IsHead(s: State, c: nat)
    requires c < |s.calls|
  {
    List(s, s.calls[c].digest) != [] && List(s, s.calls[c].digest)[0] == c
  }

  ghost predicate MutexOwner(s: State) {
    && (s.mutex.TakenBy? ==> s.mutex.f < |s.calls|)
    && (forall f: nat :: f < |s.calls| ==> (s.calls[f].fetcher.Notifying? <==> s.mutex == TakenBy(f)))
  }

  /** Each call by itself. */
  predicate CallOk(k: Call) {
    && |k.sent| <= 1
    && match k.caller
       case Calling => k.sent == [] && k.buffer == [] && k.fetcher.NoFetcher?
       case Registered(first) => k.buffer == k.sent && k.fetcher.NoFetcher?
       case Waiting => k.buffer == k.sent
       case GaveUp => k.buffer == k.sent
       case Answered(r) => k.buffer == [] && k.sent == [r]
  }

  /** A caller in the list of `d`: it asked for `d`, and has been sent to or not. */
  predicate Member(s: State, d: Digest, c: nat, sent: bool) {
    && c < |s.calls| && s.calls[c].digest == d && !s.calls[c].caller.Calling?
    && |s.calls[c].sent| == if sent then 1 else 0
  }

  /** How many callers in the list of `d` have been sent to. */
  function Count(s: State, d: Digest): nat {
    if s.mutex.TakenBy? && s.mutex.f < |s.calls| && s.calls[s.mutex.f].digest == d && s.calls[s.mutex.f].fetcher.Notifying?
    then s.calls[s.mutex.f].fetcher.i else 0
  }

  /** The callers in a list are different ones, and a prefix of them has been sent to. */
  ghost predicate ListOk(s: State, d: Digest) {
    && Count(s, d) <= |List(s, d)|
    && (forall j :: 0 <= j < |List(s, d)| ==> Member(s, d, List(s, d)[j], j < Count(s, d)))
    && (forall i, j :: 0 <= i < j < |List(s, d)| ==> List(s, d)[i] != List(s, d)[j])
  }

  /** A registered caller is in the list or has been sent to. */
  ghost predicate Accounted(s: State) {
    forall c: nat :: c < |s.calls| && !s.calls[c].caller.Calling? ==> c in List(s, s.calls[c].digest) || |s.calls[c].sent| == 1
  }

  ghost predicate Inv(s: State) {
    && Heads(s) && MutexOwner(s)
    && (forall c :: 0 <= c < |s.calls| ==> CallOk(s.calls[c]))
    && (forall d :: d in s.inProgress ==> ListOk(s, d))
    && Accounted(s)
  }

  /** Lists stay right when their callers keep their digest and what was sent to them. */
  lemma ListKept(s: State, s': State, d: Digest)
    requires ListOk(s, d) && List(s', d) == List(s, d) && Count(s', d) == Count(s, d)
    requires forall c: nat :: c < |s.calls| ==> c < |s'.calls| && s'.calls[c].digest == s.calls[c].digest
    requires forall c: nat :: c < |s.calls| && s.calls[c].digest == d && !s.calls[c].caller.Calling? ==>
      !s'.calls[c].caller.Calling? && |s'.calls[c].sent| == |s.calls[c].sent|
    ensures ListOk(s', d)
  {
    hide Count, List;
    forall j | 0 <= j < |List(s, d)|
      ensures Member(s', d, List(s', d)[j], j < Count(s', d))
    {
      assert Member(s, d, List(s, d)[j], j < Count(s, d));
    }
  }

  lemma HeadsKept(s: State, s': State)
    requires Heads(s) && s'.inProgress == s.inProgress && |s'.calls| == |s.calls|
    requires forall c: nat :: c < |s.calls| ==> s'.calls[c].digest == s.calls[c].digest && (Live(s', c) <==> Live(s, c))
    ensures Heads(s')
  {
    hide Live;
    forall x: nat | x < |s'.calls|
      ensures Live(s', x) <==> IsHead(s', x)
    {
      assert Live(s, x) <==> IsHead(s, x);
    }
  }

  /** A step inside one call that moves neither the lists, the mutex nor what was sent. */
  lemma Local(s: State, c: nat, k: Call)
    requires Inv(s) && c < |s.calls| && CallOk(k)
    requires k.digest == s.calls[c].digest && k.sent == s.calls[c].sent
    requires k.caller.Calling? == s.calls[c].caller.Calling?
    requires Live(s.(calls := s.calls[c := k]), c) == Live(s, c)
    requires k.fetcher == s.calls[c].fetcher || (!k.fetcher.Notifying? && !s.calls[c].fetcher.Notifying?)
    ensures Inv(s.(calls := s.calls[c := k]))
  {
    hide ListOk, CallOk, Heads, Live;
    LocalLists(s, c, k);
    LocalHeads(s, c, k);
  }

  lemma LocalHeads(s: State, c: nat, k: Call)
    requires Heads(s) && c < |s.calls| && k.digest == s.calls[c].digest
    requires Live(s.(calls := s.calls[c := k]), c) == Live(s, c)
    ensures Heads(s.(calls := s.calls[c := k]))
  {
    hide Heads;
    HeadsKept(s, s.(calls := s.calls[c := k]));
  }

  lemma LocalLists(s: State, c: nat, k: Call)
    requires c < |s.calls| && forall d :: d in s.inProgress ==> ListOk(s, d)
    requires k.digest == s.calls[c].digest && k.sent == s.calls[c].sent
    requires k.caller.Calling? == s.calls[c].caller.Calling?
    requires k.fetcher == s.calls[c].fetcher || (!k.fetcher.Notifying? && !s.calls[c].fetcher.Notifying?)
    ensures forall d :: d in s.inProgress ==> ListOk(s.(calls := s.calls[c := k]), d)
  {
    var s' := s.(calls := s.calls[c := k]);
    forall d | d in s'.inProgress
      ensures ListOk(s', d)
    {
      ListKept(s, s', d);
    }
  }

  lemma StepAsk(s: State, d: Digest)
    requires Inv(s)
    ensures Inv(Apply(s, Ask(d)))
  {
    var s' := Apply(s, Ask(d));
    hide Apply;
    forall e | e in s'.inProgress
      ensures ListOk(s', e)
    {
      ListKept(s, s', e);
    }
    forall x: nat | x < |s'.calls|
      ensures Live(s', x) <==> IsHead(s', x)
    {
      if x < |s.calls| {
        assert Live(s, x) <==> IsHead(s, x);
      } else if d in s.inProgress {
        assert Member(s, d, List(s, d)[0], 0 < Count(s, d));
      }
    }
  }

  predicate Registers(s: State, c: nat, s': State) {
    && c < |s.calls| && s.calls[c].caller.Calling? && s.mutex.Free? && s'.mutex.Free?
    && var d := s.calls[c].digest;
       && s'.calls == s.calls[c := s.calls[c].(caller := Registered(d !in s.inProgress))]
       && s'.inProgress == s.inProgress[d := List(s, d) + [c]]
  }

  lemma RegisterLists(s: State, c: nat, s': State)
    requires Inv(s) && Registers(s, c, s')
    ensures forall d :: d in s'.inProgress ==> ListOk(s', d)
  {
    hide Heads, MutexOwner, Accounted;
    var d := s.calls[c].digest;
    var l := List(s, d);
    assert CallOk(s.calls[c]);
    assert forall j :: 0 <= j < |l| ==> Member(s, d, l[j], false) && l[j] != c;
    forall e | e in s'.inProgress
      ensures ListOk(s', e)
    {
      if e != d {
        ListKept(s, s', e);
      } else {
        assert forall j :: 0 <= j < |l| ==> Member(s', d, l[j], false);
        assert Member(s', d, c, false);
      }
    }
  }

  lemma RegisterHeads(s: State, c: nat, s': State)
    requires Heads(s) && Registers(s, c, s') && CallOk(s.calls[c])
    ensures Heads(s')
  {
    forall x: nat | x < |s'.calls|
      ensures Live(s', x) <==> IsHead(s', x)
    {
      assert Live(s, x) <==> IsHead(s, x);
    }
  }

  lemma StepRegister(s: State, c: nat)
    requires Inv(s) && Enabled(s, Register(c))
    ensures Inv(Apply(s, Register(c)))
  {
    var s' := Apply(s, Register(c));
    assert CallOk(s.calls[c]) && Registers(s, c, s');
    hide Apply, Enabled, ListOk, Heads;
    RegisterLists(s, c, s');
    RegisterHeads(s, c, s');
  }

  lemma StepLock(s: State, f: nat)
    requires Inv(s) && Enabled(s, Lock(f))
    ensures Inv(Apply(s, Lock(f)))
  {
    var s' := Apply(s, Lock(f));
    assert CallOk(s.calls[f]);
    assert s'.inProgress == s.inProgress;
    hide Apply, CallOk;
    forall d | d in s'.inProgress
      ensures ListOk(s', d)
    {
      ListKept(s, s', d);
    }
    hide ListOk;
    HeadsKept(s, s');
    hide Heads;
  }

  /** The next caller in the list has not been sent to, and its channel is empty. */
  lemma NextInLine(s: State, f: nat)
    requires Inv(s) && f < |s.calls| && s.calls[f].fetcher.Notifying?
    requires s.calls[f].fetcher.i < |List(s, s.calls[f].digest)|
    ensures
      var d := s.calls[f].digest;
      var c := List(s, d)[s.calls[f].fetcher.i];
      && d in s.inProgress && s.mutex == TakenBy(f) && Count(s, d) == s.calls[f].fetcher.i
      && Member(s, d, c, false) && s.calls[c].buffer == s.calls[c].sent == [] && !s.calls[c].caller.Answered?
  {
    var d := s.calls[f].digest;
    assert ListOk(s, d) && s.mutex == TakenBy(f);
    var c := List(s, d)[s.calls[f].fetcher.i];
    assert Member(s, d, c, false) && CallOk(s.calls[c]);
  }

  /** What a send changes. */
  lemma SendKeeps(s: State, f: nat, s': State)
    requires Enabled(s, Send(f)) && s' == Apply(s, Send(f))
    ensures |s'.calls| == |s.calls| && s'.inProgress == s.inProgress && s'.mutex == s.mutex
    ensures
      var r, i := s.calls[f].fetcher.result, s.calls[f].fetcher.i;
      var c := List(s, s.calls[f].digest)[i];
      forall x: nat :: x < |s.calls| ==>
        s'.calls[x] == s.calls[x].(
          fetcher := if x == f then Notifying(r, i + 1) else s.calls[x].fetcher,
          buffer := if x == c then s.calls[x].buffer + [r] else s.calls[x].buffer,
          sent := if x == c then s.calls[x].sent + [r] else s.calls[x].sent)
  {
  }

  lemma SendCalls(s: State, f: nat, s': State)
    requires Inv(s) && Enabled(s, Send(f)) && s' == Apply(s, Send(f))
    ensures forall x :: 0 <= x < |s'.calls| ==> CallOk(s'.calls[x])
  {
    NextInLine(s, f);
    SendKeeps(s, f, s');
    hide Apply, Enabled, CanSend, ListOk, Heads, Accounted, List;
    forall x | 0 <= x < |s'.calls|
      ensures CallOk(s'.calls[x])
    {
      assert CallOk(s.calls[x]);
    }
  }

  lemma SendLists(s: State, f: nat, s': State)
    requires Inv(s) && Enabled(s, Send(f)) && s' == Apply(s, Send(f))
    ensures forall d :: d in s'.inProgress ==> ListOk(s', d)
  {
    NextInLine(s, f);
    SendKeeps(s, f, s');
    hide Apply, Enabled, CanSend, CallOk, Heads, Accounted, MutexOwner;
    var d, i := s.calls[f].digest, s.calls[f].fetcher.i;
    forall e | e in s'.inProgress
      ensures ListOk(s', e)
    {
      if e != d {
        ListKept(s, s', e);
      } else {
        SentList(s, s', d, i);
      }
    }
  }

  /** One more caller of the list has been sent to. */
  lemma SentList(s: State, s': State, d: Digest, i: nat)
    requires ListOk(s, d) && List(s', d) == List(s, d) && i < |List(s, d)| && Count(s, d) == i && Count(s', d) == i + 1
    requires forall c: nat :: c < |s.calls| ==>
      c < |s'.calls| && s'.calls[c].digest == s.calls[c].digest && s'.calls[c].caller == s.calls[c].caller
      && |s'.calls[c].sent| == |s.calls[c].sent| + if c == List(s, d)[i] then 1 else 0
    ensures ListOk(s', d)
  {
    hide Count, List;
    var l := List(s, d);
    forall j | 0 <= j < |l|
      ensures Member(s', d, l[j], j < i + 1)
    {
      assert Member(s, d, l[j], j < i);
    }
  }

  lemma StepSend(s: State, f: nat)
    requires Inv(s) && Enabled(s, Send(f))
    ensures Inv(Apply(s, Send(f)))
  {
    var s' := Apply(s, Send(f));
    NextInLine(s, f);
    SendKeeps(s, f, s');
    SendCalls(s, f, s');
    SendLists(s, f, s');
    hide Apply, Enabled, CanSend, ListOk, CallOk;
    HeadsKept(s, s');
    hide Heads;
  }

  predicate Unlocks(s: State, f: nat, s': State) {
    && f < |s.calls| && s.calls[f].fetcher.Notifying? && s.calls[f].fetcher.i >= |List(s, s.calls[f].digest)|
    && s'.calls == s.calls[f := s.calls[f].(fetcher := Finished(s.calls[f].fetcher.result))]
    && s'.mutex.Free? && s'.inProgress == s.inProgress - {s.calls[f].digest}
  }

  lemma UnlockLists(s: State, f: nat, s': State)
    requires Inv(s) && Unlocks(s, f, s')
    ensures forall d :: d in s'.inProgress ==> ListOk(s', d)
    ensures forall c :: c in List(s, s.calls[f].digest) ==> c < |s.calls| && |s.calls[c].sent| == 1
  {
    var d := s.calls[f].digest;
    assert d in s.inProgress ==> ListOk(s, d) && Count(s, d) == s.calls[f].fetcher.i;
    assert forall j :: 0 <= j < |List(s, d)| ==> Member(s, d, List(s, d)[j], true);
    hide Heads, Accounted;
    forall e | e in s'.inProgress
      ensures ListOk(s', e)
    {
      ListKept(s, s', e);
    }
  }

  lemma UnlockHeads(s: State, f: nat, s': State)
    requires Heads(s) && Unlocks(s, f, s') && CallOk(s.calls[f])
    ensures Heads(s')
  {
    assert Live(s, f) && IsHead(s, f);
    forall x: nat | x < |s'.calls|
      ensures Live(s', x) <==> IsHead(s', x)
    {
      assert Live(s, x) <==> IsHead(s, x);
    }
  }

  lemma StepUnlock(s: State, f: nat)
    requires Inv(s) && Enabled(s, Unlock(f))
    ensures Inv(Apply(s, Unlock(f)))
  {
    var s' := Apply(s, Unlock(f));
    assert CallOk(s.calls[f]) && Unlocks(s, f, s');
    hide Apply, Enabled, ListOk, Heads;
    UnlockLists(s, f, s');
    UnlockHeads(s, f, s');
  }

  lemma Step(s: State, a: Action)
    requires Inv(s) && Enabled(s, a)
    ensures Inv(Apply(s, a))
  {
    match a
    case Ask(d) => StepAsk(s, d);
    case Register(c) => StepRegister(s, c);
    case Lock(f) => StepLock(s, f);
    case Send(f) => StepSend(s, f);
    case Unlock(f) => StepUnlock(s, f);
    case Launch(c) => StepInside(s, c, a);
    case Join(c) => StepInside(s, c, a);
    case FetchReturns(c, _) => StepInside(s, c, a);
    case Receive(c) => StepInside(s, c, a);
    case GiveUp(c) => StepInside(s, c, a);
  }

  lemma StepInside(s: State, c: nat, a: Action)
    requires Inv(s) && Enabled(s, a)
    requires a == Launch(c) || a == Join(c) || (a.FetchReturns? && a.f == c) || a == Receive(c) || a == GiveUp(c)
    ensures Inv(Apply(s, a))
  {
    hide Heads, MutexOwner, ListOk, Accounted;
    var s' := Apply(s, a);
    assert CallOk(s.calls[c]);
    assert s' == s.(calls := s.calls[c := s'.calls[c]]);
    hide Inv;
    Local(s, c, s'.calls[c]);
  }

  /** Every state of every run. */
  lemma {:induction false} Reached(states: seq<State>, actions: seq<Action>, k: nat)
    requires Run(states, actions) && k < |states|
    ensures Inv(states[k])
    decreases k
  {
    if k == 0 {
    } else {
      Reached(states, actions, k - 1);
      hide Inv, Enabled, Apply;
      Step(states[k - 1], actions[k - 1]);
    }
  }

  // --------------------------------------------------------------- theorems

  /** A digest is in progress exactly when a fetch of it is live, and then there is one. */
  lemma OneFetchPerDigest(states: seq<State>, actions: seq<Action>, k: nat, d: Digest)
    requires Run(states, actions) && k < |states|
    ensures d in states[k].inProgress <==> exists c: nat :: Live(states[k], c) && states[k].calls[c].digest == d
    ensures forall c: nat, f: nat ::
      (Live(states[k], c) && Live(states[k], f) && states[k].calls[c].digest == d && states[k].calls[f].digest == d) ==> c == f
  {
    Reached(states, actions, k);
    var s := states[k];
    hide Run, CallOk, Accounted, MutexOwner;
    if d in s.inProgress {
      var c := s.inProgress[d][0];
      assert ListOk(s, d) && Member(s, d, List(s, d)[0], 0 < Count(s, d));
      assert IsHead(s, c) && Live(s, c);
    }
    hide ListOk, Live;
    forall c: nat | Live(s, c)
      ensures IsHead(s, c)
    {
    }
  }

  /** Whoever holds the mutex can always go on: no send ever blocks. */
  lemma SendNeverBlocks(states: seq<State>, actions: seq<Action>, k: nat, f: nat)
    requires Run(states, actions) && k < |states| && f < |states[k].calls| && states[k].calls[f].fetcher.Notifying?
    ensures Enabled(states[k], Send(f)) || Enabled(states[k], Unlock(f))
  {
    Reached(states, actions, k);
    if states[k].calls[f].fetcher.i < |List(states[k], states[k].calls[f].digest)| {
      NextInLine(states[k], f);
    }
  }

  /** A fetch of `d` that has come back with `r`. */
  predicate CameFrom(s: State, f: nat, d: Digest, r: Result) {
    && f < |s.calls| && s.calls[f].digest == d
    && !s.calls[f].fetcher.NoFetcher? && !s.calls[f].fetcher.Fetching? && s.calls[f].fetcher.result == r
  }

  ghost predicate Sourced(s: State) {
    forall c :: 0 <= c < |s.calls| && s.calls[c].sent != [] ==> exists f: nat :: CameFrom(s, f, s.calls[c].digest, s.calls[c].sent[0])
  }

  lemma CameFromKept(s: State, a: Action, f: nat, d: Digest, r: Result)
    requires Enabled(s, a) && CameFrom(s, f, d, r) && CallOk(s.calls[f])
    ensures CameFrom(Apply(s, a), f, d, r)
  {
  }

  /** What was sent stays sent; only a send adds to it, and it sends what its fetch brought. */
  lemma SentKept(s: State, a: Action, c: nat)
    requires Inv(s) && Enabled(s, a) && c < |Apply(s, a).calls|
    ensures c < |s.calls| ==>
      Apply(s, a).calls[c].digest == s.calls[c].digest && s.calls[c].sent <= Apply(s, a).calls[c].sent
    ensures (c < |s.calls| && Apply(s, a).calls[c].sent == s.calls[c].sent) || Apply(s, a).calls[c].sent == []
      || (a.Send? && c < |s.calls| && s.calls[c].sent == [] && CameFrom(Apply(s, a), a.f, s.calls[c].digest, Apply(s, a).calls[c].sent[0]))
  {
    if a.Send? {
      NextInLine(s, a.f);
    }
    hide Inv;
  }

  lemma StepSourced(s: State, a: Action)
    requires Inv(s) && Sourced(s) && Enabled(s, a)
    ensures Sourced(Apply(s, a))
  {
    var s' := Apply(s, a);
    hide Heads, MutexOwner, ListOk, Accounted, Enabled, Apply, CallOk;
    forall c: nat | c < |s'.calls| && s'.calls[c].sent != []
      ensures exists f: nat :: CameFrom(s', f, s'.calls[c].digest, s'.calls[c].sent[0])
    {
      SentKept(s, a, c);
      if c < |s.calls| && s.calls[c].sent != [] {
        var f: nat :| CameFrom(s, f, s.calls[c].digest, s.calls[c].sent[0]);
        CameFromKept(s, a, f, s.calls[c].digest, s.calls[c].sent[0]);
      }
    }
  }

  lemma {:induction false} ReachedSourced(states: seq<State>, actions: seq<Action>, k: nat)
    requires Run(states, actions) && k < |states|
    ensures Sourced(states[k])
    decreases k
  {
    if k == 0 {
    } else {
      ReachedSourced(states, actions, k - 1);
      Reached(states, actions, k - 1);
      hide Inv, Enabled, Apply, Sourced;
      StepSourced(states[k - 1], actions[k - 1]);
    }
  }

  /**
   Every registered caller is sent one result, of a fetch of the digest it asked
   for: never a second one, and the one by the time the digest is out of the map.
   */
  lemma OneResult(states: seq<State>, actions: seq<Action>, k: nat, c: nat)
    requires Run(states, actions) && k < |states| && c < |states[k].calls|
    ensures
      var s := states[k];
      var call := s.calls[c];
      && |call.sent| <= 1
      && (call.sent != [] ==> exists f: nat :: CameFrom(s, f, call.digest, call.sent[0]))
      && (call.caller.Answered? ==> call.sent == [call.caller.result])
      && (!call.caller.Calling? && call.digest !in s.inProgress ==> |call.sent| == 1)
  {
    Reached(states, actions, k);
    ReachedSourced(states, actions, k);
    assert CallOk(states[k].calls[c]);
  }

  // ---------------------------------------------------------- quiescence

  /** A new call and a context that ends come from outside. */
  predicate External(a: Action) { a.Ask? || a.GiveUp? }

  ghost predicate Quiescent(s: State) { forall a :: !External(a) ==> !Enabled(s, a) }

  /** What one call can do next on its own. */
  function Move(s: State, c: nat): Action
    requires c < |s.calls|
  {
    match s.calls[c].fetcher
    case Fetching => FetchReturns(c, Error)
    case Fetched(_) => Lock(c)
    case Notifying(_, i) => if i < |List(s, s.calls[c].digest)| then Send(c) else Unlock(c)
    case _ =>
      match s.calls[c].caller
      case Calling => Register(c)
      case Registered(first) => if first then Launch(c) else Join(c)
      case _ => Receive(c)
  }

  lemma HolderMoves(s: State, f: nat)
    requires Inv(s) && s.mutex == TakenBy(f)
    ensures f < |s.calls| && Enabled(s, Move(s, f)) && !External(Move(s, f))
  {
    if s.calls[f].fetcher.i < |List(s, s.calls[f].digest)| {
      NextInLine(s, f);
    }
  }

  /** The call has something to do that needs nothing from outside but the mutex. */
  predicate Unfinished(s: State, c: nat)
    requires c < |s.calls|
  {
    var call := s.calls[c];
    Live(s, c) || call.caller.Calling? || call.caller.Registered? || (call.caller.Waiting? && call.buffer != [])
  }

  lemma OtherMoves(s: State, c: nat)
    requires Inv(s) && s.mutex.Free? && c < |s.calls|
    ensures Unfinished(s, c) ==> Enabled(s, Move(s, c)) && !External(Move(s, c))
  {
    assert CallOk(s.calls[c]);
  }

  /** When nothing moves any more, nobody waits and nothing is in progress. */
  lemma AllServed(states: seq<State>, actions: seq<Action>, k: nat)
    requires Run(states, actions) && k < |states| && Quiescent(states[k])
    ensures states[k].inProgress == map[] && states[k].mutex.Free?
    ensures forall c :: 0 <= c < |states[k].calls| ==> states[k].calls[c].caller.Answered? || states[k].calls[c].caller.GaveUp?
  {
    var s := states[k];
    Reached(states, actions, k);
    hide Enabled, Apply, Move, External;
    if s.mutex.TakenBy? {
      HolderMoves(s, s.mutex.f);
    }
    forall c: nat | c < |s.calls|
      ensures !Live(s, c) && !s.calls[c].caller.Calling? && !s.calls[c].caller.Registered?
      ensures (s.calls[c].caller.Waiting? ==> s.calls[c].buffer == [])
    {
      OtherMoves(s, c);
    }
    hide Quiescent;
    forall d
      ensures d !in s.inProgress
    {
      OneFetchPerDigest(states, actions, k, d);
    }
    forall c: nat | c < |s.calls|
      ensures s.calls[c].caller.Answered? || s.calls[c].caller.GaveUp?
    {
      OneResult(states, actions, k, c);
      assert CallOk(s.calls[c]);
    }
  }

  // -------------------------------------------------------------- progress

  function Weight(k: Call): nat {
    (match k.caller case Calling => 10 case Registered(_) => 9 case Waiting => 1 case _ => 0)
    + (match k.fetcher case Fetching => 3 case Fetched(_) => 2 case Notifying(_, _) => 1 case _ => 0)
    + (if k.sent == [] then 1 else 0)
  }

  function Rank(calls: seq<Call>): nat {
    if calls == [] then 0 else Rank(calls[..|calls| - 1]) + Weight(calls[|calls| - 1])
  }

  lemma {:induction false} RankAt(calls: seq<Call>, c: nat, k: Call)
    requires c < |calls|
    ensures Rank(calls[c := k]) == Rank(calls) - Weight(calls[c]) + Weight(k)
    decreases |calls|
  {
    var n := |calls| - 1;
    if c < n {
      RankAt(calls[..n], c, k);
      assert calls[c := k][..n] == calls[..n][c := k];
    } else {
      assert calls[c := k][..n] == calls[..n];
    }
  }

  /** One more call has been sent its result, and nothing else counts. */
  lemma SendRank(s: State, c: nat, f: nat)
    requires c < |s.calls| && f < |s.calls| && s.calls[c].sent == [] && s.calls[f].fetcher.Notifying?
    ensures
      var r, i := s.calls[f].fetcher.result, s.calls[f].fetcher.i;
      Rank(WithFetcher(Sent(s, c, r), f, Notifying(r, i + 1)).calls) < Rank(s.calls)
  {
    hide Rank;
    var r, i := s.calls[f].fetcher.result, s.calls[f].fetcher.i;
    var t := Sent(s, c, r);
    RankAt(s.calls, c, t.calls[c]);
    RankAt(t.calls, f, t.calls[f].(fetcher := Notifying(r, i + 1)));
  }

  lemma SendProgress(s: State, f: nat)
    requires Inv(s) && Enabled(s, Send(f))
    ensures Rank(Apply(s, Send(f)).calls) < Rank(s.calls)
  {
    NextInLine(s, f);
    hide Inv, Rank, Weight, List;
    SendRank(s, List(s, s.calls[f].digest)[s.calls[f].fetcher.i], f);
  }


  /** The call that makes a step other than a send. */
  function Actor(a: Action): nat
    requires !External(a) && !a.Send?
  {
    if a.FetchReturns? || a.Lock? || a.Unlock? then a.f else a.c
  }

  lemma OneCallStep(s: State, a: Action)
    requires Enabled(s, a) && !External(a) && !a.Send?
    ensures
      var c, s' := Actor(a), Apply(s, a);
      c < |s.calls| && |s'.calls| == |s.calls| && s'.calls == s.calls[c := s'.calls[c]] && Weight(s'.calls[c]) < Weight(s.calls[c])
  {
  }

  /** Every step that needs nothing from outside makes progress. */
  lemma Progress(s: State, a: Action)
    requires Inv(s) && Enabled(s, a) && !External(a)
    ensures Rank(Apply(s, a).calls) < Rank(s.calls)
  {
    hide Rank, Inv, Enabled, Apply, Weight;
    if a.Send? {
      SendProgress(s, a.f);
    } else {
      OneCallStep(s, a);
      RankAt(s.calls, Actor(a), Apply(s, a).calls[Actor(a)]);
    }
  }

  /** So between two inputs from outside a run has at most `Rank` steps. */
  lemma {:induction false} ComesToRest(states: seq<State>, actions: seq<Action>, k: nat, n: nat)
    requires Run(states, actions) && k <= n <= |actions|
    requires forall i :: k <= i < n ==> !External(actions[i])
    ensures n - k + Rank(states[n].calls) <= Rank(states[k].calls)
    decreases n - k
  {
    hide Rank, Enabled, Apply, Inv;
    if k < n {
      ComesToRest(states, actions, k, n - 1);
      Reached(states, actions, n - 1);
      Progress(states[n - 1], actions[n - 1]);
    }
  }
}
