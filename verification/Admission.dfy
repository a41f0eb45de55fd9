/**
 Admission of spawns: a counter that is incremented, read and decremented in
 separate steps, and a semaphore.  Any number of spawns run at once and any of
 them may be cancelled while it waits.
 */
module Admission {

  const QUEUE_LIMIT := 10

  datatype Spawn =
    | Calling
    | Counted                  // has incremented the counter
    | Turned                   // has read too large a value, has still to decrement
    | Queued                   // has passed the check and waits for the semaphore
    | Granted                  // has the semaphore, has still to decrement
    | GivenUp                  // its context is done, has still to decrement
    | Spawning                 // has the semaphore
    | Leaked                   // left between increment and decrement
    | Finished

  datatype State = State(counter: int, held: int, spawns: seq<Spawn>)

  datatype Action =
    | Call | Increment(i: nat) | Read(i: nat) | TurnAway(i: nat)
    | Acquire(i: nat) | Cancel(i: nat) | Decrement(i: nat) | Release(i: nat) | Bail(i: nat)

  const INIT := State(0, 0, [])

  predicate At(s: State, i: nat, p: Spawn) { i < |s.spawns| && s.spawns[i] == p }

  /** `leaky` is the Porto box, which has ways out between the check and the decrement. */
  predicate Enabled(leaky: bool, size: nat, s: State, a: Action) {
    match a
    case Call => true
    case Increment(i) => At(s, i, Calling)
    case Read(i) => At(s, i, Counted)
    case TurnAway(i) => At(s, i, Turned)
    case Acquire(i) => At(s, i, Queued) && s.held < size
    case Cancel(i) => At(s, i, Queued)
    case Decrement(i) => At(s, i, Granted) || At(s, i, GivenUp)
    case Release(i) => At(s, i, Spawning)
    case Bail(i) => leaky && At(s, i, Queued)
  }

  function Move(s: State, i: nat, p: Spawn): State
    requires i < |s.spawns|
  {
    s.(spawns := s.spawns[i := p])
  }

  function Apply(leaky: bool, size: nat, s: State, a: Action): State
    requires Enabled(leaky, size, s, a)
  {
    match a
    case Call => s.(spawns := s.spawns + [Calling])
    case Increment(i) => Move(s, i, Counted).(counter := s.counter + 1)
    case Read(i) => Move(s, i, if s.counter > QUEUE_LIMIT then Turned else Queued)
    case TurnAway(i) => Move(s, i, Finished).(counter := s.counter - 1)
    case Acquire(i) => Move(s, i, Granted).(held := s.held + 1)
    case Cancel(i) => Move(s, i, GivenUp)
    case Decrement(i) => Move(s, i, if s.spawns[i].Granted? then Spawning else Finished).(counter := s.counter - 1)
    case Release(i) => Move(s, i, Finished).(held := s.held - 1)
    case Bail(i) => Move(s, i, Leaked)
  }

  /** Steps from any state on. */
  predicate Path(leaky: bool, size: nat, states: seq<State>, actions: seq<Action>) {
    && |states| == |actions| + 1
    && forall i :: 0 <= i < |actions| ==>
         Enabled(leaky, size, states[i], actions[i]) && states[i + 1] == Apply(leaky, size, states[i], actions[i])
  }

  predicate Run(leaky: bool, size: nat, states: seq<State>, actions: seq<Action>) {
    Path(leaky, size, states, actions) && states[0] == INIT
  }

  // ---------------------------------------------------------------- counting

  function Count(spawns: seq<Spawn>, p: Spawn -> bool): nat {
    if |spawns| == 0 then 0 else Count(spawns[..|spawns| - 1], p) + One(p(spawns[|spawns| - 1]))
  }

  function One(b: bool): nat { if b then 1 else 0 }

  lemma {:induction false} CountAt(spawns: seq<Spawn>, p: Spawn -> bool, i: nat, x: Spawn)
    requires i < |spawns|
    ensures Count(spawns[i := x], p) == Count(spawns, p) - One(p(spawns[i])) + One(p(x))
    decreases |spawns|
  {
    var n := |spawns| - 1;
    if i < n {
      CountAt(spawns[..n], p, i, x);
      assert spawns[i := x][..n] == spawns[..n][i := x];
    } else {
      assert spawns[i := x][..n] == spawns[..n];
    }
  }

  lemma CountMore(spawns: seq<Spawn>, p: Spawn -> bool, x: Spawn)
    ensures Count(spawns + [x], p) == Count(spawns, p) + One(p(x))
  {
    assert (spawns + [x])[..|spawns|] == spawns;
  }

  lemma {:induction false} CountLess(spawns: seq<Spawn>, p: Spawn -> bool, q: Spawn -> bool)
    requires forall x :: p(x) ==> q(x)
    ensures Count(spawns, p) <= Count(spawns, q)
    decreases |spawns|
  {
    if |spawns| == 0 {
    } else {
      CountLess(spawns[..|spawns| - 1], p, q);
    }
  }

  /** Between increment and decrement. */
  const BETWEEN: Spawn -> bool := (p: Spawn) => p.Counted? || p.Turned? || p.Queued? || p.Granted? || p.GivenUp?

  /** Past the check and still counted as queued. */
  const PAST: Spawn -> bool := (p: Spawn) => p.Queued? || p.Granted? || p.GivenUp?

  const GONE: Spawn -> bool := (p: Spawn) => p.Leaked?

  const HOLDING: Spawn -> bool := (p: Spawn) => p.Granted? || p.Spawning?

  function Between(s: State): nat { Count(s.spawns, BETWEEN) }

  function Past(s: State): nat { Count(s.spawns, PAST) }

  function Lost(s: State): nat { Count(s.spawns, GONE) }

  function Holders(s: State): nat { Count(s.spawns, HOLDING) }

  predicate Inv(size: nat, s: State) {
    && s.counter == Between(s) + Lost(s)
    && Past(s) + Lost(s) <= QUEUE_LIMIT
    && s.held == Holders(s) <= size
  }

  /** All four counts when spawn `i` moves to `x`. */
  lemma Counts(s: State, i: nat, x: Spawn)
    requires i < |s.spawns|
    ensures
      var s', p := Move(s, i, x), s.spawns[i];
      && Between(s') == Between(s) - One(BETWEEN(p)) + One(BETWEEN(x))
      && Past(s') == Past(s) - One(PAST(p)) + One(PAST(x))
      && Lost(s') == Lost(s) - One(GONE(p)) + One(GONE(x))
      && Holders(s') == Holders(s) - One(HOLDING(p)) + One(HOLDING(x))
  {
    CountAt(s.spawns, BETWEEN, i, x);
    CountAt(s.spawns, PAST, i, x);
    CountAt(s.spawns, GONE, i, x);
    CountAt(s.spawns, HOLDING, i, x);
  }

  lemma Step(leaky: bool, size: nat, s: State, a: Action)
    requires Inv(size, s) && Enabled(leaky, size, s, a)
    ensures Inv(size, Apply(leaky, size, s, a))
  {
    var s' := Apply(leaky, size, s, a);
    if a.Call? {
      CountMore(s.spawns, BETWEEN, Calling);
      CountMore(s.spawns, PAST, Calling);
      CountMore(s.spawns, GONE, Calling);
      CountMore(s.spawns, HOLDING, Calling);
    } else {
      Counts(s, a.i, s'.spawns[a.i]);
      CountLess(s'.spawns, PAST, BETWEEN);
      hide Count;
      assert s'.spawns == Move(s, a.i, s'.spawns[a.i]).spawns;
    }
  }

  lemma {:induction false} Kept(leaky: bool, size: nat, states: seq<State>, actions: seq<Action>, k: nat)
    requires Path(leaky, size, states, actions) && k < |states| && Inv(size, states[0])
    ensures Inv(size, states[k])
    decreases k
  {
    if k == 0 {
    } else {
      Kept(leaky, size, states, actions, k - 1);
      hide Inv, Enabled, Apply;
      Step(leaky, size, states[k - 1], actions[k - 1]);
    }
  }

  lemma Reached(leaky: bool, size: nat, states: seq<State>, actions: seq<Action>, k: nat)
    requires Run(leaky, size, states, actions) && k < |states|
    ensures Inv(size, states[k])
  {
    Kept(leaky, size, states, actions, k);
  }

  // --------------------------------------------------------------- theorems

  /**
   In every state of every interleaving: at most ten spawns are past the check and
   still queued, at most `size` hold the semaphore, and the counter is the number
   of spawns between increment and decrement plus the ones that slipped out.
   */
  lemma Admitted(leaky: bool, size: nat, states: seq<State>, actions: seq<Action>, k: nat)
    requires Run(leaky, size, states, actions) && k < |states|
    ensures
      var s := states[k];
      && Past(s) <= QUEUE_LIMIT
      && Holders(s) == s.held <= size
      && s.counter == Between(s) + Lost(s)
      && (s.counter == Between(s) <==> Lost(s) == 0)
  {
    Reached(leaky, size, states, actions, k);
  }

  lemma LostStep(leaky: bool, size: nat, s: State, a: Action)
    requires Enabled(leaky, size, s, a)
    ensures Lost(Apply(leaky, size, s, a)) == Lost(s) + One(a.Bail?)
  {
    if a.Call? {
      CountMore(s.spawns, GONE, Calling);
    } else {
      CountAt(s.spawns, GONE, a.i, Apply(leaky, size, s, a).spawns[a.i]);
      hide Count;
    }
  }

  lemma {:induction false} LostStays(leaky: bool, size: nat, states: seq<State>, actions: seq<Action>, j: nat, k: nat)
    requires Path(leaky, size, states, actions) && j <= k < |states|
    ensures Lost(states[j]) <= Lost(states[k])
    decreases k - j
  {
    hide Enabled, Apply, Lost;
    if j < k {
      LostStays(leaky, size, states, actions, j, k - 1);
      LostStep(leaky, size, states[k - 1], actions[k - 1]);
    }
  }

  /** The process box has no way out in between. */
  lemma {:induction false} NothingLost(size: nat, states: seq<State>, actions: seq<Action>, k: nat)
    requires Run(false, size, states, actions) && k < |states|
    ensures Lost(states[k]) == 0 && states[k].counter == Between(states[k])
    decreases k
  {
    Reached(false, size, states, actions, k);
    if k == 0 {
    } else {
      NothingLost(size, states, actions, k - 1);
      LostStep(false, size, states[k - 1], actions[k - 1]);
      hide Apply;
    }
  }

  // --------------------------------------------------------------- shut out

  /** A step that lets a spawn past the check. */
  predicate Admits(a: Action, after: State) { a.Read? && At(after, a.i, Queued) }

  /** From `s` on, whatever happens, no spawn gets past the check. */
  ghost predicate Closed(size: nat, s: State) {
    forall states: seq<State>, actions: seq<Action> :: Path(true, size, states, actions) && states[0] == s ==>
      forall k :: 0 <= k < |actions| ==> !Admits(actions[k], states[k + 1])
  }

  /** Between increment and decrement: how many steps away from the decrement, at most. */
  function Distance(p: Spawn): nat {
    match p case Counted => 3 case Queued => 2 case Turned => 1 case Granted => 1 case GivenUp => 1 case _ => 0
  }

  function Distances(spawns: seq<Spawn>): nat {
    if |spawns| == 0 then 0 else Distances(spawns[..|spawns| - 1]) + Distance(spawns[|spawns| - 1])
  }

  lemma {:induction false} DistancesAt(spawns: seq<Spawn>, i: nat, x: Spawn)
    requires i < |spawns|
    ensures Distances(spawns[i := x]) == Distances(spawns) - Distance(spawns[i]) + Distance(x)
    decreases |spawns|
  {
    var n := |spawns| - 1;
    if i < n {
      DistancesAt(spawns[..n], i, x);
      assert spawns[i := x][..n] == spawns[..n][i := x];
    } else {
      assert spawns[i := x][..n] == spawns[..n];
    }
  }

  lemma {:induction false} SomeBetween(spawns: seq<Spawn>) returns (i: nat)
    requires Count(spawns, BETWEEN) > 0
    ensures i < |spawns| && BETWEEN(spawns[i])
    decreases |spawns|
  {
    var n := |spawns| - 1;
    if BETWEEN(spawns[n]) {
      i := n;
    } else {
      i := SomeBetween(spawns[..n]);
    }
  }

  /** What takes a spawn closer to its decrement. */
  function Forward(p: Spawn, i: nat): Action
    requires BETWEEN(p)
  {
    match p case Counted => Read(i) case Turned => TurnAway(i) case Queued => Cancel(i) case _ => Decrement(i)
  }

  lemma ForwardStep(size: nat, s: State, i: nat)
    requires i < |s.spawns| && BETWEEN(s.spawns[i])
    ensures
      var a := Forward(s.spawns[i], i);
      && Enabled(true, size, s, a) && !a.Bail?
      && Distances(Apply(true, size, s, a).spawns) < Distances(s.spawns)
  {
    var a := Forward(s.spawns[i], i);
    DistancesAt(s.spawns, i, Apply(true, size, s, a).spawns[i]);
    hide Distances;
  }

  lemma Prepend(size: nat, s: State, a: Action, states: seq<State>, actions: seq<Action>)
    requires Path(true, size, states, actions) && Enabled(true, size, s, a) && states[0] == Apply(true, size, s, a)
    ensures Path(true, size, [s] + states, [a] + actions)
  {
    hide Enabled, Apply;
    var ss, aa := [s] + states, [a] + actions;
    forall i | 0 <= i < |aa|
      ensures Enabled(true, size, ss[i], aa[i]) && ss[i + 1] == Apply(true, size, ss[i], aa[i])
    {
      if i > 0 {
        assert ss[i] == states[i - 1] && ss[i + 1] == states[i] && aa[i] == actions[i - 1];
      }
    }
  }

  lemma Extend(size: nat, states: seq<State>, actions: seq<Action>, a: Action) returns (ss: seq<State>, aa: seq<Action>)
    requires Path(true, size, states, actions) && Enabled(true, size, states[|actions|], a)
    ensures ss == states + [Apply(true, size, states[|actions|], a)] && aa == actions + [a] && Path(true, size, ss, aa)
  {
    hide Enabled, Apply;
    ss, aa := states + [Apply(true, size, states[|actions|], a)], actions + [a];
  }

  /** The spawns that are under way can all finish, without another one slipping out. */
  lemma {:induction false} Drain(size: nat, s: State) returns (states: seq<State>, actions: seq<Action>)
    ensures Path(true, size, states, actions) && states[0] == s
    ensures Between(states[|actions|]) == 0 && Lost(states[|actions|]) == Lost(s)
    decreases Distances(s.spawns)
  {
    if Between(s) == 0 {
      states, actions := [s], [];
    } else {
      var i := SomeBetween(s.spawns);
      var a := Forward(s.spawns[i], i);
      ForwardStep(size, s, i);
      LostStep(true, size, s, a);
      hide Enabled, Apply, Distances, Forward, Between, Lost;
      states, actions := Drain(size, Apply(true, size, s, a));
      Prepend(size, s, a, states, actions);
      states, actions := [s] + states, [a] + actions;
    }
  }

  /** As long as fewer than ten have slipped out, a spawn can still get past the check. */
  lemma StillOpen(size: nat, s: State) returns (states: seq<State>, actions: seq<Action>)
    requires Inv(size, s) && Lost(s) < QUEUE_LIMIT
    ensures Path(true, size, states, actions) && states[0] == s
    ensures |actions| > 0 && Admits(actions[|actions| - 1], states[|actions|])
  {
    states, actions := Drain(size, s);
    Kept(true, size, states, actions, |actions|);
    var t := states[|actions|];
    assert t.counter == Lost(s);
    var i := |t.spawns|;
    hide Path, Inv, Between, Lost;
    states, actions := Extend(size, states, actions, Call);
    states, actions := Extend(size, states, actions, Increment(i));
    states, actions := Extend(size, states, actions, Read(i));
  }

  /**
   In the Porto box ten spawns that slipped out close the door for good: from a
   reachable state on no spawn ever gets past the check, if and only if at least
   ten have slipped out.
   */
  lemma ShutOut(size: nat, states: seq<State>, actions: seq<Action>)
    requires Run(true, size, states, actions)
    ensures Closed(size, states[|actions|]) <==> Lost(states[|actions|]) >= QUEUE_LIMIT
  {
    var s := states[|actions|];
    Reached(true, size, states, actions, |actions|);
    if Lost(s) < QUEUE_LIMIT {
      var ss, aa := StillOpen(size, s);
      assert Admits(aa[|aa| - 1], ss[|aa| - 1 + 1]);
    } else {
      forall ss: seq<State>, aa: seq<Action>, k | Path(true, size, ss, aa) && ss[0] == s && 0 <= k < |aa|
        ensures !Admits(aa[k], ss[k + 1])
      {
        Kept(true, size, ss, aa, k);
        LostStays(true, size, ss, aa, 0, k);
        FullRead(size, ss[k], aa[k]);
      }
    }
  }

  lemma FullRead(size: nat, s: State, a: Action)
    requires Inv(size, s) && Lost(s) >= QUEUE_LIMIT && Enabled(true, size, s, a)
    ensures !Admits(a, Apply(true, size, s, a))
  {
    if a.Read? {
      CountAt(s.spawns, BETWEEN, a.i, Calling);
    }
  }

  /** Every number of lost spawns up to ten is reached. */
  lemma {:induction false} Leaks(size: nat, n: nat) returns (states: seq<State>, actions: seq<Action>)
    requires n <= QUEUE_LIMIT
    ensures Run(true, size, states, actions)
    ensures Lost(states[|actions|]) == n && states[|actions|].counter == n && |states[|actions|].spawns| == n
    decreases n
  {
    if n == 0 {
      states, actions := [INIT], [];
    } else {
      states, actions := Leaks(size, n - 1);
      var s := states[|actions|];
      hide Path, Lost;
      var i := n - 1;
      states, actions := Extend(size, states, actions, Call);
      LostStep(true, size, s, Call);
      var s1 := states[|actions|];
      states, actions := Extend(size, states, actions, Increment(i));
      LostStep(true, size, s1, Increment(i));
      var s2 := states[|actions|];
      states, actions := Extend(size, states, actions, Read(i));
      LostStep(true, size, s2, Read(i));
      var s3 := states[|actions|];
      states, actions := Extend(size, states, actions, Bail(i));
      LostStep(true, size, s3, Bail(i));
    }
  }
}
