/**
 The life of one spawn channel: the goroutine that spawns the worker, the
 goroutines that want it killed, the channel they meet on, the contexts and the
 compare-and-swap flag.  Every action below is one atomic step; a run is any
 interleaving of them.
 */
module SpawnProtocol {

  // ------------------------------------------------------------------- state

  datatype Code = BadProfile | UnknownIsolate | SpawnEagain | SpawningFailed

  /** The terminal replies of a spawn channel. */
  datatype Frame = SpawnError(code: Code) | KillError | KillOk

  /** What `box.Spawn` returned. */
  datatype Result = Success | Cancelled | Again | Failure

  /** What has become of the request. */
  datatype Outcome = Pending | Refused(code: Code) | Returned(result: Result)

  /** Somebody has the process: before the swap, after it, after `Kill`. */
  datatype Stage = Holding | Won | Killed(ok: bool)

  datatype Spawner =
    | Idle                     // before onSpawn has looked at the profile
    | Rejected                 // onSpawn has failed, there is no goroutine
    | Spawning                 // inside box.Spawn
    | Failing(code: Code)      // about to report the error
    | Arriving                 // has the process, not yet in the select
    | Offering                 // blocked in the select
    | SpawnerHas(stage: Stage) // took the ctx.Done branch
    | Closing                  // about to run the deferred close
    | Closed

  datatype Killer =
    | Ready                    // before its select
    | Cancelling               // took the default branch
    | KillerHas(stage: Stage)  // received the process
    | Gone

  /** Who left the spawner's select with the process. */
  datatype Taker = Nobody | Self | Other(i: nat)

  datatype State = State(
    spawner: Spawner, killers: seq<Killer>,
    connDone: bool,            // the connection's context
    spawnDone: bool,           // its child, passed to box.Spawn
    flag: bool,                // flagKilled
    outcome: Outcome, taker: Taker,
    kills: seq<bool>,          // what the calls of Kill have returned
    frames: seq<Frame>)

  const INIT := State(Idle, [], false, false, false, Pending, Nobody, [], [])

  // ------------------------------------------------------------------- steps

  datatype Action =
    | Refuse(code: Code) | Accept
    | SpawnReturns(result: Result) | ReportFailure
    | EnterSelect | TakeDone | SpawnerSwaps | SpawnerKills(ok: bool) | SpawnerReplies | CloseChannel
    | Propagate
    | ReceiveProcess(i: nat) | SeeClosed(i: nat) | SeeConnDone(i: nat) | TakeDefault(i: nat) | CancelSpawn(i: nat)
    | KillerSwaps(i: nat) | KillerKills(i: nat, ok: bool) | KillerReplies(i: nat)
    | KillRequest | ConnCancel

  /** What comes from outside; everything else is a goroutine or the runtime moving on. */
  predicate External(a: Action) { a.Refuse? || a.Accept? || a.KillRequest? || a.ConnCancel? }

  function Reply(ok: bool): Frame { if ok then KillOk else KillError }

  predicate KillerAt(s: State, i: nat, k: Killer) { i < |s.killers| && s.killers[i] == k }

  predicate KillerHolds(s: State, i: nat) { i < |s.killers| && s.killers[i].KillerHas? }

  /** When the action can happen. */
  predicate Enabled(s: State, a: Action) {
    match a
    case Refuse(code) => s.spawner.Idle? && (code.BadProfile? || code.UnknownIsolate?)
    case Accept => s.spawner.Idle?
    case SpawnReturns(_) => s.spawner.Spawning?
    case ReportFailure => s.spawner.Failing?
    case EnterSelect => s.spawner.Arriving? && !s.spawnDone
    case TakeDone => (s.spawner.Arriving? || s.spawner.Offering?) && s.spawnDone
    case SpawnerSwaps => s.spawner == SpawnerHas(Holding)
    case SpawnerKills(_) => s.spawner == SpawnerHas(Won)
    case SpawnerReplies => s.spawner.SpawnerHas? && s.spawner.stage.Killed?
    case CloseChannel => s.spawner.Closing?
    case Propagate => s.connDone && !s.spawnDone
    case ReceiveProcess(i) => KillerAt(s, i, Ready) && s.spawner.Offering?
    case SeeClosed(i) => KillerAt(s, i, Ready) && s.spawner.Closed?
    case SeeConnDone(i) => KillerAt(s, i, Ready) && s.connDone
    case TakeDefault(i) =>
      KillerAt(s, i, Ready) && !s.connDone && !s.spawner.Closed? && !(s.spawner.Offering? && !s.spawnDone)
    case CancelSpawn(i) => KillerAt(s, i, Cancelling)
    case KillerSwaps(i) => KillerAt(s, i, KillerHas(Holding))
    case KillerKills(i, _) => KillerAt(s, i, KillerHas(Won))
    case KillerReplies(i) => KillerHolds(s, i) && s.killers[i].stage.Killed?
    case KillRequest => !s.spawner.Idle? && !s.spawner.Rejected?
    case ConnCancel => true
  }

  /** What it does. */
  function Apply(s: State, a: Action): State
    requires Enabled(s, a)
  {
    match a
    case Refuse(code) => s.(spawner := Rejected, outcome := Refused(code), frames := s.frames + [SpawnError(code)])
    case Accept => s.(spawner := Spawning)
    case SpawnReturns(r) =>
      s.(outcome := Returned(r),
         spawner := match r
           case Success => Arriving
           case Cancelled => Closing
           case Again => Failing(SpawnEagain)
           case Failure => Failing(SpawningFailed))
    case ReportFailure => s.(spawner := Closing, frames := s.frames + [SpawnError(s.spawner.code)])
    case EnterSelect => s.(spawner := Offering)
    case TakeDone => s.(spawner := SpawnerHas(Holding), taker := Self)
    case SpawnerSwaps => if s.flag then s.(spawner := Closing) else s.(flag := true, spawner := SpawnerHas(Won))
    case SpawnerKills(ok) => s.(kills := s.kills + [ok], spawner := SpawnerHas(Killed(ok)))
    case SpawnerReplies => s.(spawner := Closing, frames := s.frames + [Reply(s.spawner.stage.ok)])
    case CloseChannel => s.(spawner := Closed)
    case Propagate => s.(spawnDone := true)
    case ReceiveProcess(i) => s.(spawner := Closing, taker := Other(i), killers := s.killers[i := KillerHas(Holding)])
    case SeeClosed(i) => s.(killers := s.killers[i := Gone])
    case SeeConnDone(i) => s.(killers := s.killers[i := Gone])
    case TakeDefault(i) => s.(killers := s.killers[i := Cancelling])
    case CancelSpawn(i) => s.(spawnDone := true, killers := s.killers[i := Gone])
    case KillerSwaps(i) =>
      if s.flag then s.(killers := s.killers[i := Gone])
      else s.(flag := true, killers := s.killers[i := KillerHas(Won)])
    case KillerKills(i, ok) => s.(kills := s.kills + [ok], killers := s.killers[i := KillerHas(Killed(ok))])
    case KillerReplies(i) => s.(frames := s.frames + [Reply(s.killers[i].stage.ok)], killers := s.killers[i := Gone])
    case KillRequest => s.(killers := s.killers + [Ready])
    case ConnCancel => s.(connDone := true)
  }

  predicate Run(states: seq<State>, actions: seq<Action>) {
    && |states| == |actions| + 1 && states[0] == INIT
    && forall i :: 0 <= i < |actions| ==> Enabled(states[i], actions[i]) && states[i + 1] == Apply(states[i], actions[i])
  }

  // -------------------------------------------------------------- invariant

  predicate Spawned(s: State) { s.outcome == Returned(Success) }

  /** The process is in the hands of the goroutine in `SpawnerHas` or `KillerHas`. */
  predicate Held(s: State) { s.spawner.SpawnerHas? || (s.taker.Other? && KillerHolds(s, s.taker.i)) }

  function StageOf(s: State): Stage
    requires Held(s)
  {
    if s.spawner.SpawnerHas? then s.spawner.stage else s.killers[s.taker.i].stage
  }

  /** Nobody has taken the process yet, or there is none. */
  predicate Untouched(s: State) { !s.flag && s.kills == [] && s.frames == [] }

  /** What the flag, the kills and the frames are, given where the process is. */
  predicate Counts(s: State) {
    if Held(s) then
      match StageOf(s)
      case Holding => Untouched(s)
      case Won => s.flag && s.kills == [] && s.frames == []
      case Killed(ok) => s.flag && s.kills == [ok] && s.frames == []
    else if Spawned(s) && s.taker != Nobody then
      s.flag && |s.kills| == 1 && s.frames == [Reply(s.kills[0])]
    else if s.outcome.Refused? then
      !s.flag && s.kills == [] && s.frames == [SpawnError(s.outcome.code)]
    else if (s.outcome == Returned(Again) || s.outcome == Returned(Failure)) && !s.spawner.Failing? then
      !s.flag && s.kills == [] && s.frames == [SpawnError(FailureCode(s.outcome.result))]
    else
      Untouched(s)
  }

  function FailureCode(r: Result): Code { if r.Again? then SpawnEagain else SpawningFailed }

  /** Where the spawner can be after each outcome. */
  predicate Placed(s: State) {
    match s.outcome
    case Pending => (s.spawner.Idle? || s.spawner.Spawning?) && s.taker == Nobody
    case Refused(_) => s.spawner.Rejected? && s.taker == Nobody && s.killers == []
    case Returned(Success) =>
      (match s.taker
       case Nobody => s.spawner.Arriving? || s.spawner.Offering?
       case Self => s.spawner.SpawnerHas? || s.spawner.Closing? || s.spawner.Closed?
       case Other(i) => i < |s.killers| && (s.spawner.Closing? || s.spawner.Closed?) && (s.killers[i].KillerHas? || s.killers[i].Gone?))
    case Returned(r) =>
      s.taker == Nobody && (s.spawner.Closing? || s.spawner.Closed? || (!r.Cancelled? && s.spawner == Failing(FailureCode(r))))
  }

  /** A killer that is through without the process leaves something behind that ends the spawner's wait. */
  predicate Heard(s: State) {
    forall i :: 0 <= i < |s.killers| && s.killers[i].Gone? && s.taker != Other(i) ==>
      s.spawnDone || s.connDone || s.spawner.Closed?
  }

  predicate OneHolder(s: State) {
    forall i :: 0 <= i < |s.killers| && s.killers[i].KillerHas? ==> s.taker == Other(i)
  }

  predicate Handshake(s: State) { Placed(s) && OneHolder(s) && Heard(s) && Counts(s) && (s.spawner.Idle? ==> s.killers == []) }

  predicate Beginning(a: Action) { a.Refuse? || a.Accept? || a.SpawnReturns? || a.ReportFailure? }

  /** The spawner up to the outcome of the spawn. */
  lemma BeginningStep(s: State, a: Action)
    requires Handshake(s) && Enabled(s, a) && Beginning(a)
    ensures Handshake(Apply(s, a))
  {
  }

  predicate Selecting(a: Action) { a.EnterSelect? || a.TakeDone? || a.CloseChannel? || a.ReceiveProcess? }

  /** The spawner's select, and its end. */
  lemma SelectingStep(s: State, a: Action)
    requires Handshake(s) && Enabled(s, a) && Selecting(a)
    ensures Handshake(Apply(s, a))
  {
  }

  predicate Swapping(a: Action) { a.SpawnerSwaps? || a.KillerSwaps? }

  /** The compare-and-swap. */
  lemma SwappingStep(s: State, a: Action)
    requires Handshake(s) && Enabled(s, a) && Swapping(a)
    ensures Handshake(Apply(s, a))
  {
  }

  predicate Killing(a: Action) { a.SpawnerKills? || a.SpawnerReplies? || a.KillerKills? || a.KillerReplies? }

  /** The kill and its reply. */
  lemma KillingStep(s: State, a: Action)
    requires Handshake(s) && Enabled(s, a) && Killing(a)
    ensures Handshake(Apply(s, a))
  {
  }

  predicate Leaving(a: Action) { a.SeeClosed? || a.SeeConnDone? }

  predicate Defaulting(a: Action) { a.TakeDefault? || a.CancelSpawn? }

  /** A killer that finds nothing left to do. */
  lemma LeavingStep(s: State, a: Action)
    requires Handshake(s) && Enabled(s, a) && Leaving(a)
    ensures Handshake(Apply(s, a))
  {
  }

  /** A killer that does not get the process and cancels the spawn. */
  lemma DefaultingStep(s: State, a: Action)
    requires Handshake(s) && Enabled(s, a) && Defaulting(a)
    ensures Handshake(Apply(s, a))
  {
  }

  /** Requests, cancellation and its way to the child context. */
  lemma OutsideStep(s: State, a: Action)
    requires Handshake(s) && Enabled(s, a) && (a.ConnCancel? || a.Propagate?)
    ensures Handshake(Apply(s, a))
  {
  }

  lemma RequestStep(s: State)
    requires Handshake(s) && Enabled(s, KillRequest)
    ensures Handshake(Apply(s, KillRequest))
  {
  }

  lemma Step(s: State, a: Action)
    requires Handshake(s) && Enabled(s, a)
    ensures Handshake(Apply(s, a))
  {
    hide Handshake, Enabled, Apply;
    if Beginning(a) {
      BeginningStep(s, a);
    } else if Selecting(a) {
      SelectingStep(s, a);
    } else if Swapping(a) {
      SwappingStep(s, a);
    } else if Killing(a) {
      KillingStep(s, a);
    } else if Leaving(a) {
      LeavingStep(s, a);
    } else if Defaulting(a) {
      DefaultingStep(s, a);
    } else if a.KillRequest? {
      RequestStep(s);
    } else {
      OutsideStep(s, a);
    }
  }

  /** Every state of every run. */
  lemma {:induction false} Reached(states: seq<State>, actions: seq<Action>, k: nat)
    requires Run(states, actions) && k < |states|
    ensures Handshake(states[k])
    decreases k
  {
    if k == 0 {
    } else {
      Reached(states, actions, k - 1);
      hide Handshake, Enabled, Apply;
      Step(states[k - 1], actions[k - 1]);
    }
  }

  /** The error code a failure calls for. */
  predicate Blames(o: Outcome, c: Code) { o == Refused(c) || (o.Returned? && c == FailureCode(o.result)) }

  /**
   At most one kill and at most one terminal reply, in every state of every run:
   a process is killed only if it was spawned, a cancelled spawn is not answered,
   and an error code is the one its cause calls for.
   */
  lemma AtMostOnce(states: seq<State>, actions: seq<Action>, k: nat)
    requires Run(states, actions) && k < |states|
    ensures
      var s := states[k];
      && |s.kills| <= 1 && |s.frames| <= 1
      && (s.kills != [] ==> Spawned(s))
      && (s.outcome == Returned(Cancelled) ==> s.frames == [])
      && (s.frames == [KillOk] ==> s.kills == [true])
      && (s.frames == [KillError] ==> s.kills == [false])
      && (forall c :: s.frames == [SpawnError(c)] ==> s.kills == [] && Blames(s.outcome, c))
  {
    Reached(states, actions, k);
  }

  // -------------------------------------------------------------- quiescence

  /** Nothing moves any more without input from outside. */
  ghost predicate Quiescent(s: State) { forall a :: !External(a) ==> !Enabled(s, a) }

  /** What a killer that is not through can do next. */
  function KillerMove(s: State, i: nat): (a: Action)
    requires i < |s.killers| && !s.killers[i].Gone?
    ensures Enabled(s, a) && !External(a)
  {
    match s.killers[i]
    case Ready =>
      if s.connDone then SeeConnDone(i)
      else if s.spawner.Closed? then SeeClosed(i)
      else if s.spawner.Offering? then ReceiveProcess(i)
      else TakeDefault(i)
    case Cancelling => CancelSpawn(i)
    case KillerHas(Holding) => KillerSwaps(i)
    case KillerHas(Won) => KillerKills(i, true)
    case KillerHas(Killed(_)) => KillerReplies(i)
  }

  /** The spawner is through, or blocked with nothing to wake it. */
  predicate AtRest(s: State) {
    s.spawner.Idle? || s.spawner.Rejected? || s.spawner.Closed? || (s.spawner.Offering? && !s.spawnDone && !s.connDone)
  }

  function SpawnerMove(s: State): (a: Action)
    requires !AtRest(s)
    ensures Enabled(s, a) && !External(a)
  {
    match s.spawner
    case Spawning => SpawnReturns(Success)
    case Failing(_) => ReportFailure
    case Arriving => if s.spawnDone then TakeDone else EnterSelect
    case Offering => if s.spawnDone then TakeDone else Propagate
    case SpawnerHas(Holding) => SpawnerSwaps
    case SpawnerHas(Won) => SpawnerKills(true)
    case SpawnerHas(Killed(_)) => SpawnerReplies
    case Closing => CloseChannel
  }

  lemma QuiescentPlaces(s: State)
    requires Quiescent(s)
    ensures AtRest(s) && forall i :: 0 <= i < |s.killers| ==> s.killers[i].Gone?
  {
    hide Enabled;
    var a := if AtRest(s) then ConnCancel else SpawnerMove(s);
    forall i | 0 <= i < |s.killers|
      ensures s.killers[i].Gone?
    {
      var b := if s.killers[i].Gone? then ConnCancel else KillerMove(s, i);
    }
  }

  /**
   Once a kill has been handled or the connection's context is cancelled, in every
   quiescent state every spawned process has been killed exactly once and its
   channel has got exactly one reply.
   */
  lemma KilledExactlyOnce(states: seq<State>, actions: seq<Action>, k: nat)
    requires Run(states, actions) && k < |states|
    requires Quiescent(states[k]) && (states[k].killers != [] || states[k].connDone)
    ensures Spawned(states[k]) ==> |states[k].kills| == 1 && |states[k].frames| == 1
    ensures states[k].outcome.Returned? && !Spawned(states[k]) && states[k].outcome.result != Cancelled ==>
      |states[k].frames| == 1
  {
    var s := states[k];
    Reached(states, actions, k);
    QuiescentPlaces(s);
    hide Quiescent, Enabled, Apply;
    if s.killers != [] {
      assert s.killers[0].Gone?;
    }
  }

  /** Conversely, a process nobody wants dead is alive, and waits to be asked for. */
  lemma AliveUntilAsked(states: seq<State>, actions: seq<Action>, k: nat)
    requires Run(states, actions) && k < |states|
    requires states[k].killers == [] && !states[k].connDone
    ensures states[k].kills == []
    ensures Quiescent(states[k]) && Spawned(states[k]) ==> states[k].spawner.Offering?
    decreases k
  {
    NoCancel(states, actions, k);
    Reached(states, actions, k);
    if Quiescent(states[k]) && Spawned(states[k]) {
      QuiescentPlaces(states[k]);
    }
  }

  lemma {:induction false} NoCancel(states: seq<State>, actions: seq<Action>, k: nat)
    requires Run(states, actions) && k < |states|
    requires states[k].killers == [] && !states[k].connDone
    ensures !states[k].spawnDone && states[k].taker == Nobody
    decreases k
  {
    hide Enabled, Apply;
    if k == 0 {
    } else {
      Unasked(states[k - 1], actions[k - 1]);
      NoCancel(states, actions, k - 1);
    }
  }

  lemma Unasked(s: State, a: Action)
    requires Enabled(s, a)
    ensures Apply(s, a).killers == [] && !Apply(s, a).connDone ==> s.killers == [] && !s.connDone
    ensures s.killers == [] && !s.connDone && !s.spawnDone && s.taker == Nobody ==>
      Apply(s, a).taker == Nobody && !Apply(s, a).spawnDone
  {
  }

  // ---------------------------------------------------------------- progress

  function SpawnerRank(p: Spawner): nat {
    match p
    case Idle => 8
    case Rejected => 0
    case Spawning => 7
    case Failing(_) => 2
    case Arriving => 6
    case Offering => 5
    case SpawnerHas(st) => 1 + StageRank(st)
    case Closing => 1
    case Closed => 0
  }

  function StageRank(st: Stage): nat { match st case Holding => 3 case Won => 2 case Killed(_) => 1 }

  function KillerRank(k: Killer): nat {
    match k
    case Ready => 4
    case Cancelling => 1
    case KillerHas(st) => StageRank(st)
    case Gone => 0
  }

  function KillersRank(ks: seq<Killer>): nat {
    if ks == [] then 0 else KillersRank(ks[..|ks| - 1]) + KillerRank(ks[|ks| - 1])
  }

  function Rank(s: State): nat {
    SpawnerRank(s.spawner) + KillersRank(s.killers) + if s.spawnDone then 0 else 1
  }

  lemma {:induction false} KillersRankAt(ks: seq<Killer>, i: nat, k: Killer)
    requires i < |ks|
    ensures KillersRank(ks[i := k]) == KillersRank(ks) - KillerRank(ks[i]) + KillerRank(k)
    decreases |ks|
  {
    var n := |ks| - 1;
    if i < n {
      KillersRankAt(ks[..n], i, k);
      assert ks[i := k][..n] == ks[..n][i := k];
    } else {
      assert ks[i := k][..n] == ks[..n];
    }
  }

  predicate ByKiller(a: Action) {
    || a.ReceiveProcess? || a.SeeClosed? || a.SeeConnDone? || a.TakeDefault? || a.CancelSpawn?
    || a.KillerSwaps? || a.KillerKills? || a.KillerReplies?
  }

  lemma KillerProgress(s: State, a: Action)
    requires Enabled(s, a) && ByKiller(a)
    ensures Rank(Apply(s, a)) < Rank(s)
  {
    OneKillerMoves(s, a);
    hide Enabled, Apply, KillersRank, KillerRank, SpawnerRank;
    KillersRankAt(s.killers, a.i, Apply(s, a).killers[a.i]);
  }

  /** What goes up or down when a killer moves, apart from the killers that do not. */
  function Share(s: State, i: nat): int
    requires i < |s.killers|
  {
    SpawnerRank(s.spawner) + KillerRank(s.killers[i]) + if s.spawnDone then 0 else 1
  }

  lemma OneKillerMoves(s: State, a: Action)
    requires Enabled(s, a) && ByKiller(a)
    ensures
      var t := Apply(s, a);
      a.i < |s.killers| == |t.killers| && t.killers == s.killers[a.i := t.killers[a.i]] && Share(t, a.i) < Share(s, a.i)
  {
    hide KillersRank;
  }

  /** Every step of a goroutine makes progress. */
  lemma Progress(s: State, a: Action)
    requires Enabled(s, a) && !External(a)
    ensures Rank(Apply(s, a)) < Rank(s)
  {
    if ByKiller(a) {
      KillerProgress(s, a);
    } else {
      hide KillersRank;
      assert Apply(s, a).killers == s.killers;
    }
  }

  /** So without input from outside a run comes to rest: it has at most `Rank` more steps. */
  lemma {:induction false} ComesToRest(states: seq<State>, actions: seq<Action>, k: nat, n: nat)
    requires Run(states, actions) && k <= n <= |actions|
    requires forall i :: k <= i < n ==> !External(actions[i])
    ensures n - k + Rank(states[n]) <= Rank(states[k])
    decreases n - k
  {
    hide Rank, Enabled, Apply;
    if k < n {
      ComesToRest(states, actions, k, n - 1);
      Progress(states[n - 1], actions[n - 1]);
    }
  }
}
