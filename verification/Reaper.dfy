/**
 The table of child processes and the goroutine that reaps them.  The kernel
 starts and ends processes at any time; signals merge on their way into a
 channel with one slot; one mutex covers both starting a worker and a whole
 round of `Wait4`.
 */
module Reaper {
  import opened Options

  type Pid = nat

  /** A zombie has been missed when its signal came while nobody listened. */
  datatype Life = Running | Zombie(missed: bool)

  /** A child of the daemon: one of the box's workers, by number, or somebody else's. */
  datatype Child = Child(worker: Option<nat>, life: Life)

  /** Who has the mutex, and where. */
  datatype Owner =
    | Nobody
    | Forking                       // Spawn, before the process is started
    | Forked(pid: Pid, worker: nat) // Spawn, before the table entry
    | Waiting                       // the handler, before Wait4
    | Collected(pid: Pid)           // the handler, Wait4 has returned `pid`
    | Leaving                       // the handler, Wait4 has found nothing

  datatype Handler = Unregistered | Idle | Woken | Inside | Stopped

  datatype State = State(
    kernel: map<Pid, Child>, children: map<Pid, nat>, started: nat,
    owner: Owner, handler: Handler,
    pending: bool,                  // a SIGCHLD on its way
    token: bool)                    // the slot of the channel

  const INIT := State(map[], map[], 0, Nobody, Unregistered, false, false)

  predicate Listening(s: State) { !s.handler.Unregistered? && !s.handler.Stopped? }

  datatype Action =
    | EnterSpawn | Fork(pid: Pid) | ForkFails | Insert
    | Foreign(pid: Pid) | ForeignWaited(pid: Pid)
    | Exit(pid: Pid) | Deliver
    | Register | Wake | Lock | Collect(pid: Pid) | Interrupted | Remove | FindNothing | Unlock | Stop

  predicate IsZombie(s: State, pid: Pid) { pid in s.kernel && s.kernel[pid].life.Zombie? }

  ghost predicate Enabled(s: State, a: Action) {
    match a
    case EnterSpawn => s.owner.Nobody?
    case Fork(pid) => s.owner.Forking? && pid !in s.kernel
    case ForkFails => s.owner.Forking?
    case Insert => s.owner.Forked?
    case Foreign(pid) => pid !in s.kernel
    case ForeignWaited(pid) => IsZombie(s, pid) && s.kernel[pid].worker.None?
    case Exit(pid) => pid in s.kernel && s.kernel[pid].life.Running?
    case Deliver => s.pending
    case Register => s.handler.Unregistered?
    case Wake => s.handler.Idle? && s.token
    case Lock => s.handler.Woken? && s.owner.Nobody?
    case Collect(pid) => s.owner.Waiting? && IsZombie(s, pid)
    case Interrupted => s.owner.Waiting?
    case Remove => s.owner.Collected?
    case FindNothing => s.owner.Waiting? && forall pid :: !IsZombie(s, pid)
    case Unlock => s.owner.Leaving?
    case Stop => s.handler.Idle?
  }

  function AllMissed(kernel: map<Pid, Child>): map<Pid, Child> {
    map pid | pid in kernel :: Child(kernel[pid].worker, if kernel[pid].life.Zombie? then Zombie(true) else Running)
  }

  ghost function Apply(s: State, a: Action): State
    requires Enabled(s, a)
  {
    match a
    case EnterSpawn => s.(owner := Forking)
    case Fork(pid) =>
      s.(kernel := s.kernel[pid := Child(Some(s.started), Running)], owner := Forked(pid, s.started), started := s.started + 1)
    case ForkFails => s.(owner := Nobody, pending := true)
    case Insert => s.(children := s.children[s.owner.pid := s.owner.worker], owner := Nobody)
    case Foreign(pid) => s.(kernel := s.kernel[pid := Child(None, Running)])
    case ForeignWaited(pid) => s.(kernel := s.kernel - {pid})
    case Exit(pid) => s.(kernel := s.kernel[pid := s.kernel[pid].(life := Zombie(false))], pending := true)
    case Deliver =>
      if Listening(s) then s.(pending := false, token := true) else s.(pending := false, kernel := AllMissed(s.kernel))
    case Register => s.(handler := Idle)
    case Wake => s.(handler := Woken, token := false)
    case Lock => s.(handler := Inside, owner := Waiting)
    case Collect(pid) => s.(kernel := s.kernel - {pid}, owner := Collected(pid))
    case Interrupted => s
    case Remove => s.(children := s.children - {s.owner.pid}, owner := Waiting)
    case FindNothing => s.(owner := Leaving)
    case Unlock => s.(handler := Idle, owner := Nobody)
    case Stop => s.(handler := Stopped)
  }

  ghost predicate Run(states: seq<State>, actions: seq<Action>) {
    && |states| == |actions| + 1 && states[0] == INIT
    && forall i :: 0 <= i < |actions| ==> Enabled(states[i], actions[i]) && states[i + 1] == Apply(states[i], actions[i])
  }

  // -------------------------------------------------------------- invariant

  /** The box's workers that have been started and not been waited for. */
  function Workers(kernel: map<Pid, Child>): map<Pid, nat> {
    map pid | pid in kernel && kernel[pid].worker.Some? :: kernel[pid].worker.value
  }

  predicate Table(s: State) {
    match s.owner
    case Forked(pid, w) => s.children == Workers(s.kernel) - {pid} && pid in s.kernel && s.kernel[pid].worker == Some(w)
    case Collected(pid) => s.children - {pid} == Workers(s.kernel) && (pid in s.kernel ==> s.kernel[pid].worker.None?)
    case _ => s.children == Workers(s.kernel)
  }

  /** Somebody will still call Wait4. */
  predicate Coming(s: State) { s.pending || s.token || s.handler.Woken? || s.owner.Waiting? || s.owner.Collected? }

  ghost predicate Heard(s: State) { forall pid :: IsZombie(s, pid) && !s.kernel[pid].life.missed ==> Coming(s) }

  predicate InsideOnly(s: State) { s.handler.Inside? <==> s.owner.Waiting? || s.owner.Collected? || s.owner.Leaving? }

  ghost predicate Inv(s: State) { Table(s) && Heard(s) && InsideOnly(s) }

  /** Only starting a worker and collecting one change the box's workers. */
  lemma WorkersStep(s: State, a: Action)
    requires Enabled(s, a)
    ensures
      var w, w' := Workers(s.kernel), Workers(Apply(s, a).kernel);
      match a
      case Fork(pid) => pid !in w && w' == w[pid := s.started]
      case Collect(pid) => w' == w - {pid}
      case _ => w' == w
  {
    var k := s.kernel;
    hide Workers;
    match a
    case Fork(pid) => WorkersPut(k, pid, Child(Some(s.started), Running));
    case Foreign(pid) => WorkersPut(k, pid, Child(None, Running));
    case Exit(pid) => WorkersPut(k, pid, k[pid].(life := Zombie(false)));
    case ForeignWaited(pid) => WorkersDrop(k, pid);
    case Collect(pid) => WorkersDrop(k, pid);
    case Deliver => WorkersMissed(k);
    case _ =>
  }

  lemma WorkersPut(kernel: map<Pid, Child>, pid: Pid, c: Child)
    ensures pid !in kernel ==> pid !in Workers(kernel)
    ensures pid !in kernel && c.worker.Some? ==> Workers(kernel[pid := c]) == Workers(kernel)[pid := c.worker.value]
    ensures (if pid in kernel then c.worker == kernel[pid].worker else c.worker.None?) ==>
      Workers(kernel[pid := c]) == Workers(kernel)
  {
  }

  lemma WorkersDrop(kernel: map<Pid, Child>, pid: Pid)
    ensures Workers(kernel - {pid}) == Workers(kernel) - {pid}
    ensures pid in kernel && kernel[pid].worker.None? ==> Workers(kernel - {pid}) == Workers(kernel)
  {
  }

  lemma WorkersMissed(kernel: map<Pid, Child>)
    ensures Workers(AllMissed(kernel)) == Workers(kernel)
  {
  }

  lemma TableStep(s: State, a: Action)
    requires Inv(s) && Enabled(s, a)
    ensures Table(Apply(s, a))
  {
    WorkersStep(s, a);
    hide Workers, AllMissed, Heard, InsideOnly, IsZombie;
    var w := Workers(s.kernel);
    match a
    case Fork(pid) => assert w[pid := s.started] - {pid} == w;
    case Insert => ForkedWorker(s.kernel, s.owner.pid); assert (w - {s.owner.pid})[s.owner.pid := s.owner.worker] == w;
    case _ =>
  }

  lemma ForkedWorker(kernel: map<Pid, Child>, pid: Pid)
    requires pid in kernel && kernel[pid].worker.Some?
    ensures pid in Workers(kernel) && Workers(kernel)[pid] == kernel[pid].worker.value
  {
  }

  lemma HeardStep(s: State, a: Action)
    requires Inv(s) && Enabled(s, a)
    ensures Heard(Apply(s, a)) && InsideOnly(Apply(s, a))
  {
    hide Table;
    var s' := Apply(s, a);
    forall pid | IsZombie(s', pid) && !s'.kernel[pid].life.missed
      ensures Coming(s')
    {
      assert a.Exit? || (IsZombie(s, pid) && !s.kernel[pid].life.missed);
    }
  }

  lemma {:induction false} Reached(states: seq<State>, actions: seq<Action>, k: nat)
    requires Run(states, actions) && k < |states|
    ensures Inv(states[k])
    decreases k
  {
    if k == 0 {
    } else {
      Reached(states, actions, k - 1);
      TableStep(states[k - 1], actions[k - 1]);
      HeardStep(states[k - 1], actions[k - 1]);
      hide Table, Heard, InsideOnly, Enabled, Apply;
    }
  }

  // --------------------------------------------------------------- theorems

  /**
   Whenever the mutex is free the table holds exactly the workers that have been
   started and not yet reaped, running or dead; and a new entry never replaces
   another one.
   */
  lemma TableIsExact(states: seq<State>, actions: seq<Action>, k: nat)
    requires Run(states, actions) && k < |states|
    ensures states[k].owner.Nobody? ==> states[k].children == Workers(states[k].kernel)
    ensures k < |actions| && actions[k].Insert? ==>
      states[k].owner.Forked? && states[k].owner.pid !in states[k].children
  {
    Reached(states, actions, k);
  }

  /**
   A signal falls on deaf ears: it comes in while nobody listens, and there is a
   dead child it might have been for.
   */
  ghost predicate Deaf(s: State, a: Action) { a.Deliver? && !Listening(s) && exists pid :: IsZombie(s, pid) }

  ghost predicate NoneMissed(s: State) { forall pid :: IsZombie(s, pid) ==> !s.kernel[pid].life.missed }

  lemma MissedStep(s: State, a: Action)
    requires Enabled(s, a) && NoneMissed(s)
    ensures NoneMissed(Apply(s, a)) <==> !Deaf(s, a)
  {
    var s' := Apply(s, a);
    if Deaf(s, a) {
      var pid :| IsZombie(s, pid);
      assert IsZombie(s', pid) && s'.kernel[pid].life.missed;
    } else {
      forall pid | IsZombie(s', pid)
        ensures !s'.kernel[pid].life.missed
      {
        assert IsZombie(s, pid) || a == Exit(pid);
      }
    }
  }

  lemma {:induction false} NothingMissed(states: seq<State>, actions: seq<Action>, k: nat)
    requires Run(states, actions) && k < |states|
    requires forall i :: 0 <= i < k ==> !Deaf(states[i], actions[i])
    ensures NoneMissed(states[k])
    decreases k
  {
    if k == 0 {
    } else {
      hide Enabled, Apply, NoneMissed, Deaf;
      NothingMissed(states, actions, k - 1);
      MissedStep(states[k - 1], actions[k - 1]);
    }
  }

  /** The handler has not stopped, and as long as it has not registered it does nothing. */
  predicate Early(s: State) {
    !s.handler.Stopped? && (s.handler.Unregistered? ==> !s.token && !s.owner.Waiting? && !s.owner.Collected? && !s.owner.Leaving?)
  }

  lemma {:induction false} EarlyAlways(states: seq<State>, actions: seq<Action>, k: nat)
    requires Run(states, actions) && k < |states|
    requires forall i :: 0 <= i < k ==> !actions[i].Stop?
    ensures Early(states[k])
    decreases k
  {
    if k == 0 {
    } else {
      EarlyAlways(states, actions, k - 1);
      EarlyStep(states[k - 1], actions[k - 1]);
    }
  }

  lemma EarlyStep(s: State, a: Action)
    requires Enabled(s, a) && Early(s) && !a.Stop?
    ensures Early(Apply(s, a))
  {
  }

  /** Somebody is on the way to every dead child. */
  ghost predicate Attended(s: State) { forall pid :: IsZombie(s, pid) ==> Coming(s) }

  lemma DeafStep(s: State, a: Action)
    requires Enabled(s, a) && Early(s) && Deaf(s, a)
    ensures !Attended(Apply(s, a))
  {
    var pid :| IsZombie(s, pid);
    assert IsZombie(Apply(s, a), pid);
  }

  /**
   No wakeup is lost before shutdown, although signals merge: in every state of a
   run a signal, a token or the handler is on its way to every dead child, if and
   only if no signal falls on deaf ears.
   */
  lemma NoLostWakeup(states: seq<State>, actions: seq<Action>)
    requires Run(states, actions)
    requires forall i :: 0 <= i < |actions| ==> !actions[i].Stop?
    ensures (forall k :: 0 <= k < |states| ==> Attended(states[k])) <==> (forall i :: 0 <= i < |actions| ==> !Deaf(states[i], actions[i]))
  {
    if i :| 0 <= i < |actions| && Deaf(states[i], actions[i]) {
      EarlyAlways(states, actions, i);
      DeafStep(states[i], actions[i]);
      assert !Attended(states[i + 1]);
    } else {
      forall k | 0 <= k < |states|
        ensures Attended(states[k])
      {
        NothingMissed(states, actions, k);
        Reached(states, actions, k);
      }
    }
  }

  /** That is so in particular when no child exits before the handler listens. */
  lemma NeverDeaf(states: seq<State>, actions: seq<Action>, i: nat)
    requires Run(states, actions) && i < |actions|
    requires forall j :: 0 <= j < |actions| ==> !actions[j].Stop? && (actions[j].Exit? ==> Listening(states[j]))
    ensures !Deaf(states[i], actions[i])
  {
    LateZombies(states, actions, i);
  }

  lemma {:induction false} LateZombies(states: seq<State>, actions: seq<Action>, k: nat)
    requires Run(states, actions) && k < |states|
    requires forall j :: 0 <= j < |actions| ==> !actions[j].Stop? && (actions[j].Exit? ==> Listening(states[j]))
    ensures (exists pid :: IsZombie(states[k], pid)) ==> Listening(states[k])
    decreases k
  {
    if k == 0 {
    } else {
      LateZombies(states, actions, k - 1);
      LateStep(states[k - 1], actions[k - 1]);
    }
  }

  lemma LateStep(s: State, a: Action)
    requires Enabled(s, a) && !a.Stop? && (a.Exit? ==> Listening(s))
    requires (exists pid :: IsZombie(s, pid)) ==> Listening(s)
    ensures (exists pid :: IsZombie(Apply(s, a), pid)) ==> Listening(Apply(s, a))
  {
    if pid :| IsZombie(Apply(s, a), pid) {
      assert IsZombie(s, pid) || a == Exit(pid);
    }
  }

  /** When everything is at rest and no signal fell on deaf ears, the table holds the running workers and no others. */
  lemma AtRest(states: seq<State>, actions: seq<Action>, k: nat)
    requires Run(states, actions) && k < |states|
    requires forall i :: 0 <= i < k ==> !Deaf(states[i], actions[i])
    requires states[k].handler.Idle? && states[k].owner.Nobody? && !states[k].pending && !states[k].token
    ensures forall pid :: pid in states[k].children ==> pid in states[k].kernel && states[k].kernel[pid].life.Running?
    ensures forall pid :: pid in states[k].kernel && states[k].kernel[pid].worker.Some? ==> pid in states[k].children
  {
    NothingMissed(states, actions, k);
    Reached(states, actions, k);
    var s := states[k];
    forall pid | pid in s.children
      ensures pid in s.kernel && s.kernel[pid].life.Running?
    {
      assert pid in Workers(s.kernel);
      assert !IsZombie(s, pid);
    }
  }

  lemma Extend(states: seq<State>, actions: seq<Action>, a: Action) returns (states': seq<State>, actions': seq<Action>)
    requires Run(states, actions) && Enabled(states[|actions|], a)
    ensures Run(states', actions') && states'[|actions'|] == Apply(states[|actions|], a)
  {
    hide Enabled, Apply;
    states', actions' := states + [Apply(states[|actions|], a)], actions + [a];
  }

  /** A box hands out workers before its handler listens: one that dies at once stays a zombie with nobody coming. */
  lemma MissedAtStart(pid: Pid) returns (states: seq<State>, actions: seq<Action>)
    ensures Run(states, actions)
    ensures
      var s := states[|actions|];
      s.handler.Idle? && s.owner.Nobody? && !s.pending && !s.token && pid in s.children && IsZombie(s, pid) && !Coming(s)
  {
    states, actions := [INIT], [];
    assert Run(states, actions);
    hide Run;
    states, actions := Extend(states, actions, EnterSpawn);
    states, actions := Extend(states, actions, Fork(pid));
    states, actions := Extend(states, actions, Insert);
    states, actions := Extend(states, actions, Exit(pid));
    states, actions := Extend(states, actions, Deliver);
    states, actions := Extend(states, actions, Register);
  }

  // --------------------------------------------------------------- wait loop

  /** What one call of Wait4 answers. */
  datatype Answer = Got(pid: Pid) | Eintr | Echild | NothingYet | Other

  predicate Stops(a: Answer) { a.Echild? || a.NothingYet? || a.Other? }

  /** The pids collected up to the first answer that ends the loop. */
  function Round(answers: seq<Answer>): set<Pid> {
    if |answers| == 0 || Stops(answers[0]) then {}
    else (if answers[0].Got? then {answers[0].pid} else {}) + Round(answers[1..])
  }

  class Box {
    var children: map<Pid, nat>

    constructor ()
      ensures children == map[]
    {
      children := map[];
    }

    /** One round of waiting, with the answers it gets; it ends within them. */
    method Wait(answers: seq<Answer>) returns (reaped: seq<Pid>)
      requires exists i :: 0 <= i < |answers| && Stops(answers[i])
      modifies this
      ensures children == old(children) - Round(answers)
      ensures forall pid :: pid in reaped <==> pid in old(children) && pid in Round(answers)
      ensures forall i, j :: 0 <= i < j < |reaped| ==> reaped[i] != reaped[j]
    {
      reaped := [];
      var i := 0;
      ghost var seen := {};
      while true
        invariant i <= |answers| && Round(answers) == seen + Round(answers[i..])
        invariant exists j :: i <= j < |answers| && Stops(answers[j])
        invariant children == old(children) - seen
        invariant forall pid :: pid in reaped <==> pid in old(children) && pid in seen
        invariant forall i, j :: 0 <= i < j < |reaped| ==> reaped[i] != reaped[j]
        decreases |answers| - i
      {
        var a := answers[i];
        assert answers[i..][0] == a && answers[i..][1..] == answers[i + 1..];
        if Stops(a) { return; }
        if a.Got? {
          if a.pid in children {
            children := children - {a.pid};
            reaped := reaped + [a.pid];
          }
          seen := seen + {a.pid};
        }
        i := i + 1;
      }
    }
  }
}
