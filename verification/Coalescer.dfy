/** Runs of a function on its own thread, one at a time: triggers during a run collapse into one run
    after it. */
module Coalescer {
  import opened Wrappers

  // The flags under the lock.
  datatype Flags = Flags(running: bool, pending: bool)

  // A trigger starts a worker, or leaves the run to the one there is.
  function Triggered(f: Flags): (Flags, bool) {
    if f.running then (f.(pending := true), false) else (f.(running := true), true)
  }

  // A worker whose run has ended runs again, or stops.
  function Checked(f: Flags): (Flags, bool) {
    if f.pending then (f.(pending := false), true) else (f.(running := false), false)
  }

  class Shared {
    var running: bool
    var pending: bool

    function Value(): Flags
      reads this
    {
      Flags(running, pending)
    }

    constructor ()
      ensures Value() == Flags(false, false)
    {
      running, pending := false, false;
    }

    method Trigger() returns (spawn: bool)
      modifies this
      ensures (Value(), spawn) == Triggered(old(Value()))
    {
      if running {
        pending := true;
        return false;
      }
      running := true;
      return true;
    }

    method Check() returns (again: bool)
      modifies this
      ensures (Value(), again) == Checked(old(Value()))
    {
      if !pending {
        running := false;
        return false;
      }
      pending := false;
      return true;
    }
  }

  // --- The threads -----------------------------------------------------------------------------------------

  // A worker is about to run, running, or about to check for another run.
  datatype Phase = Ready | InRun | AtCheck

  // `task` is the worker the caller waits for; `returned` whether that wait is over. The rest is
  // history: how many triggers and runs there were, and whether a trigger came after the last run began.
  datatype Sys = Sys(flags: Flags, workers: map<nat, Phase>, nextWorker: nat, task: Option<nat>, returned: bool,
                     triggers: nat, runs: nat, owed: bool)

  const INITIAL: Sys := Sys(Flags(false, false), map[], 0, None, false, 0, 0, false)

  datatype Action = Trigger | Begin(worker: nat) | End(worker: nat) | Check(worker: nat) | Wait

  function Act(s: Sys, a: Action): Sys {
    match a
    case Trigger =>
      if s.returned then s
      else
        var (flags, spawn) := Triggered(s.flags);
        var t := s.(flags := flags, triggers := s.triggers + 1, owed := true);
        if spawn then t.(workers := s.workers[s.nextWorker := Ready], nextWorker := s.nextWorker + 1, task := Some(s.nextWorker)) else t
    case Begin(w) =>
      if w in s.workers && s.workers[w] == Ready then s.(workers := s.workers[w := InRun], runs := s.runs + 1, owed := false) else s
    case End(w) => if w in s.workers && s.workers[w] == InRun then s.(workers := s.workers[w := AtCheck]) else s
    case Check(w) =>
      if w in s.workers && s.workers[w] == AtCheck then
        var (flags, again) := Checked(s.flags);
        if again then s.(flags := flags, workers := s.workers[w := Ready]) else s.(flags := flags, workers := s.workers - {w})
      else s
    // The caller triggers no more and waits for the task.
    case Wait => if s.task.None? || s.task.value !in s.workers then s.(returned := true) else s
  }

  function Count(b: bool): nat { if b then 1 else 0 }

  // One worker, the task, exactly while the flag says so; what is owed is pending or next in line; and
  // every run that has begun or is to begin has a trigger of its own.
  ghost predicate Inv(s: Sys) {
    && (s.flags.running ==> s.task.Some? && s.workers.Keys == {s.task.value})
    && (!s.flags.running ==> s.workers == map[] && !s.flags.pending)
    && (forall w | w in s.workers :: w < s.nextWorker)
    && (s.owed ==> s.flags.pending || (s.task.Some? && s.task.value in s.workers && s.workers[s.task.value] == Ready))
    && s.runs + Count(s.flags.pending) + Count(s.task.Some? && s.task.value in s.workers && s.workers[s.task.value] == Ready) <= s.triggers
    && (s.returned ==> s.workers == map[])
  }

  lemma ActKeeps(s: Sys, a: Action)
    requires Inv(s)
    ensures Inv(Act(s, a))
  {
    match a
    case Trigger =>
      assert s.nextWorker !in s.workers;
    case Check(w) =>
      if w in s.workers && s.workers[w] == AtCheck {
        assert w == s.task.value;
        assert (s.workers - {w}).Keys == {};
      }
    case _ =>
  }

  ghost predicate Run(states: seq<Sys>, actions: seq<Action>) {
    && |states| == |actions| + 1 && states[0] == INITIAL
    && forall i | 0 <= i < |actions| :: states[i + 1] == Act(states[i], actions[i])
  }

  lemma {:induction false} RunKeeps(states: seq<Sys>, actions: seq<Action>, i: nat)
    requires Run(states, actions) && i < |states|
    ensures Inv(states[i])
  {
    hide Act;
    if i > 0 {
      RunKeeps(states, actions, i - 1);
      ActKeeps(states[i - 1], actions[i - 1]);
    }
  }

  // Under every interleaving: at most one run is active, and runs never exceed triggers.
  lemma OneRunAtATime(states: seq<Sys>, actions: seq<Action>, i: nat)
    requires Run(states, actions) && i < |states|
    ensures forall v, w | v in states[i].workers && w in states[i].workers :: v == w
    ensures states[i].runs <= states[i].triggers
  {
    hide Act;
    RunKeeps(states, actions, i);
  }

  // From a trigger on, a run has begun since or one is owed.
  lemma {:induction false} OwedUntilRun(states: seq<Sys>, actions: seq<Action>, i: nat, j: nat)
    requires Run(states, actions) && i < j < |states| && actions[i] == Trigger && !states[i].returned
    ensures states[i].runs < states[j].runs || (states[j].owed && states[j].runs == states[i].runs)
    decreases j
  {
    assert states[j] == Act(states[j - 1], actions[j - 1]);
    if i + 1 < j {
      OwedUntilRun(states, actions, i, j - 1);
    }
  }

  // Every trigger is followed by a run that begins after it: whenever no worker is left, one has.
  lemma TriggersAreServed(states: seq<Sys>, actions: seq<Action>, i: nat, j: nat)
    requires Run(states, actions) && i < j < |states| && actions[i] == Trigger && !states[i].returned
    requires states[j].workers == map[]
    ensures states[i].runs < states[j].runs
  {
    hide Act;
    OwedUntilRun(states, actions, i, j);
    RunKeeps(states, actions, j);
  }

  // Waiting returns only after the last run: nothing runs or is owed then, and nothing ever will.
  lemma WaitReturnsLast(states: seq<Sys>, actions: seq<Action>, i: nat, j: nat)
    requires Run(states, actions) && i <= j < |states| && states[i].returned
    ensures states[j].returned && states[j].workers == map[] && !states[j].owed && states[j].runs == states[i].runs
    decreases j
  {
    RunKeeps(states, actions, j);
    if i < j {
      WaitReturnsLast(states, actions, i, j - 1);
      RunKeeps(states, actions, j - 1);
      assert states[j] == Act(states[j - 1], actions[j - 1]);
    }
  }
}
