/**
 The agent's supervisor: it is told which tasks should run and starts and stops them accordingly
 (services/agent/supervisor_tasks.go, services/agent/supervisor_reconciler.go, services/agent/task.go).

 Every task ever started has a handle, numbered in the order of starting. A handle counts how often
 it was stopped. Map iteration visits the keys in any order.
 */
module TaskSupervisor {
  datatype Task = Task(id: string, generation: int, params: string)

  datatype Handle = Handle(task: Task, stops: nat)

  datatype State = State(desired: map<string, Task>, running: map<string, nat>, handles: seq<Handle>)

  const IDLE := State(map[], map[], [])

  // ------------------------------------------------------------ what is asked

  /** A later task of the same id replaces an earlier one. */
  function Desired(tasks: seq<Task>): map<string, Task> {
    if tasks == [] then map[]
    else
      var last := tasks[|tasks| - 1];
      Desired(tasks[..|tasks| - 1])[last.id := last]
  }

  ghost predicate IsLast(tasks: seq<Task>, i: nat)
    requires i < |tasks|
  {
    forall j :: i < j < |tasks| ==> tasks[j].id != tasks[i].id
  }

  ghost predicate LastWins(tasks: seq<Task>, id: string)
    requires id in Desired(tasks)
  {
    exists i: nat :: i < |tasks| && IsLast(tasks, i) && tasks[i].id == id && Desired(tasks)[id] == tasks[i]
  }

  lemma LastIsLast(tasks: seq<Task>)
    requires tasks != []
    ensures IsLast(tasks, |tasks| - 1)
  {
  }

  lemma StillLast(tasks: seq<Task>, i: nat)
    requires tasks != [] && i < |tasks| - 1 && IsLast(tasks[..|tasks| - 1], i) && tasks[i].id != tasks[|tasks| - 1].id
    ensures IsLast(tasks, i) && tasks[i] == tasks[..|tasks| - 1][i]
  {
    forall j | i < j < |tasks| ensures tasks[j].id != tasks[i].id {
      if j < |tasks| - 1 {
        assert tasks[..|tasks| - 1][j] == tasks[j];
      }
    }
  }

  lemma LastWinsStep(tasks: seq<Task>, id: string)
    requires tasks != [] && id in Desired(tasks)
    requires id in Desired(tasks[..|tasks| - 1]) ==> LastWins(tasks[..|tasks| - 1], id)
    ensures LastWins(tasks, id)
  {
    hide IsLast;
    var n := |tasks| - 1;
    if id == tasks[n].id {
      LastIsLast(tasks);
    } else {
      var before := tasks[..n];
      var i: nat :| i < |before| && IsLast(before, i) && before[i].id == id && Desired(before)[id] == before[i];
      StillLast(tasks, i);
    }
  }

  lemma {:induction false} DesiredIsLast(tasks: seq<Task>)
    ensures forall i :: 0 <= i < |tasks| ==> tasks[i].id in Desired(tasks)
    ensures forall id :: id in Desired(tasks) ==> LastWins(tasks, id)
  {
    if tasks != [] {
      DesiredIsLast(tasks[..|tasks| - 1]);
      forall id | id in Desired(tasks) ensures LastWins(tasks, id) {
        LastWinsStep(tasks, id);
      }
    }
  }

  ghost predicate ById(desired: map<string, Task>) {
    forall id :: id in desired ==> desired[id].id == id
  }

  lemma {:induction false} DesiredById(tasks: seq<Task>)
    ensures ById(Desired(tasks))
  {
    if tasks != [] {
      DesiredById(tasks[..|tasks| - 1]);
    }
  }

  // --------------------------------------------------------------- bookkeeping

  predicate IsRunning(s: State, h: nat)
    requires h < |s.handles|
  {
    var id := s.handles[h].task.id;
    id in s.running && s.running[id] == h
  }

  /** Every handle is either running under its task's id and was never stopped, or was stopped once. */
  ghost predicate Accounted(s: State) {
    && ById(s.desired)
    && (forall id :: id in s.running ==> s.running[id] < |s.handles| && s.handles[s.running[id]].task.id == id)
    && (forall h :: 0 <= h < |s.handles| ==> s.handles[h].stops == if IsRunning(s, h) then 0 else 1)
  }

  /** What runs is what is desired, in the desired generation. */
  ghost predicate Converged(s: State) {
    && s.running.Keys == s.desired.Keys
    && forall id :: id in s.running ==>
         && s.running[id] < |s.handles|
         && s.handles[s.running[id]].task.id == id
         && s.handles[s.running[id]].task.generation == s.desired[id].generation
  }

  /** Running, and not wanted any more, or not in this generation. */
  predicate Outdated(s: State, h: nat)
    requires h < |s.handles|
  {
    && IsRunning(s, h)
    && var task := s.handles[h].task;
       task.id !in s.desired || s.desired[task.id].generation != task.generation
  }

  // ----------------------------------------------------------- reconciliation

  function Stopped(handles: seq<Handle>, h: nat): (r: seq<Handle>)
    requires h < |handles|
    ensures |r| == |handles|
  {
    handles[h := handles[h].(stops := handles[h].stops + 1)]
  }

  /** One turn of the loop over the desired tasks. */
  function Ensured(s: State, id: string): State
    requires id in s.desired && (id in s.running ==> s.running[id] < |s.handles|)
  {
    var started := Handle(s.desired[id], 0);
    if id !in s.running then
      State(s.desired, s.running[id := |s.handles|], s.handles + [started])
    else if s.handles[s.running[id]].task.generation == s.desired[id].generation then s
    else State(s.desired, s.running[id := |s.handles|], Stopped(s.handles, s.running[id]) + [started])
  }

  ghost predicate Replaced(s: State, now: State, id: string)
    requires id in now.running && now.desired == s.desired && id in s.desired
  {
    && now.running[id] < |now.handles|
    && now.handles[now.running[id]].task.id == id
    && now.handles[now.running[id]].task.generation == s.desired[id].generation
    && if id in s.running && s.running[id] < |s.handles| && !Outdated(s, s.running[id])
       then now.running[id] == s.running[id] else now.running[id] >= |s.handles|
  }

  ghost predicate OldHandle(s: State, now: State, todo: set<string>, h: nat)
    requires h < |s.handles| <= |now.handles|
  {
    && now.handles[h].task == s.handles[h].task
    && now.handles[h].stops ==
         s.handles[h].stops + if Outdated(s, h) && s.handles[h].task.id !in todo then 1 else 0
  }

  ghost predicate NewHandle(now: State, todo: set<string>, h: nat)
    requires h < |now.handles|
  {
    var handle := now.handles[h];
    && handle.stops == 0
    && handle.task.id in now.desired && handle.task.id !in todo
    && handle.task == now.desired[handle.task.id]
    && IsRunning(now, h)
  }

  /** Where a reconciliation that began at `s` has got to, with the ids in `todo` still ahead of it: the
      tasks nobody wants are gone, those outdated have been replaced, and all others are as they were. */
  ghost predicate Progress(s: State, now: State, todo: set<string>) {
    && now.desired == s.desired
    && todo <= s.desired.Keys
    && (forall id :: id in now.running <==> id in s.desired && (id !in todo || id in s.running))
    && (forall id :: id in now.running && id in todo ==> now.running[id] == s.running[id])
    && (forall id :: id in now.running && id !in todo ==> Replaced(s, now, id))
    && |s.handles| <= |now.handles|
    && (forall h :: 0 <= h < |s.handles| ==> OldHandle(s, now, todo, h))
    && (forall h :: |s.handles| <= h < |now.handles| ==> NewHandle(now, todo, h))
  }

  /** A whole reconciliation. */
  ghost predicate Reconciled(s: State, s': State) {
    Progress(s, s', {})
  }

  lemma OldHandleSettled(s: State, s': State, h: nat)
    requires Accounted(s) && Reconciled(s, s') && h < |s.handles|
    ensures IsRunning(s', h) <==> IsRunning(s, h) && !Outdated(s, h)
  {
    assert OldHandle(s, s', {}, h);
    var id := s.handles[h].task.id;
    if id in s'.running {
      assert Replaced(s, s', id);
    }
  }

  lemma ReconciledConverges(s: State, s': State)
    requires Accounted(s) && Reconciled(s, s')
    ensures Converged(s') && Accounted(s')
  {
    forall h | 0 <= h < |s'.handles| ensures s'.handles[h].stops == if IsRunning(s', h) then 0 else 1 {
      if h < |s.handles| {
        assert OldHandle(s, s', {}, h);
        OldHandleSettled(s, s', h);
      } else {
        assert NewHandle(s', {}, h);
      }
    }
  }

  /** A task whose id and generation stay as they were keeps its handle, which is not stopped. */
  lemma UnchangedIsUntouched(s: State, s': State, id: string)
    requires Accounted(s) && Reconciled(s, s')
    requires id in s.running && id in s.desired
    requires s.handles[s.running[id]].task.generation == s.desired[id].generation
    ensures id in s'.running && s'.running[id] == s.running[id]
    ensures s.running[id] < |s'.handles| && s'.handles[s.running[id]] == s.handles[s.running[id]]
  {
    assert OldHandle(s, s', {}, s.running[id]);
    assert Replaced(s, s', id);
  }

  // One turn keeps the progress.

  lemma EnsuredOld(s: State, now: State, todo: set<string>, id: string, h: nat)
    requires Accounted(s) && Progress(s, now, todo) && id in todo && h < |s.handles|
    ensures OldHandle(s, Ensured(now, id), todo - {id}, h)
  {
    assert OldHandle(s, now, todo, h);
    if id in s.running {
      assert OldHandle(s, now, todo, s.running[id]);
    }
  }

  lemma EnsuredNew(s: State, now: State, todo: set<string>, id: string, h: nat)
    requires Accounted(s) && Progress(s, now, todo) && id in todo
    requires |s.handles| <= h < |Ensured(now, id).handles|
    ensures NewHandle(Ensured(now, id), todo - {id}, h)
  {
    if h < |now.handles| {
      assert NewHandle(now, todo, h);
    }
  }

  lemma EnsuredReplaces(s: State, now: State, todo: set<string>, id: string, other: string)
    requires Accounted(s) && Progress(s, now, todo) && id in todo
    requires other in Ensured(now, id).running && other !in todo - {id}
    ensures Replaced(s, Ensured(now, id), other)
  {
    if other == id {
      if id in s.running {
        assert OldHandle(s, now, todo, s.running[id]);
      }
    } else {
      assert Replaced(s, now, other);
    }
  }

  lemma EnsuredProgresses(s: State, now: State, todo: set<string>, id: string)
    requires Accounted(s) && Progress(s, now, todo) && id in todo
    requires id in now.desired && (id in now.running ==> now.running[id] < |now.handles|)
    ensures Progress(s, Ensured(now, id), todo - {id})
  {
    var next := Ensured(now, id);
    forall h | 0 <= h < |s.handles| ensures OldHandle(s, next, todo - {id}, h) {
      EnsuredOld(s, now, todo, id, h);
    }
    forall h | |s.handles| <= h < |next.handles| ensures NewHandle(next, todo - {id}, h) {
      EnsuredNew(s, now, todo, id, h);
    }
    forall other | other in next.running && other !in todo - {id} ensures Replaced(s, next, other) {
      EnsuredReplaces(s, now, todo, id, other);
    }
  }

  lemma HandleExists(s: State, now: State, todo: set<string>, id: string)
    requires Accounted(s) && Progress(s, now, todo) && id in todo
    ensures id in now.desired && (id in now.running ==> now.running[id] < |now.handles|)
  {
  }

  // Removing what nobody wants is where it begins.

  ghost predicate IsPruned(s: State, now: State) {
    && now.desired == s.desired
    && now.running == (map id | id in s.running && id in s.desired :: s.running[id])
    && |now.handles| == |s.handles|
    && forall h :: 0 <= h < |s.handles| ==>
         now.handles[h] == if IsRunning(s, h) && s.handles[h].task.id !in s.desired
                           then s.handles[h].(stops := s.handles[h].stops + 1) else s.handles[h]
  }

  lemma PrunedProgresses(s: State, now: State)
    requires Accounted(s) && IsPruned(s, now)
    ensures Progress(s, now, s.desired.Keys)
  {
    forall h | 0 <= h < |s.handles| ensures OldHandle(s, now, s.desired.Keys, h) {
    }
  }

  predicate Unwanted(s: State, h: nat)
    requires h < |s.handles|
  {
    IsRunning(s, h) && s.handles[h].task.id !in s.desired
  }

  function StoppedIn(handle: Handle, stop: bool): Handle {
    if stop then handle.(stops := handle.stops + 1) else handle
  }

  ghost predicate AreUnwanted(s: State, toStop: seq<nat>) {
    && (forall i :: 0 <= i < |toStop| ==> toStop[i] < |s.handles| && Unwanted(s, toStop[i]))
    && (forall h :: 0 <= h < |s.handles| && Unwanted(s, h) ==> h in toStop)
    && (forall i, j :: 0 <= i < j < |toStop| ==> toStop[i] != toStop[j])
  }

  lemma StopOneMore(was: seq<Handle>, handles: seq<Handle>, toStop: seq<nat>, i: nat)
    requires |handles| == |was| && i < |toStop| && toStop[i] < |was|
    requires forall j, k :: 0 <= j < k < |toStop| ==> toStop[j] != toStop[k]
    requires forall h :: 0 <= h < |handles| ==> handles[h] == StoppedIn(was[h], h in toStop[..i])
    ensures forall h :: 0 <= h < |handles| ==>
      Stopped(handles, toStop[i])[h] == StoppedIn(was[h], h in toStop[..i + 1])
  {
    assert toStop[..i + 1] == toStop[..i] + [toStop[i]];
    assert toStop[i] !in toStop[..i];
  }

  lemma OnlyWantedLeft(s: State, now: State, toStop: seq<nat>)
    requires Accounted(s) && AreUnwanted(s, toStop)
    requires now.desired == s.desired && |now.handles| == |s.handles|
    requires forall h :: 0 <= h < |s.handles| ==> now.handles[h] == StoppedIn(s.handles[h], h in toStop)
    requires forall id :: id in now.running <==>
      id in s.running && forall k :: 0 <= k < |toStop| ==> now.handles[toStop[k]].task.id != id
    requires forall id :: id in now.running ==> now.running[id] == s.running[id]
    ensures IsPruned(s, now)
  {
    forall id | id in s.running ensures id in now.running <==> id in s.desired {
      var h := s.running[id];
      if id !in s.desired {
        assert Unwanted(s, h);
        var k :| 0 <= k < |toStop| && toStop[k] == h;
        assert now.handles[toStop[k]].task.id == id;
      }
    }
  }

  class Supervisor {
    var desired: map<string, Task>
    var running: map<string, nat>
    var handles: seq<Handle>

    function View(): State
      reads this
    {
      State(desired, running, handles)
    }

    constructor ()
      ensures View() == IDLE
    {
      desired, running, handles := map[], map[], [];
    }

    method StartTask(task: Task) returns (h: nat)
      modifies this`handles
      ensures h == |old(handles)| && handles == old(handles) + [Handle(task, 0)]
    {
      h := |handles|;
      handles := handles + [Handle(task, 0)];
    }

    method Stop(h: nat)
      requires h < |handles|
      modifies this`handles
      ensures handles == Stopped(old(handles), h)
    {
      handles := handles[h := handles[h].(stops := handles[h].stops + 1)];
    }

    /** The running tasks nobody wants, in some order. */
    method FindUndesired() returns (toStop: seq<nat>)
      requires Accounted(View())
      ensures AreUnwanted(View(), toStop)
    {
      toStop := [];
      var ids := running.Keys;
      while ids != {}
        invariant ids <= running.Keys
        invariant forall i :: 0 <= i < |toStop| ==>
          toStop[i] < |handles| && Unwanted(View(), toStop[i]) && handles[toStop[i]].task.id !in ids
        invariant forall h :: 0 <= h < |handles| && Unwanted(View(), h) && handles[h].task.id !in ids ==> h in toStop
        invariant forall i, j :: 0 <= i < j < |toStop| ==> toStop[i] != toStop[j]
      {
        var id :| id in ids;
        ids := ids - {id};
        if id !in desired {
          toStop := toStop + [running[id]];
        }
      }
    }

    method StopAll(toStop: seq<nat>)
      requires forall i :: 0 <= i < |toStop| ==> toStop[i] < |handles|
      requires forall i, j :: 0 <= i < j < |toStop| ==> toStop[i] != toStop[j]
      modifies this`handles
      ensures |handles| == |old(handles)|
      ensures forall h :: 0 <= h < |handles| ==> handles[h] == StoppedIn(old(handles)[h], h in toStop)
    {
      for i := 0 to |toStop|
        invariant |handles| == |old(handles)|
        invariant forall h :: 0 <= h < |handles| ==> handles[h] == StoppedIn(old(handles)[h], h in toStop[..i])
      {
        hide StoppedIn, Stopped;
        StopOneMore(old(handles), handles, toStop, i);
        Stop(toStop[i]);
      }
      assert toStop[..|toStop|] == toStop;
    }

    /** Forgets them, by the id of each handle's own task. */
    method Forget(toStop: seq<nat>)
      requires forall i :: 0 <= i < |toStop| ==> toStop[i] < |handles|
      modifies this`running
      ensures forall id :: id in running <==>
        id in old(running) && forall k :: 0 <= k < |toStop| ==> handles[toStop[k]].task.id != id
      ensures forall id :: id in running ==> running[id] == old(running)[id]
    {
      for i := 0 to |toStop|
        invariant forall id :: id in running <==>
          id in old(running) && forall k :: 0 <= k < i ==> handles[toStop[k]].task.id != id
        invariant forall id :: id in running ==> running[id] == old(running)[id]
      {
        running := running - {handles[toStop[i]].task.id};
      }
    }

    method RemoveUndesired()
      requires Accounted(View())
      modifies this`running, this`handles
      ensures IsPruned(old(View()), View())
    {
      hide Accounted, StoppedIn, Unwanted, IsPruned;
      var toStop := FindUndesired();
      StopAll(toStop);
      Forget(toStop);
      OnlyWantedLeft(old(View()), View(), toStop);
    }

    method EnsureTask(id: string)
      requires id in desired && (id in running ==> running[id] < |handles|)
      modifies this`running, this`handles
      ensures View() == Ensured(old(View()), id)
    {
      if id !in running {
        var h := StartTask(desired[id]);
        running := running[id := h];
        return;
      }
      var h := running[id];
      if handles[h].task.generation == desired[id].generation {
        return;
      }
      Stop(h);
      var h' := StartTask(desired[id]);
      running := running[id := h'];
    }

    /** Under the lock: stop what is not desired, start what is missing, restart what has a new generation. */
    method Reconcile()
      requires Accounted(View())
      modifies this`running, this`handles
      ensures Reconciled(old(View()), View())
      ensures Converged(View()) && Accounted(View())
    {
      hide Accounted, Progress, IsPruned, Ensured, Converged;
      RemoveUndesired();
      PrunedProgresses(old(View()), View());
      var todo := desired.Keys;
      while todo != {}
        invariant Progress(old(View()), View(), todo)
      {
        var id :| id in todo;
        HandleExists(old(View()), View(), todo, id);
        EnsuredProgresses(old(View()), View(), todo, id);
        EnsureTask(id);
        todo := todo - {id};
      }
      ReconciledConverges(old(View()), View());
    }

    method Set(tasks: seq<Task>)
      modifies this`desired
      ensures desired == Desired(tasks)
    {
      var wanted := map[];
      for i := 0 to |tasks|
        invariant wanted == Desired(tasks[..i])
      {
        assert tasks[..i + 1][..i] == tasks[..i];
        wanted := wanted[tasks[i].id := tasks[i]];
      }
      assert tasks[..|tasks|] == tasks;
      desired := wanted;
    }
  }

  // -------------------------------------------------------- concurrent callers

  /** A call of SetDesiredTasks takes the lock twice: to replace what is desired, then to reconcile.
      Calls may come between the two. */
  datatype Step = SetStep(call: nat, tasks: seq<Task>) | ReconcileStep(call: nat)

  ghost predicate Moves(s: State, step: Step, s': State) {
    match step
    case SetStep(_, tasks) => s' == s.(desired := Desired(tasks))
    case ReconcileStep(_) => Reconciled(s, s')
  }

  ghost predicate IsRun(states: seq<State>, steps: seq<Step>) {
    && |states| == |steps| + 1
    && states[0] == IDLE
    && forall i :: 0 <= i < |steps| ==> Moves(states[i], steps[i], states[i + 1])
  }

  /** Every call that has set the tasks has also reconciled since. */
  ghost predicate AllReturned(steps: seq<Step>) {
    forall i :: 0 <= i < |steps| && steps[i].SetStep? ==>
      exists j :: i < j < |steps| && steps[j] == ReconcileStep(steps[i].call)
  }

  function LastSet(steps: seq<Step>): map<string, Task> {
    if steps == [] then map[]
    else if steps[|steps| - 1].SetStep? then Desired(steps[|steps| - 1].tasks)
    else LastSet(steps[..|steps| - 1])
  }

  lemma MoveKeepsAccount(s: State, step: Step, s': State)
    requires Accounted(s) && Moves(s, step, s')
    ensures Accounted(s')
  {
    match step {
      case SetStep(_, tasks) => DesiredById(tasks);
      case ReconcileStep(_) => ReconciledConverges(s, s');
    }
  }

  lemma IdleIsAccounted()
    ensures Accounted(IDLE)
  {
  }

  lemma ReconciledKeepsDesired(s: State, s': State)
    requires Reconciled(s, s')
    ensures s'.desired == s.desired
  {
  }

  lemma {:induction false} RunIsAccounted(states: seq<State>, steps: seq<Step>)
    requires IsRun(states, steps)
    ensures Accounted(states[|steps|]) && states[|steps|].desired == LastSet(steps)
    decreases |steps|
  {
    hide Accounted, Reconciled;
    if steps == [] {
      IdleIsAccounted();
    } else {
      var n := |steps| - 1;
      RunIsAccounted(states[..n + 1], steps[..n]);
      assert Moves(states[n], steps[n], states[n + 1]);
      MoveKeepsAccount(states[n], steps[n], states[n + 1]);
      if steps[n].ReconcileStep? {
        ReconciledKeepsDesired(states[n], states[n + 1]);
      }
    }
  }

  lemma IdleIsConverged()
    ensures Converged(IDLE)
  {
  }

  lemma RunBeforeLast(states: seq<State>, steps: seq<Step>)
    requires IsRun(states, steps) && steps != []
    ensures
      var n := |steps| - 1;
      |states| == n + 2 && IsRun(states[..n + 1], steps[..n]) && Moves(states[n], steps[n], states[n + 1])
  {
    hide Moves;
  }

  /** However the calls interleave: when all of them have returned, what runs is what the last one asked
      for, each task in its generation, and every handle ever started is either running and was never
      stopped or was stopped exactly once. */
  lemma AllCallsConverge(states: seq<State>, steps: seq<Step>)
    requires IsRun(states, steps) && AllReturned(steps)
    ensures var s := states[|steps|]; Accounted(s) && Converged(s) && s.desired == LastSet(steps)
  {
    RunIsAccounted(states, steps);
    if steps == [] {
      hide Accounted, Converged;
      IdleIsConverged();
    } else {
      hide Accounted, Converged, IsRun, Reconciled;
      var n := |steps| - 1;
      assert steps[n].ReconcileStep?;
      RunBeforeLast(states, steps);
      RunIsAccounted(states[..n + 1], steps[..n]);
      ReconciledConverges(states[n], states[n + 1]);
    }
  }
}
