/** The coordinator that hands out map and then reduce tasks. A task is its number and its
    status; the time it was started shows only in which running tasks have expired. The
    handlers' calls of themselves are taken as the rescans they are meant to be. */
module MrCoordinator {
  import opened Common

  datatype Phase = MapPhase | ReducePhase | DonePhase

  datatype Status = Inited | Running | Completed

  datatype Reply = MapTask(id: nat) | ReduceTask(id: nat) | Wait | Finished

  datatype Kind = MapKind | ReduceKind

  datatype Coord = Coord(nMap: nat, nReduce: nat, phase: Phase, tasks: seq<Status>)

  predicate ValidCoord(c: Coord) {
    |c.tasks| == if c.phase == MapPhase then c.nMap else c.nReduce
  }

  function FreshTasks(n: nat): seq<Status> {
    seq(n, i => Inited)
  }

  function InitCoord(nMap: nat, nReduce: nat): Coord {
    Coord(nMap, nReduce, MapPhase, FreshTasks(nMap))
  }

  function StartReduce(c: Coord): Coord {
    c.(phase := ReducePhase, tasks := FreshTasks(c.nReduce))
  }

  predicate Free(status: Status, expired: bool) {
    status == Inited || (status == Running && expired)
  }

  /** The first task from `i` on that can be handed out. */
  function FirstFree(tasks: seq<Status>, expired: set<nat>, i: nat): (r: nat)
    requires i <= |tasks|
    ensures i <= r <= |tasks|
    decreases |tasks| - i
  {
    if i == |tasks| || Free(tasks[i], i in expired) then i else FirstFree(tasks, expired, i + 1)
  }

  predicate AllCompleted(tasks: seq<Status>) {
    forall i :: 0 <= i < |tasks| ==> tasks[i] == Completed
  }

  function BeatReduce(c: Coord, expired: set<nat>): (Coord, Reply) {
    var i := FirstFree(c.tasks, expired, 0);
    if i < |c.tasks| then (c.(tasks := c.tasks[i := Running]), ReduceTask(i))
    else if AllCompleted(c.tasks) then (c.(phase := DonePhase), Finished)
    else (c, Wait)
  }

  /** A worker's request for a task, when the tasks in `expired` have run for too long. */
  function Beat(c: Coord, expired: set<nat>): (Coord, Reply) {
    match c.phase
    case MapPhase =>
      var i := FirstFree(c.tasks, expired, 0);
      if i < |c.tasks| then (c.(tasks := c.tasks[i := Running]), MapTask(i))
      else if AllCompleted(c.tasks) then BeatReduce(StartReduce(c), expired)
      else (c, Wait)
    case ReducePhase => BeatReduce(c, expired)
    case DonePhase => (c, Finished)
  }

  /** Whether the first `n` tasks, from `i` on, are completed. Looking past the end of the
      tasks stops the coordinator, which is the result `None`. */
  function Scan(tasks: seq<Status>, n: nat, i: nat): Option<bool>
    requires i <= n
    decreases n - i
  {
    if i == n then Some(true)
    else if i >= |tasks| then None
    else if tasks[i] != Completed then Some(false)
    else Scan(tasks, n, i + 1)
  }

  /** A worker's report that it has completed a task. The handler does not look at the phase,
      so a map report may hit the reduce tasks, or stop the coordinator. */
  function Report(c: Coord, kind: Kind, id: int): Option<Coord> {
    var n := if kind == MapKind then c.nMap else c.nReduce;
    if 0 <= id < n && id >= |c.tasks| then None
    else
      var c' := if 0 <= id < n then c.(tasks := c.tasks[id := Completed]) else c;
      match Scan(c'.tasks, n, 0)
      case None => None
      case Some(false) => Some(c')
      case Some(true) => Some(if kind == MapKind then StartReduce(c') else c'.(phase := DonePhase))
  }

  // ---- What the handlers answer and do -------------------------------------------

  /** Task `i` is the first that nobody has, or whose worker has had it for too long. */
  ghost predicate FirstReady(tasks: seq<Status>, expired: set<nat>, i: nat) {
    && i < |tasks| && (tasks[i] == Inited || (tasks[i] == Running && i in expired))
    && forall j: nat :: j < i ==> tasks[j] != Inited && (tasks[j] == Running ==> j !in expired)
  }

  lemma {:induction false} FirstFreeExactly(tasks: seq<Status>, expired: set<nat>, i: nat, r: nat)
    requires i <= |tasks| && forall j: nat :: j < i ==> !Free(tasks[j], j in expired)
    ensures FirstReady(tasks, expired, r) <==> r == FirstFree(tasks, expired, i) < |tasks|
    decreases |tasks| - i
  {
    if i < |tasks| && !Free(tasks[i], i in expired) { FirstFreeExactly(tasks, expired, i + 1, r); }
  }

  /** The coordinator when it looks for a task: past the map phase once all maps are completed. */
  ghost predicate LooksAs(c: Coord, s: Coord) {
    if c.phase == MapPhase && AllCompleted(c.tasks) then
      && s.phase == ReducePhase && s.nMap == c.nMap && s.nReduce == c.nReduce
      && |s.tasks| == c.nReduce && forall i :: 0 <= i < |s.tasks| ==> s.tasks[i] == Inited
    else s == c
  }

  /** A heartbeat gets the first ready task of the phase and marks it as running, or is told to
      wait when the others still run, or to stop exactly when the coordinator is then done. */
  lemma BeatExactly(c: Coord, s: Coord, expired: set<nat>)
    requires LooksAs(c, s)
    ensures var (c', reply) := Beat(c, expired);
      && (forall i :: reply == MapTask(i) <==> s.phase == MapPhase && FirstReady(s.tasks, expired, i))
      && (forall i :: reply == ReduceTask(i) <==> s.phase == ReducePhase && FirstReady(s.tasks, expired, i))
      && (reply == Finished <==> s.phase == DonePhase || (s.phase == ReducePhase && AllCompleted(s.tasks)))
      && (reply == Finished <==> c'.phase == DonePhase)
      && (reply == Wait <==>
          s.phase != DonePhase && !AllCompleted(s.tasks) && forall i :: !FirstReady(s.tasks, expired, i))
      && c' == match reply
         case MapTask(i) => s.(tasks := s.tasks[i := Running])
         case ReduceTask(i) => s.(tasks := s.tasks[i := Running])
         case Wait => s
         case Finished => s.(phase := DonePhase)
  {
    forall i: nat
      ensures FirstReady(s.tasks, expired, i) <==> i == FirstFree(s.tasks, expired, 0) < |s.tasks|
      ensures FirstReady(c.tasks, expired, i) <==> i == FirstFree(c.tasks, expired, 0) < |c.tasks|
    {
      FirstFreeExactly(s.tasks, expired, 0, i);
      FirstFreeExactly(c.tasks, expired, 0, i);
    }
    FirstFreeExactly(c.tasks, expired, 0, FirstFree(c.tasks, expired, 0));
    FirstFreeExactly(s.tasks, expired, 0, FirstFree(s.tasks, expired, 0));
    if c.phase == MapPhase && AllCompleted(c.tasks) { assert s == StartReduce(c); }
  }

  lemma {:induction false} ScanExactly(tasks: seq<Status>, n: nat, i: nat)
    requires i <= n && i <= |tasks| && forall j :: 0 <= j < i ==> tasks[j] == Completed
    ensures Scan(tasks, n, i) ==
      if forall j :: 0 <= j < n && j < |tasks| ==> tasks[j] == Completed
      then (if n <= |tasks| then Some(true) else None) else Some(false)
    decreases n - i
  {
    if i < n && i < |tasks| && tasks[i] == Completed { ScanExactly(tasks, n, i + 1); }
  }

  /** The tasks after task `id` of `n` has been marked. */
  ghost function Marked(tasks: seq<Status>, n: nat, id: int): seq<Status> {
    if 0 <= id < n && id < |tasks| then tasks[id := Completed] else tasks
  }

  /** A report marks its task among whatever tasks there are. It stops the coordinator exactly if
      that task, or after completed ones only some task of its kind, does not exist; it ends the
      phase of its kind exactly if then all tasks of that number are completed. */
  lemma ReportExactly(c: Coord, kind: Kind, id: int)
    ensures var n := if kind == MapKind then c.nMap else c.nReduce;
      var tasks := Marked(c.tasks, n, id);
      var completed := forall j :: 0 <= j < n && j < |tasks| ==> tasks[j] == Completed;
      var r := Report(c, kind, id);
      && (r.None? <==> (|tasks| <= id < n) || (completed && |tasks| < n))
      && (r.Some? && !completed ==> r.value == c.(tasks := tasks))
      && (r.Some? && completed && kind == ReduceKind ==> r.value == c.(tasks := tasks, phase := DonePhase))
      && (r.Some? && completed && kind == MapKind ==>
          && r.value.phase == ReducePhase && r.value.nMap == c.nMap && r.value.nReduce == c.nReduce
          && |r.value.tasks| == c.nReduce
          && forall j :: 0 <= j < |r.value.tasks| ==> r.value.tasks[j] == Inited)
  {
    var n := if kind == MapKind then c.nMap else c.nReduce;
    ScanExactly(Marked(c.tasks, n, id), n, 0);
  }

  // ---- The coordinator object ----------------------------------------------------

  class Coordinator {
    const nMap: nat
    const nReduce: nat
    var phase: Phase
    var tasks: seq<Status>

    ghost function State(): Coord
      reads this
    {
      Coord(nMap, nReduce, phase, tasks)
    }

    constructor (nMap: nat, nReduce: nat)
      ensures State() == InitCoord(nMap, nReduce)
      ensures phase == MapPhase && |tasks| == nMap && forall i :: 0 <= i < nMap ==> tasks[i] == Inited
    {
      this.nMap, this.nReduce := nMap, nReduce;
      phase := MapPhase;
      tasks := FreshTasks(nMap);
    }

    /** The first task that can be handed out, if there is one. */
    method FindFree(expired: set<nat>) returns (i: nat)
      ensures i == FirstFree(tasks, expired, 0)
    {
      i := 0;
      while i < |tasks|
        invariant 0 <= i <= |tasks|
        invariant FirstFree(tasks, expired, i) == FirstFree(tasks, expired, 0)
      {
        if tasks[i] == Inited {
          return;
        }
        if tasks[i] == Running && i in expired {
          return;
        }
        i := i + 1;
      }
    }

    method TasksCompleted() returns (all: bool)
      ensures all == AllCompleted(tasks)
    {
      all := true;
      var i := 0;
      while i < |tasks|
        invariant 0 <= i <= |tasks|
        invariant all <==> forall j :: 0 <= j < i ==> tasks[j] == Completed
      {
        if tasks[i] != Completed {
          return false;
        }
        i := i + 1;
      }
    }

    method HandleHeartBeat(expired: set<nat>) returns (reply: Reply)
      modifies this
      ensures (State(), reply) == Beat(old(State()), expired)
    {
      if phase == MapPhase {
        var i := FindFree(expired);
        if i < |tasks| {
          tasks := tasks[i := Running];
          return MapTask(i);
        }
        var all := TasksCompleted();
        if !all {
          return Wait;
        }
        phase, tasks := ReducePhase, FreshTasks(nReduce);
      }
      if phase == ReducePhase {
        var i := FindFree(expired);
        if i < |tasks| {
          tasks := tasks[i := Running];
          return ReduceTask(i);
        }
        var all := TasksCompleted();
        if all {
          phase := DonePhase;
          return Finished;
        }
        return Wait;
      }
      return Finished;
    }

    method ScanTasks(n: nat) returns (r: Option<bool>)
      ensures r == Scan(tasks, n, 0)
    {
      var i := 0;
      while i < n
        invariant 0 <= i <= n
        invariant Scan(tasks, n, i) == Scan(tasks, n, 0)
      {
        if i >= |tasks| {
          return None;
        }
        if tasks[i] != Completed {
          return Some(false);
        }
        i := i + 1;
      }
      return Some(true);
    }

    /** `running` is false when the handler indexes past the tasks and stops the process. */
    method HandleReport(kind: Kind, id: int) returns (running: bool)
      modifies this
      ensures running <==> Report(old(State()), kind, id).Some?
      ensures running ==> Report(old(State()), kind, id) == Some(State())
    {
      var n := if kind == MapKind then nMap else nReduce;
      if 0 <= id < n {
        if id >= |tasks| {
          return false;
        }
        tasks := tasks[id := Completed];
      }
      var all := ScanTasks(n);
      if all == None {
        return false;
      }
      if all.value {
        if kind == MapKind {
          phase, tasks := ReducePhase, FreshTasks(nReduce);
        } else {
          phase := DonePhase;
        }
      }
      return true;
    }
  }
}
