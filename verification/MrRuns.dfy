/** Runs of the coordinator with any number of workers that may be slow, die, be given a task
    that another worker still has, or report a task again. */
module MrRuns {
  import opened Common
  import opened MrGrouping
  import opened MrShuffle
  import opened MrCoordinator

  /** What a worker is doing; a map task writes its files one by one. */
  datatype Worker =
    | Idle
    | Mapping(id: nat, next: nat)
    | Reducing(id: nat)
    | Reporting(kind: Kind, id: nat)
    | Stopped

  /** `coord` is `None` once the coordinator has stopped. `reported` is history: the map tasks
      whose reports the coordinator has handled. */
  datatype Sys = Sys(coord: Option<Coord>, workers: seq<Worker>, files: Files,
                     outs: map<nat, seq<Line>>, reported: set<nat>)

  datatype Step =
    | Ask(w: nat, expired: set<nat>, lost: bool)
    | WriteFile(w: nat)
    | MapDone(w: nat)
    | ReduceDone(w: nat, lines: seq<Line>)
    | SendReport(w: nat, again: bool)
    | Die(w: nat)

  ghost predicate IsInit(job: Job, s: Sys) {
    && s.coord == Some(InitCoord(|job.inputs|, job.nReduce))
    && (forall w :: 0 <= w < |s.workers| ==> s.workers[w] == Idle)
    && s.files == map[] && s.outs == map[] && s.reported == {}
  }

  /** With `late` false, no map report is handled once the map phase is over. */
  ghost predicate Enabled(late: bool, job: Job, s: Sys, step: Step) {
    && step.w < |s.workers|
    && match step
       case Ask(w, _, _) => s.coord.Some? && s.workers[w].Idle?
       case WriteFile(w) => s.workers[w].Mapping? && s.workers[w].next < job.nReduce
                            && s.workers[w].id < |job.inputs|
       case MapDone(w) => s.workers[w].Mapping? && s.workers[w].next == job.nReduce
       case ReduceDone(w, lines) => s.workers[w].Reducing?
         && IsOutput(lines, Collected(s.files, s.workers[w].id, |job.inputs|), job.reduce)
       case SendReport(w, _) => s.coord.Some? && s.workers[w].Reporting?
         && (s.workers[w].kind == MapKind && !late ==> s.coord.value.phase == MapPhase)
       case Die(w) => true
  }

  function Took(reply: Reply): Worker {
    match reply
    case MapTask(id) => Mapping(id, 0)
    case ReduceTask(id) => Reducing(id)
    case Wait => Idle
    case Finished => Stopped
  }

  ghost function Apply(late: bool, job: Job, s: Sys, step: Step): Sys
    requires job.nReduce > 0 && Enabled(late, job, s, step)
  {
    match step
    case Ask(w, expired, lost) =>
      var (c, reply) := Beat(s.coord.value, expired);
      s.(coord := Some(c), workers := s.workers[w := if lost then Idle else Took(reply)])
    case WriteFile(w) =>
      var Mapping(id, r) := s.workers[w];
      s.(files := s.files[FileName(id, r) := Bucket(Mapped(job, id), job.hash, job.nReduce, r)],
         workers := s.workers[w := Mapping(id, r + 1)])
    case MapDone(w) => s.(workers := s.workers[w := Reporting(MapKind, s.workers[w].id)])
    case ReduceDone(w, lines) =>
      s.(outs := s.outs[s.workers[w].id := lines],
         workers := s.workers[w := Reporting(ReduceKind, s.workers[w].id)])
    case SendReport(w, again) =>
      var Reporting(kind, id) := s.workers[w];
      s.(coord := Report(s.coord.value, kind, id),
         reported := if kind == MapKind then s.reported + {id} else s.reported,
         workers := if again then s.workers else s.workers[w := Idle])
    case Die(w) => s.(workers := s.workers[w := Idle])
  }

  ghost predicate Next(late: bool, job: Job, s: Sys, s': Sys)
    requires job.nReduce > 0
  {
    exists step :: Enabled(late, job, s, step) && s' == Apply(late, job, s, step)
  }

  ghost predicate StepAt(late: bool, job: Job, run: seq<Sys>, k: nat)
    requires 0 < k < |run| && job.nReduce > 0
  {
    Next(late, job, run[k - 1], run[k])
  }

  ghost predicate IsRun(late: bool, job: Job, run: seq<Sys>)
    requires job.nReduce > 0
  {
    && run != []
    && IsInit(job, run[0])
    && forall k: nat :: 0 < k < |run| ==> StepAt(late, job, run, k)
  }

  // ---- The invariant -------------------------------------------------------------

  ghost predicate FilesOk(job: Job, files: Files)
    requires job.nReduce > 0
  {
    forall f :: f in files && f.mapId < |job.inputs| ==>
      files[f] == Bucket(Mapped(job, f.mapId), job.hash, job.nReduce, f.reduceId)
  }

  /** Map task `m` has written its files up to `n`. */
  ghost predicate WrittenUpTo(files: Files, m: nat, n: nat) {
    forall r: nat :: r < n ==> FileName(m, r) in files
  }

  ghost predicate ReportedAll(job: Job, s: Sys) {
    forall m: nat :: m < |job.inputs| ==> m in s.reported
  }

  ghost predicate ReducesBegun(job: Job, s: Sys) {
    ReportedAll(job, s) && (s.coord.Some? ==> s.coord.value.phase != MapPhase)
  }

  ghost predicate CoordOk(job: Job, s: Sys) {
    s.coord.Some? ==>
      var c := s.coord.value;
      && ValidCoord(c) && c.nMap == |job.inputs| && c.nReduce == job.nReduce
      && (c.phase == MapPhase ==> forall m: nat :: m < |c.tasks| && c.tasks[m] == Completed ==> m in s.reported)
      && (c.phase != MapPhase ==> ReportedAll(job, s))
  }

  ghost predicate WorkerOk(job: Job, s: Sys, worker: Worker) {
    match worker
    case Idle => true
    case Stopped => true
    case Mapping(id, next) => id < |job.inputs| && next <= job.nReduce && WrittenUpTo(s.files, id, next)
    case Reducing(id) => id < job.nReduce && ReducesBegun(job, s)
    case Reporting(kind, id) =>
      if kind == MapKind then id < |job.inputs| && WrittenUpTo(s.files, id, job.nReduce)
      else id < job.nReduce && id in s.outs && ReducesBegun(job, s)
  }

  ghost predicate OutOk(job: Job, s: Sys, r: nat)
    requires job.nReduce > 0 && r in s.outs
  {
    r < job.nReduce &&
    IsOutput(s.outs[r], Bucket(Everything(job, |job.inputs|), job.hash, job.nReduce, r), job.reduce)
  }

  ghost predicate Inv(job: Job, s: Sys)
    requires job.nReduce > 0
  {
    && FilesOk(job, s.files)
    && (forall m :: m in s.reported ==> m < |job.inputs| && WrittenUpTo(s.files, m, job.nReduce))
    && CoordOk(job, s)
    && (forall w :: 0 <= w < |s.workers| ==> WorkerOk(job, s, s.workers[w]))
    && (forall r :: r in s.outs ==> OutOk(job, s, r))
  }

  lemma ReportedMeansWritten(job: Job, s: Sys)
    requires job.nReduce > 0 && Inv(job, s) && ReportedAll(job, s)
    ensures AllWritten(job, s.files)
  {
    forall m: nat, r: nat | m < |job.inputs| && r < job.nReduce ensures HasBucket(job, s.files, m, r) {
      assert m in s.reported && WrittenUpTo(s.files, m, job.nReduce);
    }
  }

  // ---- What the coordinator's handlers keep --------------------------------------

  lemma {:induction false} FirstFreeNone(tasks: seq<Status>, expired: set<nat>, i: nat)
    requires i <= |tasks|
    ensures FirstFree(tasks, expired, i) < |tasks| ==>
      Free(tasks[FirstFree(tasks, expired, i)], FirstFree(tasks, expired, i) in expired)
    decreases |tasks| - i
  {
    if i < |tasks| && !Free(tasks[i], i in expired) { FirstFreeNone(tasks, expired, i + 1); }
  }

  lemma {:induction false} ScanMeans(tasks: seq<Status>, n: nat, i: nat)
    requires i <= n
    ensures Scan(tasks, n, i) == Some(true) ==>
      n <= |tasks| || i == n
    ensures Scan(tasks, n, i) == Some(true) ==>
      forall j :: i <= j < n && j < |tasks| ==> tasks[j] == Completed
    decreases n - i
  {
    if i < n && i < |tasks| && tasks[i] == Completed { ScanMeans(tasks, n, i + 1); }
  }

  lemma BeatOk(job: Job, s: Sys, expired: set<nat>)
    requires job.nReduce > 0 && s.coord.Some? && CoordOk(job, s)
    ensures var (c, reply) := Beat(s.coord.value, expired);
      && CoordOk(job, s.(coord := Some(c))) && WorkerOk(job, s.(coord := Some(c)), Took(reply))
      && (s.coord.value.phase != MapPhase ==> c.phase != MapPhase)
  {
    var c := s.coord.value;
    FirstFreeNone(c.tasks, expired, 0);
  }

  ghost function Noted(s: Sys, kind: Kind, id: nat): Sys
    requires s.coord.Some?
  {
    s.(coord := Report(s.coord.value, kind, id),
       reported := if kind == MapKind then s.reported + {id} else s.reported)
  }

  lemma ReportOk(job: Job, s: Sys, kind: Kind, id: nat)
    requires job.nReduce > 0 && s.coord.Some? && CoordOk(job, s)
    requires if kind == MapKind then id < |job.inputs| else id < job.nReduce && ReducesBegun(job, s)
    ensures var s' := Noted(s, kind, id);
      && CoordOk(job, s')
      && (s'.coord.Some? && s.coord.value.phase != MapPhase ==> s'.coord.value.phase != MapPhase)
  {
    var c := s.coord.value;
    var n := if kind == MapKind then c.nMap else c.nReduce;
    if id < |c.tasks| {
      var tasks := c.tasks[id := Completed];
      ScanMeans(tasks, n, 0);
      if c.phase == MapPhase && Scan(tasks, n, 0) == Some(true) {
        forall m: nat | m < |job.inputs| ensures m in Noted(s, kind, id).reported {
          assert tasks[m] == Completed;
        }
      }
    }
  }

  // ---- What every step keeps -----------------------------------------------------

  /** Nothing a worker relies on goes away. */
  ghost predicate Grows(s: Sys, s': Sys) {
    && (forall f :: f in s.files ==> f in s'.files)
    && s.reported <= s'.reported
    && (forall r :: r in s.outs ==> r in s'.outs)
    && (s'.coord.Some? ==> s.coord.Some? && (s.coord.value.phase != MapPhase ==> s'.coord.value.phase != MapPhase))
  }

  lemma WorkerKept(job: Job, s: Sys, s': Sys, worker: Worker)
    requires WorkerOk(job, s, worker) && Grows(s, s')
    ensures WorkerOk(job, s', worker)
  {
  }

  lemma StepGrows(late: bool, job: Job, s: Sys, step: Step)
    requires job.nReduce > 0 && Inv(job, s) && Enabled(late, job, s, step)
    ensures Grows(s, Apply(late, job, s, step))
  {
    if step.Ask? { BeatOk(job, s, step.expired); }
    if step.SendReport? {
      assert WorkerOk(job, s, s.workers[step.w]);
      ReportOk(job, s, s.workers[step.w].kind, s.workers[step.w].id);
    }
  }

  lemma StepWorkers(late: bool, job: Job, s: Sys, step: Step)
    requires job.nReduce > 0 && Inv(job, s) && Enabled(late, job, s, step)
    ensures var s' := Apply(late, job, s, step);
      forall w :: 0 <= w < |s'.workers| ==> WorkerOk(job, s', s'.workers[w])
  {
    var s' := Apply(late, job, s, step);
    StepGrows(late, job, s, step);
    if step.Ask? { BeatOk(job, s, step.expired); }
    forall w | 0 <= w < |s'.workers| ensures WorkerOk(job, s', s'.workers[w]) {
      assert WorkerOk(job, s, s.workers[w]);
      WorkerKept(job, s, s', s.workers[w]);
    }
  }

  lemma StepCoord(late: bool, job: Job, s: Sys, step: Step)
    requires job.nReduce > 0 && Inv(job, s) && Enabled(late, job, s, step)
    ensures CoordOk(job, Apply(late, job, s, step))
  {
    if step.Ask? { BeatOk(job, s, step.expired); }
    if step.SendReport? {
      assert WorkerOk(job, s, s.workers[step.w]);
      ReportOk(job, s, s.workers[step.w].kind, s.workers[step.w].id);
    }
  }

  lemma StepFiles(late: bool, job: Job, s: Sys, step: Step)
    requires job.nReduce > 0 && Inv(job, s) && Enabled(late, job, s, step)
    ensures var s' := Apply(late, job, s, step);
      && FilesOk(job, s'.files)
      && forall m :: m in s'.reported ==> m < |job.inputs| && WrittenUpTo(s'.files, m, job.nReduce)
  {
    assert WorkerOk(job, s, s.workers[step.w]);
  }

  /** A reduce task runs only on complete files, so it loses nothing by skipping missing ones. */
  lemma ReduceReadsBucket(job: Job, s: Sys, w: nat)
    requires job.nReduce > 0 && Inv(job, s) && w < |s.workers| && s.workers[w].Reducing?
    ensures s.workers[w].id < job.nReduce
    ensures Collected(s.files, s.workers[w].id, |job.inputs|) ==
      Bucket(Everything(job, |job.inputs|), job.hash, job.nReduce, s.workers[w].id)
  {
    assert WorkerOk(job, s, s.workers[w]);
    ReportedMeansWritten(job, s);
    CollectedIsBucket(job, s.files, s.workers[w].id, |job.inputs|);
  }

  lemma StepOuts(late: bool, job: Job, s: Sys, step: Step)
    requires job.nReduce > 0 && Inv(job, s) && Enabled(late, job, s, step)
    ensures var s' := Apply(late, job, s, step); forall r :: r in s'.outs ==> OutOk(job, s', r)
  {
    if step.ReduceDone? { ReduceReadsBucket(job, s, step.w); }
    assert forall r :: r in s.outs ==> OutOk(job, s, r);
  }

  lemma StepInv(late: bool, job: Job, s: Sys, step: Step)
    requires job.nReduce > 0 && Inv(job, s) && Enabled(late, job, s, step)
    ensures Inv(job, Apply(late, job, s, step))
  {
    StepFiles(late, job, s, step);
    StepCoord(late, job, s, step);
    StepWorkers(late, job, s, step);
    StepOuts(late, job, s, step);
  }

  lemma StepOf(late: bool, job: Job, run: seq<Sys>, k: nat) returns (step: Step)
    requires job.nReduce > 0 && IsRun(late, job, run) && 0 < k < |run|
    ensures Enabled(late, job, run[k - 1], step) && run[k] == Apply(late, job, run[k - 1], step)
  {
    assert StepAt(late, job, run, k);
    step :| Enabled(late, job, run[k - 1], step) && run[k] == Apply(late, job, run[k - 1], step);
  }

  lemma {:induction false} RunInv(late: bool, job: Job, run: seq<Sys>, k: nat)
    requires job.nReduce > 0 && IsRun(late, job, run) && k < |run|
    ensures Inv(job, run[k])
    decreases k
  {
    if k > 0 {
      RunInv(late, job, run, k - 1);
      var step := StepOf(late, job, run, k);
      StepInv(late, job, run[k - 1], step);
    }
  }

  // ---- The theorems --------------------------------------------------------------

  /** Map before reduce: when the coordinator hands out a reduce task, and as long as a worker
      has one, every map task has been reported and every intermediate file is written. */
  lemma MapBeforeReduce(late: bool, job: Job, run: seq<Sys>, k: nat, w: nat, expired: set<nat>)
    requires job.nReduce > 0 && IsRun(late, job, run) && k < |run| && w < |run[k].workers|
    requires var s := run[k];
      s.workers[w].Reducing? || (s.coord.Some? && Beat(s.coord.value, expired).1.ReduceTask?)
    ensures ReportedAll(job, run[k]) && AllWritten(job, run[k].files)
  {
    RunInv(late, job, run, k);
    var s := run[k];
    assert WorkerOk(job, s, s.workers[w]);
    if s.coord.Some? {
      BeatOk(job, s, expired);
    }
    ReportedMeansWritten(job, s);
  }

  /** The output files of the reduce tasks, in order. */
  ghost function Outputs(job: Job, s: Sys): seq<seq<Line>>
    requires forall r: nat :: r < job.nReduce ==> r in s.outs
  {
    seq(job.nReduce, r requires 0 <= r < job.nReduce => s.outs[r])
  }

  ghost predicate HasAllOutputs(job: Job, s: Sys) {
    forall r: nat :: r < job.nReduce ==> r in s.outs
  }

  /** Whenever an output file exists, it is exactly the sequential program's output without the
      lines of other reduce tasks. */
  lemma EachOutputIsSelection(late: bool, job: Job, run: seq<Sys>, k: nat, r: nat, sequential: seq<Line>)
    requires ValidJob(job) && IsRun(late, job, run) && k < |run| && r in run[k].outs
    requires IsOutput(sequential, Everything(job, |job.inputs|), job.reduce)
    ensures r < job.nReduce && run[k].outs[r] == Selected(sequential, job, r)
  {
    RunInv(late, job, run, k);
    assert OutOk(job, run[k], r);
    OutputIsSelection(job, Everything(job, |job.inputs|), run[k].outs[r], sequential, r);
  }

  /** Whenever all output files exist, together they are the sequential program's output. */
  lemma OutputsAreSequential(late: bool, job: Job, run: seq<Sys>, k: nat, sequential: seq<Line>)
    requires ValidJob(job) && IsRun(late, job, run) && k < |run| && HasAllOutputs(job, run[k])
    requires IsOutput(sequential, Everything(job, |job.inputs|), job.reduce)
    ensures multiset(Combined(Outputs(job, run[k]))) == multiset(sequential)
  {
    RunInv(late, job, run, k);
    var all := Everything(job, |job.inputs|);
    OutputsOfBuckets(job, run[k]);
    CombinedLines(all, job, Outputs(job, run[k]));
    OutputIsReference(sequential, all, job.reduce);
    AllLinesBelow(all, job);
  }

  lemma OutputsOfBuckets(job: Job, s: Sys)
    requires job.nReduce > 0 && Inv(job, s) && HasAllOutputs(job, s)
    ensures var all, outs := Everything(job, |job.inputs|), Outputs(job, s);
      forall r: nat :: r < |outs| ==>
        IsOutput(outs[r], Bucket(all, job.hash, job.nReduce, r), job.reduce)
  {
    var all, outs := Everything(job, |job.inputs|), Outputs(job, s);
    forall r: nat | r < |outs|
      ensures IsOutput(outs[r], Bucket(all, job.hash, job.nReduce, r), job.reduce)
    {
      assert OutOk(job, s, r);
    }
  }

  // ---- When done means done ------------------------------------------------------

  /** Completed reduce tasks have their outputs. */
  ghost predicate DoneOk(job: Job, s: Sys) {
    s.coord.Some? ==>
      var c := s.coord.value;
      && (c.phase == ReducePhase ==> forall r: nat :: r < |c.tasks| && c.tasks[r] == Completed ==> r in s.outs)
      && (c.phase == DonePhase ==> HasAllOutputs(job, s))
  }

  lemma BeatDone(job: Job, s: Sys, expired: set<nat>)
    requires s.coord.Some? && CoordOk(job, s) && DoneOk(job, s)
    ensures DoneOk(job, s.(coord := Some(Beat(s.coord.value, expired).0)))
  {
  }

  /** Late map reports do no harm to jobs with a single map task, where they start the reduce
      tasks again, or a single reduce task, where they stop the coordinator. */
  ghost predicate Harmless(late: bool, job: Job) {
    !late || |job.inputs| <= 1 || job.nReduce <= 1
  }

  lemma LateReportDone(job: Job, s: Sys, id: nat)
    requires s.coord.Some? && CoordOk(job, s) && s.coord.value.phase != MapPhase
    requires id < |job.inputs| && job.nReduce > 0 && (|job.inputs| <= 1 || job.nReduce <= 1)
    ensures DoneOk(job, Noted(s, MapKind, id))
  {
    var c := s.coord.value;
    if id < |c.tasks| {
      var tasks := c.tasks[id := Completed];
      assert id == 0 && tasks[0] == Completed;
      assert Scan(tasks, c.nMap, 0) == Scan(tasks, c.nMap, 1);
    }
  }

  lemma ReportDone(job: Job, s: Sys, kind: Kind, id: nat)
    requires s.coord.Some? && CoordOk(job, s) && DoneOk(job, s)
    requires if kind == MapKind then s.coord.value.phase == MapPhase
             else id < job.nReduce && id in s.outs && s.coord.value.phase != MapPhase
    ensures DoneOk(job, Noted(s, kind, id))
  {
    var c := s.coord.value;
    if kind == ReduceKind {
      var tasks := c.tasks[id := Completed];
      ScanMeans(tasks, c.nReduce, 0);
      if c.phase == ReducePhase && Scan(tasks, c.nReduce, 0) == Some(true) {
        forall r: nat | r < job.nReduce ensures r in s.outs {
          assert tasks[r] == Completed;
        }
      }
    }
  }

  lemma StepDone(late: bool, job: Job, s: Sys, step: Step)
    requires job.nReduce > 0 && Inv(job, s) && DoneOk(job, s) && Enabled(late, job, s, step)
    requires Harmless(late, job)
    ensures DoneOk(job, Apply(late, job, s, step))
  {
    assert WorkerOk(job, s, s.workers[step.w]);
    if step.Ask? { BeatDone(job, s, step.expired); }
    if step.SendReport? {
      var Reporting(kind, id) := s.workers[step.w];
      if kind == MapKind && s.coord.value.phase != MapPhase {
        LateReportDone(job, s, id);
      } else {
        ReportDone(job, s, kind, id);
      }
    }
  }

  lemma {:induction false} RunDone(late: bool, job: Job, run: seq<Sys>, k: nat)
    requires job.nReduce > 0 && IsRun(late, job, run) && k < |run| && Harmless(late, job)
    ensures DoneOk(job, run[k])
    decreases k
  {
    if k > 0 {
      RunDone(late, job, run, k - 1);
      RunInv(late, job, run, k - 1);
      var step := StepOf(late, job, run, k);
      StepDone(late, job, run[k - 1], step);
    }
  }

  ghost predicate IsDone(s: Sys) {
    s.coord.Some? && s.coord.value.phase == DonePhase
  }

  /** A coordinator that is done leaves the complete and correct output, if no map report is
      handled after the map phase or the job has a single map or a single reduce task. */
  lemma DoneMeansComplete(late: bool, job: Job, run: seq<Sys>, k: nat, sequential: seq<Line>)
    requires ValidJob(job) && IsRun(late, job, run) && k < |run| && IsDone(run[k]) && Harmless(late, job)
    requires IsOutput(sequential, Everything(job, |job.inputs|), job.reduce)
    ensures HasAllOutputs(job, run[k])
    ensures multiset(Combined(Outputs(job, run[k]))) == multiset(sequential)
  {
    RunDone(late, job, run, k);
    OutputsAreSequential(late, job, run, k, sequential);
  }

  // ---- When workers stop ---------------------------------------------------------

  /** A worker stops only when the coordinator is done. */
  lemma StopStep(late: bool, job: Job, s: Sys, step: Step, w: nat)
    requires job.nReduce > 0 && Enabled(late, job, s, step) && w < |s.workers| && s.workers[w] != Stopped
    requires Apply(late, job, s, step).workers[w] == Stopped
    ensures IsDone(Apply(late, job, s, step))
  {
    if step.Ask? { DoneWhenFinished(s.coord.value, step.expired); }
  }

  /** A worker stops exactly when the coordinator's answer reaches it and says that it is done;
      any other answer leaves it waiting or with the task that the coordinator has handed out. */
  lemma AnswerReaches(late: bool, job: Job, s: Sys, w: nat, expired: set<nat>)
    requires job.nReduce > 0 && Enabled(late, job, s, Ask(w, expired, false))
    ensures var s', reply := Apply(late, job, s, Ask(w, expired, false)), Beat(s.coord.value, expired).1;
      && (s'.workers[w] == Stopped <==> IsDone(s'))
      && (s'.workers[w] == Idle <==> reply == Wait)
      && (forall id, next :: s'.workers[w] == Mapping(id, next) <==> reply == MapTask(id) && next == 0)
      && (forall id :: s'.workers[w] == Reducing(id) <==> reply == ReduceTask(id))
  {
    DoneWhenFinished(s.coord.value, expired);
  }

  lemma DoneWhenFinished(c: Coord, expired: set<nat>)
    ensures Beat(c, expired).1 == Finished <==> Beat(c, expired).0.phase == DonePhase
  {
  }

  /** So a worker that has stopped was not sent away early: all outputs exist, if no map report
      is handled late or late reports do no harm to the job. */
  lemma {:induction false} StoppedMeansComplete(late: bool, job: Job, run: seq<Sys>, k: nat, w: nat)
    requires job.nReduce > 0 && IsRun(late, job, run) && k < |run| && Harmless(late, job)
    requires w < |run[k].workers| && run[k].workers[w] == Stopped
    ensures HasAllOutputs(job, run[k])
    decreases k
  {
    if k > 0 {
      var step := StepOf(late, job, run, k);
      if run[k - 1].workers[w] == Stopped {
        StoppedMeansComplete(late, job, run, k - 1, w);
        RunInv(late, job, run, k - 1);
        StepGrows(late, job, run[k - 1], step);
      } else {
        StopStep(late, job, run[k - 1], step, w);
        RunDone(late, job, run, k);
      }
    }
  }

  /** In every setting, the coordinator has been done when a worker has stopped. */
  lemma {:induction false} StoppedMeansDone(late: bool, job: Job, run: seq<Sys>, k: nat, w: nat) returns (j: nat)
    requires job.nReduce > 0 && IsRun(late, job, run) && k < |run|
    requires w < |run[k].workers| && run[k].workers[w] == Stopped
    ensures j <= k && IsDone(run[j])
    decreases k
  {
    if k > 0 {
      var step := StepOf(late, job, run, k);
      if run[k - 1].workers[w] == Stopped {
        j := StoppedMeansDone(late, job, run, k - 1, w);
      } else {
        StopStep(late, job, run[k - 1], step, w);
        j := k;
      }
    }
  }

  // ---- When the coordinator keeps running ----------------------------------------

  lemma {:induction false} ScanInRange(tasks: seq<Status>, n: nat, i: nat)
    requires i <= n <= |tasks|
    ensures Scan(tasks, n, i) == Some(forall j :: i <= j < n ==> tasks[j] == Completed)
    decreases n - i
  {
    if i < n { ScanInRange(tasks, n, i + 1); }
  }

  lemma ReportRuns(late: bool, job: Job, s: Sys, w: nat, again: bool)
    requires job.nReduce > 0 && Inv(job, s) && Enabled(late, job, s, SendReport(w, again))
    requires !late || |job.inputs| <= job.nReduce
    ensures Report(s.coord.value, s.workers[w].kind, s.workers[w].id).Some?
  {
    var c := s.coord.value;
    var Reporting(kind, id) := s.workers[w];
    assert WorkerOk(job, s, s.workers[w]);
    var n := if kind == MapKind then c.nMap else c.nReduce;
    ScanInRange(c.tasks[id := Completed], n, 0);
  }

  lemma {:induction false} RunKeepsRunning(late: bool, job: Job, run: seq<Sys>, k: nat)
    requires job.nReduce > 0 && IsRun(late, job, run) && k < |run|
    requires !late || |job.inputs| <= job.nReduce
    ensures run[k].coord.Some?
    decreases k
  {
    if k > 0 {
      RunKeepsRunning(late, job, run, k - 1);
      RunInv(late, job, run, k - 1);
      var step := StepOf(late, job, run, k);
      if step.SendReport? { ReportRuns(late, job, run[k - 1], step.w, step.again); }
    }
  }
}
