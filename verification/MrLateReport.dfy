/** What late map reports do. The coordinator does not look at its phase when a report comes
    in, so a map report that is handled in the reduce phase marks a reduce task as completed
    that nobody has run, or looks past the reduce tasks and stops the coordinator. For every
    job the runs below show which of this can happen. */
module MrLateReport {
  import opened Common
  import opened MrGrouping
  import opened MrShuffle
  import opened MrCoordinator
  import opened MrRuns

  ghost predicate RunTo(job: Job, run: seq<Sys>, s: Sys)
    requires job.nReduce > 0
  {
    IsRun(true, job, run) && run[|run| - 1] == s
  }

  lemma Extend(job: Job, run: seq<Sys>, s: Sys, step: Step) returns (run': seq<Sys>, s': Sys)
    requires job.nReduce > 0 && RunTo(job, run, s) && Enabled(true, job, s, step)
    ensures s' == Apply(true, job, s, step) && RunTo(job, run', s')
  {
    s' := Apply(true, job, s, step);
    run' := run + [s'];
    assert Next(true, job, s, s');
    forall k: nat | 0 < k < |run'| ensures StepAt(true, job, run', k) {
      if k < |run| { assert StepAt(true, job, run, k); }
    }
  }

  // ---- What the coordinator's loops find -----------------------------------------

  lemma {:induction false} ScanStops(tasks: seq<Status>, n: nat, i: nat, h: nat)
    requires i <= h < n && h < |tasks| && tasks[h] != Completed
    ensures Scan(tasks, n, i) == Some(false)
    decreases h - i
  {
    if i < h && tasks[i] == Completed { ScanStops(tasks, n, i + 1, h); }
  }

  lemma {:induction false} FirstFreeIs(tasks: seq<Status>, i: nat, m: nat)
    requires i <= m < |tasks| && tasks[m] == Inited
    requires forall j :: i <= j < m ==> tasks[j] != Inited
    ensures FirstFree(tasks, {}, i) == m
    decreases m - i
  {
    if i < m { FirstFreeIs(tasks, i + 1, m); }
  }

  // ---- The map phase -------------------------------------------------------------

  /** The first `m` map tasks have been run, and all but task `h` have been reported. */
  ghost function MapTasks(n: nat, h: nat, m: nat): seq<Status> {
    seq(n, j => if j < m then (if j == h then Running else Completed) else Inited)
  }

  /** Worker 0 runs map task `h` and does not report it yet; worker 1 runs the others. */
  ghost predicate MappedUpTo(job: Job, s: Sys, h: nat, m: nat) {
    var n := |job.inputs|;
    && s.outs == map[]
    && s.coord == Some(Coord(n, job.nReduce, MapPhase, MapTasks(n, h, m)))
    && s.workers == [if m > h then Reporting(MapKind, h) else Idle, Idle]
  }

  lemma ReachInit(job: Job, h: nat) returns (run: seq<Sys>, s: Sys)
    requires job.nReduce > 0
    ensures RunTo(job, run, s) && MappedUpTo(job, s, h, 0)
  {
    var n := |job.inputs|;
    assert FreshTasks(n) == MapTasks(n, h, 0);
    s := Sys(Some(InitCoord(n, job.nReduce)), [Idle, Idle], map[], map[], {});
    run := [s];
  }

  lemma AskMap(job: Job, run: seq<Sys>, s: Sys, h: nat, m: nat, w: nat) returns (run': seq<Sys>, s': Sys)
    requires job.nReduce > 0 && RunTo(job, run, s) && MappedUpTo(job, s, h, m) && m < |job.inputs|
    requires w == if m == h then 0 else 1
    ensures RunTo(job, run', s') && s'.outs == map[]
    ensures s'.coord == Some(s.coord.value.(tasks := s.coord.value.tasks[m := Running]))
    ensures s'.workers == s.workers[w := Mapping(m, 0)]
  {
    FirstFreeIs(s.coord.value.tasks, 0, m);
    run', s' := Extend(job, run, s, Ask(w, {}, false));
  }

  /** Worker `w` writes the rest of its files. */
  lemma {:induction false} FinishMap(job: Job, run: seq<Sys>, s: Sys, w: nat) returns (run': seq<Sys>, s': Sys)
    requires job.nReduce > 0 && RunTo(job, run, s) && w < |s.workers| && s.workers[w].Mapping?
    requires s.workers[w].next <= job.nReduce && s.workers[w].id < |job.inputs|
    ensures RunTo(job, run', s') && s'.coord == s.coord && s'.outs == s.outs
    ensures s'.workers == s.workers[w := Reporting(MapKind, s.workers[w].id)]
    decreases job.nReduce - s.workers[w].next
  {
    if s.workers[w].next < job.nReduce {
      run', s' := Extend(job, run, s, WriteFile(w));
      run', s' := FinishMap(job, run', s', w);
    } else {
      run', s' := Extend(job, run, s, MapDone(w));
    }
  }

  /** While task `h` is not completed, a report of task `m` leaves the map phase on. */
  lemma ReportMap(n: nat, r: nat, h: nat, m: nat)
    requires h < n && m < n && m != h
    ensures Report(Coord(n, r, MapPhase, MapTasks(n, h, m)[m := Running]), MapKind, m) ==
      Some(Coord(n, r, MapPhase, MapTasks(n, h, m + 1)))
  {
    var tasks := MapTasks(n, h, m)[m := Running][m := Completed];
    assert tasks == MapTasks(n, h, m + 1);
    ScanStops(tasks, n, 0, h);
  }

  lemma OneMap(job: Job, run: seq<Sys>, s: Sys, h: nat, m: nat) returns (run': seq<Sys>, s': Sys)
    requires job.nReduce > 0 && RunTo(job, run, s) && MappedUpTo(job, s, h, m)
    requires m < |job.inputs| && h < |job.inputs|
    ensures RunTo(job, run', s') && MappedUpTo(job, s', h, m + 1)
  {
    var n, w := |job.inputs|, if m == h then 0 else 1;
    run', s' := AskMap(job, run, s, h, m, w);
    run', s' := FinishMap(job, run', s', w);
    if m == h {
      assert MapTasks(n, h, m)[m := Running] == MapTasks(n, h, m + 1);
    } else {
      ReportMap(n, job.nReduce, h, m);
      run', s' := Extend(job, run', s', SendReport(1, false));
    }
  }

  lemma {:induction false} MapFirst(job: Job, h: nat, m: nat) returns (run: seq<Sys>, s: Sys)
    requires job.nReduce > 0 && m <= |job.inputs| && h < |job.inputs|
    ensures RunTo(job, run, s) && MappedUpTo(job, s, h, m)
    decreases m
  {
    if m == 0 {
      run, s := ReachInit(job, h);
    } else {
      run, s := MapFirst(job, h, m - 1);
      run, s := OneMap(job, run, s, h, m - 1);
    }
  }

  /** Worker 0 has reported task `h`, has not learnt that the report arrived and is about to
      repeat it; the reduce phase has begun. */
  lemma ReachReduces(job: Job, h: nat) returns (run: seq<Sys>, s: Sys)
    requires job.nReduce > 0 && h < |job.inputs|
    ensures RunTo(job, run, s) && s.outs == map[] && s.workers == [Reporting(MapKind, h), Idle]
    ensures s.coord == Some(Coord(|job.inputs|, job.nReduce, ReducePhase, FreshTasks(job.nReduce)))
  {
    var n := |job.inputs|;
    run, s := MapFirst(job, h, n);
    ScanInRange(s.coord.value.tasks[h := Completed], n, 0);
    run, s := Extend(job, run, s, SendReport(0, true));
  }

  // ---- Stopping the coordinator --------------------------------------------------

  ghost predicate CanStop(late: bool, job: Job)
    requires job.nReduce > 0
  {
    exists run: seq<Sys>, k: nat :: IsRun(late, job, run) && k < |run| && run[k].coord.None?
  }

  /** The coordinator can stop exactly if late map reports are handled and the job has more map
      tasks than reduce tasks. */
  lemma StopsExactly(late: bool, job: Job)
    requires job.nReduce > 0
    ensures CanStop(late, job) <==> late && |job.inputs| > job.nReduce
  {
    if late && |job.inputs| > job.nReduce {
      var run, s := ReachReduces(job, job.nReduce);
      run, s := Extend(job, run, s, SendReport(0, false));
      var k: nat := |run| - 1;
      assert run[k].coord.None?;
    } else {
      forall run: seq<Sys>, k: nat | IsRun(late, job, run) && k < |run| ensures run[k].coord.Some? {
        RunKeepsRunning(late, job, run, k);
      }
    }
  }

  // ---- Done without an output ----------------------------------------------------

  ghost function ReduceTasks(n: nat, r: nat): seq<Status> {
    seq(n, j => if j < r then Completed else Inited)
  }

  /** The first `r` reduce tasks count as completed, although the first has not been run. */
  ghost predicate ReducedUpTo(job: Job, s: Sys, r: nat) {
    && s.workers == [Idle, Idle] && 0 !in s.outs
    && s.coord == Some(Coord(|job.inputs|, job.nReduce,
         if r == job.nReduce then DonePhase else ReducePhase, ReduceTasks(job.nReduce, r)))
  }

  /** The second report of map task 0 marks reduce task 0 as completed. */
  lemma ReachLate(job: Job) returns (run: seq<Sys>, s: Sys)
    requires |job.inputs| >= 2 && job.nReduce >= 2
    ensures RunTo(job, run, s) && ReducedUpTo(job, s, 1)
  {
    run, s := ReachReduces(job, 0);
    var tasks := FreshTasks(job.nReduce)[0 := Completed];
    assert tasks == ReduceTasks(job.nReduce, 1);
    ScanStops(tasks, |job.inputs|, 0, 1);
    run, s := Extend(job, run, s, SendReport(0, false));
  }

  lemma ReportReduce(n: nat, r: nat, m: nat)
    requires m < r
    ensures Report(Coord(n, r, ReducePhase, ReduceTasks(r, m)[m := Running]), ReduceKind, m) ==
      Some(Coord(n, r, if m + 1 == r then DonePhase else ReducePhase, ReduceTasks(r, m + 1)))
  {
    var tasks := ReduceTasks(r, m)[m := Running][m := Completed];
    assert tasks == ReduceTasks(r, m + 1);
    ScanInRange(tasks, r, 0);
    if m + 1 < r { assert tasks[m + 1] != Completed; }
  }

  lemma OneReduce(job: Job, run: seq<Sys>, s: Sys, r: nat) returns (run': seq<Sys>, s': Sys)
    requires 0 < r < job.nReduce && RunTo(job, run, s) && ReducedUpTo(job, s, r)
    ensures RunTo(job, run', s') && ReducedUpTo(job, s', r + 1)
  {
    FirstFreeIs(s.coord.value.tasks, 0, r);
    run', s' := Extend(job, run, s, Ask(0, {}, false));
    assert s'.workers == [Reducing(r), Idle];
    var lines := SomeOutput(job, s'.files, r);
    run', s' := Extend(job, run', s', ReduceDone(0, lines));
    ReportReduce(|job.inputs|, job.nReduce, r);
    run', s' := Extend(job, run', s', SendReport(0, false));
  }

  lemma {:induction false} ReduceFirst(job: Job, r: nat) returns (run: seq<Sys>, s: Sys)
    requires |job.inputs| >= 2 && job.nReduce >= 2 && 1 <= r <= job.nReduce
    ensures RunTo(job, run, s) && ReducedUpTo(job, s, r)
    decreases r
  {
    if r == 1 {
      run, s := ReachLate(job);
    } else {
      run, s := ReduceFirst(job, r - 1);
      run, s := OneReduce(job, run, s, r - 1);
    }
  }

  /** Every job with two map tasks and two reduce tasks or more has a run that is done while
      the first output is missing. */
  lemma DoneWithoutOutput(job: Job) returns (run: seq<Sys>)
    requires |job.inputs| >= 2 && job.nReduce >= 2
    ensures IsRun(true, job, run)
    ensures var s := run[|run| - 1]; IsDone(s) && 0 !in s.outs
  {
    var s: Sys;
    run, s := ReduceFirst(job, job.nReduce);
  }

  lemma {:induction false} SortExists(kva: seq<KeyValue>) returns (s: seq<KeyValue>)
    ensures IsSortOf(s, kva)
  {
    if kva == [] {
      s := [];
    } else {
      var init, x := kva[..|kva| - 1], kva[|kva| - 1];
      assert kva == init + [x];
      var t := SortExists(init);
      var j := InsertionPoint(t, x);
      InsertedIsSorted(t, x, j);
      s := t[..j] + [x] + t[j..];
      assert multiset(t + [x]) == multiset(init + [x]);
    }
  }

  lemma {:induction false} InsertionPoint(t: seq<KeyValue>, x: KeyValue) returns (j: nat)
    requires SortedByKey(t)
    ensures j <= |t| && (j > 0 ==> AtMost(t[j - 1].key, x.key))
    ensures forall k :: j <= k < |t| ==> AtMost(x.key, t[k].key)
  {
    if t == [] || AtMost(t[|t| - 1].key, x.key) {
      j := |t|;
    } else {
      AtMostTotal(t[|t| - 1].key, x.key);
      j := InsertionPoint(t[..|t| - 1], x);
    }
  }

  lemma SomeOutput(job: Job, files: Files, r: nat) returns (lines: seq<Line>)
    ensures IsOutput(lines, Collected(files, r, |job.inputs|), job.reduce)
  {
    var s := SortExists(Collected(files, r, |job.inputs|));
    lines := GroupFrom(s, job.reduce, 0);
  }

  ghost predicate DoneHasOutputs(late: bool, job: Job)
    requires job.nReduce > 0
  {
    forall run: seq<Sys>, k: nat :: IsRun(late, job, run) && k < |run| && IsDone(run[k]) ==> HasAllOutputs(job, run[k])
  }

  /** For every job, being done always means that all outputs exist exactly if no map report is
      handled late, or the job has at most one map task, or a single reduce task. */
  lemma DoneExactly(late: bool, job: Job)
    requires job.nReduce > 0
    ensures DoneHasOutputs(late, job) <==> !late || |job.inputs| <= 1 || job.nReduce <= 1
  {
    if Harmless(late, job) {
      forall run: seq<Sys>, k: nat | IsRun(late, job, run) && k < |run| && IsDone(run[k])
        ensures HasAllOutputs(job, run[k])
      {
        RunDone(late, job, run, k);
      }
    } else {
      var run := DoneWithoutOutput(job);
      var k: nat := |run| - 1;
      assert IsDone(run[k]) && !HasAllOutputs(job, run[k]);
    }
  }
}
