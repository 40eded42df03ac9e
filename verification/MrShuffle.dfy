/** The partitioned computation of the map and reduce tasks, the sequential program, and
    that the two agree. */
module MrShuffle {
  import opened Common
  import opened MrGrouping

  datatype Input = Input(name: string, content: string)

  /** The input files, the application's Map and Reduce, the hash behind `ihash`, and the
      number of reduce tasks. */
  datatype Job = Job(inputs: seq<Input>, mapf: (string, string) -> seq<KeyValue>,
                     hash: string -> nat, nReduce: nat, reduce: Reduce)

  /** What Map returns for input file `i`. */
  function Mapped(job: Job, i: nat): seq<KeyValue>
    requires i < |job.inputs|
  {
    job.mapf(job.inputs[i].name, job.inputs[i].content)
  }

  ghost predicate ValidJob(job: Job) {
    job.nReduce > 0 && IgnoresOrder(job.reduce)
  }

  datatype FileName = FileName(mapId: nat, reduceId: nat)

  /** The intermediate files "mr-X-Y". */
  type Files = map<FileName, seq<KeyValue>>

  // ---- Map tasks -----------------------------------------------------------------

  /** The pairs of `kva` that belong to reduce task `r`, in order. */
  function Bucket(kva: seq<KeyValue>, hash: string -> nat, n: nat, r: nat): seq<KeyValue>
    requires n > 0
  {
    if kva == [] then []
    else
      var rest := Bucket(kva[..|kva| - 1], hash, n, r);
      if hash(kva[|kva| - 1].key) % n == r then rest + [kva[|kva| - 1]] else rest
  }

  /** The partitioning loop of a map task. */
  method FillBuckets(kva: seq<KeyValue>, hash: string -> nat, n: nat) returns (buckets: array<seq<KeyValue>>)
    requires n > 0
    ensures fresh(buckets) && buckets.Length == n
    ensures forall r :: 0 <= r < n ==> buckets[r] == Bucket(kva, hash, n, r)
  {
    buckets := new seq<KeyValue>[n](i => []);
    var i := 0;
    while i < |kva|
      invariant 0 <= i <= |kva|
      invariant forall r :: 0 <= r < n ==> buckets[r] == Bucket(kva[..i], hash, n, r)
      modifies buckets
    {
      var b := hash(kva[i].key) % n;
      buckets[b] := buckets[b] + [kva[i]];
      assert kva[..i + 1][..i] == kva[..i];
      i := i + 1;
    }
    assert kva[..i] == kva;
  }

  /** A map task: partitions its pairs and writes one file for each reduce task. */
  method DoMapTask(job: Job, id: nat, files: Files) returns (files': Files)
    requires job.nReduce > 0 && id < |job.inputs|
    ensures forall r: nat :: r < job.nReduce ==>
      FileName(id, r) in files' &&
      files'[FileName(id, r)] == Bucket(Mapped(job, id), job.hash, job.nReduce, r)
    ensures forall name: FileName :: name.mapId != id || name.reduceId >= job.nReduce ==>
      (name in files' <==> name in files) && (name in files ==> files'[name] == files[name])
  {
    var buckets := FillBuckets(Mapped(job, id), job.hash, job.nReduce);
    files' := files;
    var i := 0;
    while i < buckets.Length
      invariant 0 <= i <= buckets.Length
      invariant forall r: nat :: r < i ==>
        FileName(id, r) in files' &&
        files'[FileName(id, r)] == Bucket(Mapped(job, id), job.hash, job.nReduce, r)
      invariant forall name: FileName :: name.mapId != id || name.reduceId >= job.nReduce ==>
        (name in files' <==> name in files) && (name in files ==> files'[name] == files[name])
    {
      files' := files'[FileName(id, i) := buckets[i]];
      i := i + 1;
    }
  }

  // ---- Reduce tasks --------------------------------------------------------------

  /** What a reduce task reads: the files of the first `m` map tasks, missing ones skipped. */
  function Collected(files: Files, r: nat, m: nat): seq<KeyValue> {
    if m == 0 then []
    else
      Collected(files, r, m - 1) +
      if FileName(m - 1, r) in files then files[FileName(m - 1, r)] else []
  }

  /** A reduce task reads every file that is there, after the files of the map tasks before it,
      and whole, whichever others are missing. */
  lemma {:induction false} ReadsEveryFile(files: Files, r: nat, m: nat, i: nat)
    requires i < m && FileName(i, r) in files
    ensures Collected(files, r, i) + files[FileName(i, r)] <= Collected(files, r, m)
  {
    if i < m - 1 { ReadsEveryFile(files, r, m - 1, i); }
  }

  /** And it reads nothing else. */
  lemma {:induction false} ReadsOnlyFiles(files: Files, r: nat, m: nat) returns (present: seq<seq<KeyValue>>)
    ensures |Collected(files, r, m)| == TotalLength(present) && |present| == m
    ensures forall i: nat :: i < m ==>
      present[i] == if FileName(i, r) in files then files[FileName(i, r)] else []
  {
    if m == 0 {
      present := [];
    } else {
      var before := ReadsOnlyFiles(files, r, m - 1);
      present := before + [if FileName(m - 1, r) in files then files[FileName(m - 1, r)] else []];
    }
  }

  ghost function TotalLength(parts: seq<seq<KeyValue>>): nat {
    if parts == [] then 0 else TotalLength(parts[..|parts| - 1]) + |parts[|parts| - 1]|
  }

  ghost predicate IsOutput(lines: seq<Line>, kva: seq<KeyValue>, f: Reduce) {
    exists s :: IsSortOf(s, kva) && lines == GroupFrom(s, f, 0)
  }

  method DoReduceTask(job: Job, id: nat, files: Files) returns (lines: seq<Line>)
    ensures IsOutput(lines, Collected(files, id, |job.inputs|), job.reduce)
  {
    var intermediate := [];
    var i := 0;
    while i < |job.inputs|
      invariant 0 <= i <= |job.inputs|
      invariant intermediate == Collected(files, id, i)
    {
      if FileName(i, id) in files {
        intermediate := intermediate + files[FileName(i, id)];
      }
      i := i + 1;
    }
    var s := SortByKey(intermediate);
    lines := GroupAndReduce(s, job.reduce);
  }

  // ---- The sequential program ----------------------------------------------------

  /** What Map returned for the first `m` input files, in one sequence. */
  function Everything(job: Job, m: nat): seq<KeyValue>
    requires m <= |job.inputs|
  {
    if m == 0 then [] else Everything(job, m - 1) + Mapped(job, m - 1)
  }

  /** The pairs of input file `i` come whole and after those of the files before it. */
  lemma {:induction false} MapsEveryFile(job: Job, m: nat, i: nat)
    requires i < m <= |job.inputs|
    ensures Everything(job, i) + Mapped(job, i) <= Everything(job, m)
  {
    if i < m - 1 { MapsEveryFile(job, m - 1, i); }
  }

  method Sequential(job: Job) returns (lines: seq<Line>)
    ensures IsOutput(lines, Everything(job, |job.inputs|), job.reduce)
  {
    var intermediate := [];
    var i := 0;
    while i < |job.inputs|
      invariant 0 <= i <= |job.inputs|
      invariant intermediate == Everything(job, i)
    {
      intermediate := intermediate + Mapped(job, i);
      i := i + 1;
    }
    var s := SortByKey(intermediate);
    lines := GroupAndReduce(s, job.reduce);
  }

  // ---- The partition loses and mixes nothing -------------------------------------

  lemma {:induction false} BucketConcat(a: seq<KeyValue>, b: seq<KeyValue>, hash: string -> nat, n: nat, r: nat)
    requires n > 0
    ensures Bucket(a + b, hash, n, r) == Bucket(a, hash, n, r) + Bucket(b, hash, n, r)
  {
    if b == [] {
      assert a + b == a;
    } else {
      BucketConcat(a, b[..|b| - 1], hash, n, r);
      assert (a + b)[..|a + b| - 1] == a + b[..|b| - 1];
    }
  }

  ghost predicate HasBucket(job: Job, files: Files, m: nat, r: nat)
    requires job.nReduce > 0 && m < |job.inputs|
  {
    FileName(m, r) in files && files[FileName(m, r)] == Bucket(Mapped(job, m), job.hash, job.nReduce, r)
  }

  /** Every file that a reduce task needs is there, as a map task writes it. */
  ghost predicate AllWritten(job: Job, files: Files)
    requires job.nReduce > 0
  {
    forall m: nat, r: nat :: m < |job.inputs| && r < job.nReduce ==> HasBucket(job, files, m, r)
  }

  /** Reading bucket `r` of every map task is partitioning everything at once. */
  lemma {:induction false} CollectedIsBucket(job: Job, files: Files, r: nat, m: nat)
    requires job.nReduce > 0 && AllWritten(job, files) && r < job.nReduce && m <= |job.inputs|
    ensures Collected(files, r, m) == Bucket(Everything(job, m), job.hash, job.nReduce, r)
  {
    if m > 0 {
      CollectedIsBucket(job, files, r, m - 1);
      assert HasBucket(job, files, m - 1, r);
      BucketConcat(Everything(job, m - 1), Mapped(job, m - 1), job.hash, job.nReduce, r);
    }
  }

  /** A bucket holds all values of its own keys and none of any other key. */
  lemma {:induction false} BucketValues(kva: seq<KeyValue>, hash: string -> nat, n: nat, r: nat, key: string)
    requires n > 0
    ensures ValuesOf(Bucket(kva, hash, n, r), key) ==
      if hash(key) % n == r then ValuesOf(kva, key) else []
    ensures key in KeysOf(Bucket(kva, hash, n, r)) <==> key in KeysOf(kva) && hash(key) % n == r
  {
    if kva != [] {
      var init, x := kva[..|kva| - 1], kva[|kva| - 1];
      BucketValues(init, hash, n, r, key);
      assert kva == init + [x];
      KeysOfConcat(init, [x]);
      var b := Bucket(init, hash, n, r);
      KeysOfConcat(b, [x]);
      ValuesOfConcat(b, [x], key);
      ValuesOfConcat(init, [x], key);
      assert KeysOf([x]) == {x.key} by { assert [x][0].key == x.key; }
    }
  }

  // ---- Refinement ----------------------------------------------------------------

  /** The lines of all reduce outputs together. */
  ghost function Combined(outs: seq<seq<Line>>): seq<Line> {
    if outs == [] then [] else Combined(outs[..|outs| - 1]) + outs[|outs| - 1]
  }

  /** The reference lines whose keys hash to a reduce task below `n`. */
  ghost function LinesBelow(kva: seq<KeyValue>, job: Job, n: nat): (r: set<Line>)
    requires job.nReduce > 0
    ensures forall l :: l in r <==> l in Lines(kva, job.reduce) && job.hash(l.key) % job.nReduce < n
  {
    set l | l in Lines(kva, job.reduce) && job.hash(l.key) % job.nReduce < n
  }

  lemma AllLinesBelow(kva: seq<KeyValue>, job: Job)
    requires job.nReduce > 0
    ensures LinesBelow(kva, job, job.nReduce) == Lines(kva, job.reduce)
  {
  }

  lemma BucketLines(kva: seq<KeyValue>, job: Job, r: nat)
    requires job.nReduce > 0
    ensures LinesBelow(kva, job, r) !! Lines(Bucket(kva, job.hash, job.nReduce, r), job.reduce)
    ensures LinesBelow(kva, job, r + 1) ==
      LinesBelow(kva, job, r) + Lines(Bucket(kva, job.hash, job.nReduce, r), job.reduce)
  {
    var b := Bucket(kva, job.hash, job.nReduce, r);
    forall l: Line
      ensures l in Lines(b, job.reduce) <==>
        l in Lines(kva, job.reduce) && job.hash(l.key) % job.nReduce == r
    {
      BucketValues(kva, job.hash, job.nReduce, r, l.key);
    }
  }

  lemma AddOutput(kva: seq<KeyValue>, job: Job, before: seq<Line>, out: seq<Line>, r: nat)
    requires job.nReduce > 0
    requires multiset(before) == multiset(LinesBelow(kva, job, r))
    requires multiset(out) == multiset(Lines(Bucket(kva, job.hash, job.nReduce, r), job.reduce))
    ensures multiset(before + out) == multiset(LinesBelow(kva, job, r + 1))
  {
    BucketLines(kva, job, r);
    DisjointSum(LinesBelow(kva, job, r), Lines(Bucket(kva, job.hash, job.nReduce, r), job.reduce));
  }

  lemma {:induction false} CombinedLines(kva: seq<KeyValue>, job: Job, outs: seq<seq<Line>>)
    requires ValidJob(job)
    requires forall r: nat :: r < |outs| ==>
      IsOutput(outs[r], Bucket(kva, job.hash, job.nReduce, r), job.reduce)
    ensures multiset(Combined(outs)) == multiset(LinesBelow(kva, job, |outs|))
    decreases |outs|
  {
    if outs == [] {
      assert LinesBelow(kva, job, 0) == {};
    } else {
      var init, r: nat := outs[..|outs| - 1], |outs| - 1;
      CombinedLines(kva, job, init);
      OutputIsReference(outs[r], Bucket(kva, job.hash, job.nReduce, r), job.reduce);
      AddOutput(kva, job, Combined(init), outs[r], r);
    }
  }

  lemma DisjointSum(a: set<Line>, b: set<Line>)
    requires a !! b
    ensures multiset(a + b) == multiset(a) + multiset(b)
  {
  }

  lemma OutputIsReference(lines: seq<Line>, kva: seq<KeyValue>, f: Reduce)
    requires IsOutput(lines, kva, f) && IgnoresOrder(f)
    ensures multiset(lines) == multiset(Lines(kva, f))
  {
    var s :| IsSortOf(s, kva) && lines == GroupFrom(s, f, 0);
    GroupingIsReference(kva, s, f);
  }

  lemma Twice(lines: seq<Line>, i: nat, j: nat)
    requires i < j < |lines|
    ensures lines[i] == lines[j] ==> multiset(lines)[lines[i]] >= 2
  {
    var rest := lines[..j] + lines[j + 1..];
    assert lines == lines[..j] + [lines[j]] + lines[j + 1..];
    assert multiset(lines) == multiset(rest) + multiset{lines[j]};
    assert rest[i] == lines[i] && rest[i] in multiset(rest);
  }

  lemma OnePerKey(lines: seq<Line>, kva: seq<KeyValue>, f: Reduce, i: nat, j: nat)
    requires multiset(lines) == multiset(Lines(kva, f)) && i < j < |lines|
    ensures lines[i].key != lines[j].key
  {
    assert lines[i] in multiset(lines) && lines[j] in multiset(lines);
    Twice(lines, i, j);
  }

  /** MapReduce refines the sequential program: when every intermediate file is written, the
      outputs of all reduce tasks together are, as a multiset of lines, the output of the
      sequential program, and have one line for each distinct key. */
  lemma MapReduceRefinesSequential(job: Job, files: Files, outs: seq<seq<Line>>, sequential: seq<Line>)
    requires ValidJob(job) && AllWritten(job, files) && |outs| == job.nReduce
    requires forall r: nat :: r < |outs| ==>
      IsOutput(outs[r], Collected(files, r, |job.inputs|), job.reduce)
    requires IsOutput(sequential, Everything(job, |job.inputs|), job.reduce)
    ensures multiset(Combined(outs)) == multiset(sequential)
    ensures multiset(sequential) == multiset(Lines(Everything(job, |job.inputs|), job.reduce))
    ensures forall i, j :: 0 <= i < j < |Combined(outs)| ==>
      Combined(outs)[i].key != Combined(outs)[j].key
  {
    var all := Everything(job, |job.inputs|);
    forall r: nat | r < |outs|
      ensures IsOutput(outs[r], Bucket(all, job.hash, job.nReduce, r), job.reduce)
    {
      CollectedIsBucket(job, files, r, |job.inputs|);
    }
    CombinedLines(all, job, outs);
    OutputIsReference(sequential, all, job.reduce);
    AllLinesBelow(all, job);
    forall i, j | 0 <= i < j < |Combined(outs)|
      ensures Combined(outs)[i].key != Combined(outs)[j].key
    {
      OnePerKey(Combined(outs), all, job.reduce, i, j);
    }
  }

  // ---- The output files exactly --------------------------------------------------

  /** Every output has its lines in the order of their keys. */
  lemma OutputAscends(lines: seq<Line>, kva: seq<KeyValue>, f: Reduce)
    requires IsOutput(lines, kva, f)
    ensures KeysAscend(lines)
  {
    var s :| IsSortOf(s, kva) && lines == GroupFrom(s, f, 0);
    GroupsAscend(s, f, 0);
  }

  /** However the unstable sort orders equal keys, the output is the same. */
  lemma OutputIsUnique(a: seq<Line>, b: seq<Line>, kva: seq<KeyValue>, f: Reduce)
    requires IsOutput(a, kva, f) && IsOutput(b, kva, f) && IgnoresOrder(f)
    ensures a == b
  {
    OutputIsReference(a, kva, f);
    OutputIsReference(b, kva, f);
    OutputAscends(a, kva, f);
    OutputAscends(b, kva, f);
    AscendingUnique(a, b);
  }

  /** The lines whose keys hash to reduce task `r`, in order. */
  ghost function Selected(lines: seq<Line>, job: Job, r: nat): seq<Line>
    requires job.nReduce > 0
  {
    if lines == [] then []
    else
      var rest := Selected(lines[..|lines| - 1], job, r);
      if job.hash(lines[|lines| - 1].key) % job.nReduce == r then rest + [lines[|lines| - 1]] else rest
  }

  lemma {:induction false} SelectedCount(lines: seq<Line>, job: Job, r: nat, l: Line)
    requires job.nReduce > 0
    ensures multiset(Selected(lines, job, r))[l] ==
      if job.hash(l.key) % job.nReduce == r then multiset(lines)[l] else 0
  {
    if lines != [] {
      SelectedCount(lines[..|lines| - 1], job, r, l);
      assert lines == lines[..|lines| - 1] + [lines[|lines| - 1]];
    }
  }

  lemma SelectedIn(lines: seq<Line>, job: Job, r: nat, l: Line)
    requires job.nReduce > 0 && l in Selected(lines, job, r)
    ensures l in lines
  {
    SelectedCount(lines, job, r, l);
    assert l in multiset(Selected(lines, job, r));
    assert l in multiset(lines);
  }

  lemma {:induction false} SelectedAscends(lines: seq<Line>, job: Job, r: nat)
    requires job.nReduce > 0 && KeysAscend(lines)
    ensures KeysAscend(Selected(lines, job, r))
  {
    if lines != [] {
      var init := lines[..|lines| - 1];
      WithoutLast(lines);
      SelectedAscends(init, job, r);
      forall l | l in Selected(init, job, r)
        ensures AtMost(l.key, lines[|lines| - 1].key) && l.key != lines[|lines| - 1].key
      {
        SelectedIn(init, job, r, l);
      }
      WithLast(Selected(init, job, r), lines[|lines| - 1]);
    }
  }

  /** The output of reduce task `r` is exactly the sequential program's output without the lines
      whose keys belong to other reduce tasks. */
  lemma OutputIsSelection(job: Job, kva: seq<KeyValue>, out: seq<Line>, sequential: seq<Line>, r: nat)
    requires ValidJob(job) && IsOutput(sequential, kva, job.reduce)
    requires IsOutput(out, Bucket(kva, job.hash, job.nReduce, r), job.reduce)
    ensures out == Selected(sequential, job, r)
  {
    var b := Bucket(kva, job.hash, job.nReduce, r);
    OutputIsReference(out, b, job.reduce);
    OutputIsReference(sequential, kva, job.reduce);
    forall l ensures multiset(out)[l] == multiset(Selected(sequential, job, r))[l] {
      SelectedCount(sequential, job, r, l);
      BucketValues(kva, job.hash, job.nReduce, r, l.key);
    }
    OutputAscends(out, b, job.reduce);
    OutputAscends(sequential, kva, job.reduce);
    SelectedAscends(sequential, job, r);
    AscendingUnique(out, Selected(sequential, job, r));
  }
}
