/** Locks built on the clerk. Every client alternates Acquire and Release on one lock key,
    each under its own non-empty id, over a network that may even deliver a request after
    its clerk has given up on it. Other keys may be used freely by other clients. */
module LockService {
  import opened Common
  import opened KvServer
  import opened KvModel
  import opened KvNetwork

  // ---- The code of Acquire and Release -------------------------------------------

  /** Where Acquire stands: about to Get, about to Put with the version it read, or done. */
  datatype Point = AtGet | AtPut(version: nat) | Acquired

  /** Acquire tries to take a lock that is free or already carries its own id. */
  function AfterGet(clientId: string, got: KvOutput): Point {
    if got.value == "" || got.value == clientId then AtPut(got.version) else AtGet
  }

  function AfterPut(put: KvOutput): Point {
    if put.err == OK then Acquired else AtGet
  }

  /** Where Acquire stands once the clerk has given it these results. */
  ghost function PointAfter(clientId: string, results: seq<KvOutput>): Point {
    if results == [] then AtGet
    else
      var last := results[|results| - 1];
      match PointAfter(clientId, results[..|results| - 1])
      case AtGet => AfterGet(clientId, last)
      case AtPut(_) => AfterPut(last)
      case Acquired => Acquired
  }

  ghost predicate Makes(l: string, clientId: string, at: Point, call: KvInput) {
    match at
    case AtGet => call == GetIn(l)
    case AtPut(version) => call == PutIn(l, clientId, version)
    case Acquired => false
  }

  /** Each call is the one that Acquire makes after the results of the calls before it. */
  ghost predicate MakesAll(l: string, clientId: string, results: seq<KvOutput>, calls: seq<KvInput>) {
    && |calls| <= |results| + 1
    && forall k :: 0 <= k < |calls| ==> Makes(l, clientId, PointAfter(clientId, results[..k]), calls[k])
  }

  lemma NextPoint(clientId: string, results: seq<KvOutput>, k: nat)
    requires k < |results|
    ensures var at := PointAfter(clientId, results[..k]);
      PointAfter(clientId, results[..k + 1]) ==
        if at.AtGet? then AfterGet(clientId, results[k])
        else if at.AtPut? then AfterPut(results[k]) else Acquired
  {
    assert results[..k + 1][..k] == results[..k];
  }

  lemma NextCall(l: string, clientId: string, results: seq<KvOutput>, calls: seq<KvInput>, call: KvInput)
    requires MakesAll(l, clientId, results, calls) && |calls| <= |results|
    requires Makes(l, clientId, PointAfter(clientId, results[..|calls|]), call)
    ensures MakesAll(l, clientId, results, calls + [call])
  {
  }

  /** Acquire against any results of its successive clerk calls. It returns the calls it has
      made and whether it has the lock; if not, its last call is still unanswered. */
  method Acquire(l: string, clientId: string, results: seq<KvOutput>)
      returns (calls: seq<KvInput>, held: bool)
    ensures MakesAll(l, clientId, results, calls)
    ensures held <==> |calls| <= |results|
    ensures held ==> PointAfter(clientId, results[..|calls|]) == Acquired
  {
    calls := [];
    while true
      invariant |calls| <= |results| && PointAfter(clientId, results[..|calls|]) == AtGet
      invariant MakesAll(l, clientId, results, calls)
      decreases |results| - |calls|
    {
      NextCall(l, clientId, results, calls, GetIn(l));
      calls := calls + [GetIn(l)];
      if |calls| > |results| {
        return calls, false;
      }
      var got := results[|calls| - 1];
      NextPoint(clientId, results, |calls| - 1);
      if got.value == "" || got.value == clientId {
        NextCall(l, clientId, results, calls, PutIn(l, clientId, got.version));
        calls := calls + [PutIn(l, clientId, got.version)];
        if |calls| > |results| {
          return calls, false;
        }
        var put := results[|calls| - 1];
        NextPoint(clientId, results, |calls| - 1);
        if put.err == OK {
          return calls, true;
        }
      }
    }
  }

  /** Result `i` is the OK of a Put that carried the version at which the Get before it found
      the lock free or its own. */
  ghost predicate TakenAt(clientId: string, results: seq<KvOutput>, i: nat) {
    && 0 < i < |results| && results[i].err == OK
    && PointAfter(clientId, results[..i]) == AtPut(results[i - 1].version)
    && results[i - 1].value in ["", clientId]
  }

  lemma {:induction false} AcquiredMeans(clientId: string, results: seq<KvOutput>)
    ensures PointAfter(clientId, results) == Acquired <==> exists i: nat :: TakenAt(clientId, results, i)
  {
    if results != [] {
      var n := |results| - 1;
      var init := results[..n];
      AcquiredMeans(clientId, init);
      forall i: nat | i < n ensures TakenAt(clientId, init, i) <==> TakenAt(clientId, results, i) {
        assert init[..i] == results[..i];
      }
      if PointAfter(clientId, init).AtPut? {
        PutFollowsGet(clientId, init);
        assert TakenAt(clientId, results, n) <==> results[n].err == OK;
      }
      assert (exists i: nat :: TakenAt(clientId, results, i)) <==>
        (exists i: nat :: TakenAt(clientId, init, i)) || TakenAt(clientId, results, n);
    }
  }

  lemma PutFollowsGet(clientId: string, results: seq<KvOutput>)
    requires PointAfter(clientId, results).AtPut?
    ensures results != []
    ensures var got := results[|results| - 1];
      PointAfter(clientId, results) == AtPut(got.version) && got.value in ["", clientId]
  {
  }

  /** The Put that Release makes after its Get, if it finds itself the owner. */
  function ReleasePutFor(l: string, clientId: string, got: KvOutput): Option<KvInput> {
    if got.value == clientId then Some(PutIn(l, "", got.version)) else None
  }

  /** Release after its Get: it puts the empty value, with the version it read, exactly if it
      finds itself the owner, and otherwise does nothing. */
  method Release(l: string, clientId: string, got: KvOutput) returns (put: Option<KvInput>)
    ensures put.Some? <==> got.value == clientId
    ensures put.Some? ==> put.value == PutIn(l, "", got.version)
    ensures put == ReleasePutFor(l, clientId, got)
  {
    if got.value == clientId {
      return Some(PutIn(l, "", got.version));
    }
    return None;
  }

  // ---- The system of clients -----------------------------------------------------

  /** Where a client is; `id` is the clerk operation it waits for. */
  datatype Pc =
    | Idle
    | AcquireGet(id: nat)
    | AcquirePut(id: nat)
    | Held
    | ReleaseGet(id: nat)
    | ReleasePut(id: nat)

  datatype Locks = Locks(kv: Sys, pcs: map<string, Pc>)

  datatype Move =
    | Network(a: Action)
    | CallAcquire(c: string)
    | GotForAcquire(c: string, out: KvOutput)
    | PutForAcquire(c: string, out: KvOutput)
    | CallRelease(c: string)
    | GotForRelease(c: string, out: KvOutput)
    | PutForRelease(c: string, out: KvOutput)

  ghost predicate IsInit(s: Locks) {
    s.kv == Init() && "" !in s.pcs && forall c :: c in s.pcs ==> s.pcs[c] == Idle
  }

  // ---- The clients' steps --------------------------------------------------------

  ghost function Invoked(kv: Sys, inp: KvInput): Sys {
    Apply(kv, Invoke(inp))
  }

  /** The operation that client `c` waits for. */
  ghost function WaitsFor(pc: Pc): Option<nat> {
    match pc
    case Idle => None
    case Held => None
    case _ => Some(pc.id)
  }

  ghost predicate LockCall(s: Locks, id: nat) {
    exists c :: c in s.pcs && WaitsFor(s.pcs[c]) == Some(id)
  }

  /** The network, the server and clerks act on their own, and other clients call and return,
      but nobody else uses the lock key or takes a locker's reply. */
  ghost predicate Foreign(l: string, s: Locks, a: Action) {
    && Possible(s.kv, a)
    && (a.Invoke? ==> a.inp.key != l)
    && (a.Receive? ==> !LockCall(s, a.id))
  }

  ghost predicate Waiting(s: Locks, c: string, out: KvOutput) {
    && c in s.pcs && WaitsFor(s.pcs[c]).Some?
    && Possible(s.kv, Receive(WaitsFor(s.pcs[c]).value, out))
  }

  /** What the clerk hands to client `c`. */
  ghost function Outcome(s: Locks, c: string, out: KvOutput): KvOutput
    requires Waiting(s, c, out)
  {
    var call := s.kv.calls[WaitsFor(s.pcs[c]).value];
    Result(call.inp, call.status.attempt, out)
  }

  ghost function Received(s: Locks, c: string, out: KvOutput): Sys
    requires Waiting(s, c, out)
  {
    Apply(s.kv, Receive(WaitsFor(s.pcs[c]).value, out))
  }

  ghost predicate CanMove(l: string, s: Locks, m: Move) {
    match m
    case Network(a) => Foreign(l, s, a)
    case CallAcquire(c) => c in s.pcs && s.pcs[c].Idle?
    case GotForAcquire(c, out) => Waiting(s, c, out) && s.pcs[c].AcquireGet?
    case PutForAcquire(c, out) => Waiting(s, c, out) && s.pcs[c].AcquirePut?
    case CallRelease(c) => c in s.pcs && s.pcs[c].Held?
    case GotForRelease(c, out) => Waiting(s, c, out) && s.pcs[c].ReleaseGet?
    case PutForRelease(c, out) => Waiting(s, c, out) && s.pcs[c].ReleasePut?
  }

  ghost function Then(s: Locks, c: string, kv: Sys, inp: KvInput, pc: Pc): Locks {
    Locks(Invoked(kv, inp), s.pcs[c := pc])
  }

  /** Client `c` goes on with Acquire at the given point. */
  ghost function Acquiring(l: string, s: Locks, c: string, kv: Sys, at: Point): Locks {
    match at
    case AtGet => Then(s, c, kv, GetIn(l), AcquireGet(|kv.calls|))
    case AtPut(version) => Then(s, c, kv, PutIn(l, c, version), AcquirePut(|kv.calls|))
    case Acquired => Locks(kv, s.pcs[c := Held])
  }

  /** A client's code between two clerk calls touches nothing shared, so taking a reply and
      making the next call is one step; the new request may still travel arbitrarily long. */
  ghost function AfterMove(l: string, s: Locks, m: Move): Locks
    requires CanMove(l, s, m)
  {
    match m
    case Network(a) => s.(kv := Apply(s.kv, a))
    case CallAcquire(c) => Acquiring(l, s, c, s.kv, AtGet)
    case GotForAcquire(c, out) =>
      Acquiring(l, s, c, Received(s, c, out), AfterGet(c, Outcome(s, c, out)))
    case PutForAcquire(c, out) =>
      Acquiring(l, s, c, Received(s, c, out), AfterPut(Outcome(s, c, out)))
    case CallRelease(c) => Then(s, c, s.kv, GetIn(l), ReleaseGet(|s.kv.calls|))
    case GotForRelease(c, out) =>
      var kv, put := Received(s, c, out), ReleasePutFor(l, c, Outcome(s, c, out));
      if put.Some? then Then(s, c, kv, put.value, ReleasePut(|kv.calls|)) else Locks(kv, s.pcs[c := Idle])
    case PutForRelease(c, out) => Locks(Received(s, c, out), s.pcs[c := Idle])
  }

  ghost predicate LockNext(l: string, s: Locks, s': Locks) {
    exists m :: CanMove(l, s, m) && s' == AfterMove(l, s, m)
  }

  ghost predicate MoveAt(l: string, run: seq<Locks>, k: nat)
    requires 0 < k < |run|
  {
    LockNext(l, run[k - 1], run[k])
  }

  ghost predicate IsLockRun(l: string, run: seq<Locks>) {
    && run != []
    && IsInit(run[0])
    && forall k: nat :: 0 < k < |run| ==> MoveAt(l, run, k)
  }
}
