/** That the lock is never lost: whatever has happened so far, the run can go on so that any
    given client gets the lock. */
module LockProgress {
  import opened KvServer
  import opened KvModel
  import opened KvNetwork
  import opened LockService
  import opened LockSafety

  ghost predicate RunTo(l: string, run: seq<Locks>, s: Locks) {
    IsLockRun(l, run) && run[|run| - 1] == s
  }

  /** `run'` goes on from `run` and ends in `s`, with the same clients as `before`. */
  ghost predicate GoesOn(l: string, run: seq<Locks>, before: Locks, run': seq<Locks>, s: Locks) {
    RunTo(l, run', s) && run <= run' && s.pcs.Keys == before.pcs.Keys
  }

  lemma Extend(l: string, run: seq<Locks>, s: Locks, m: Move) returns (run': seq<Locks>, s': Locks)
    requires RunTo(l, run, s) && CanMove(l, s, m)
    ensures s' == AfterMove(l, s, m) && GoesOn(l, run, s, run', s')
  {
    s' := AfterMove(l, s, m);
    run' := run + [s'];
    assert LockNext(l, s, s');
    forall k: nat | 0 < k < |run'| ensures MoveAt(l, run', k) {
      if k < |run| { assert MoveAt(l, run, k); }
    }
    MoveKeepsClients(l, s, m);
  }

  lemma MoveKeepsClients(l: string, s: Locks, m: Move)
    requires CanMove(l, s, m)
    ensures AfterMove(l, s, m).pcs.Keys == s.pcs.Keys
  {
  }

  // ---- The stored value is free or a client --------------------------------------

  ghost predicate OwnerKnown(l: string, s: Locks) {
    ValueOf(s.kv.data, l) == "" || ValueOf(s.kv.data, l) in s.pcs
  }

  lemma OwnerAfterExecute(l: string, s: Locks, vals: seq<string>, a: Action)
    requires LockInv(l, s, vals) && OwnerKnown(l, s) && a.Execute? && Possible(s.kv, a)
    ensures OwnerKnown(l, s.(kv := Apply(s.kv, a)))
  {
    ServeFacts(s.kv.data, s.kv.calls[a.id].inp);
    if s.kv.calls[a.id].inp.key == l && TakesEffect(s.kv.data, s.kv.calls[a.id].inp) {
      var d := ChangerIsOwner(l, s, vals, a);
      assert ClientOk(l, s.kv, vals, d, s.pcs[d]);
    }
  }

  lemma OwnerAfterMove(l: string, s: Locks, vals: seq<string>, m: Move)
    requires LockInv(l, s, vals) && OwnerKnown(l, s) && CanMove(l, s, m)
    ensures OwnerKnown(l, AfterMove(l, s, m))
  {
    if m.Network? && m.a.Execute? {
      OwnerAfterExecute(l, s, vals, m.a);
    } else {
      MoveKeepsClients(l, s, m);
      assert AfterMove(l, s, m).kv.data == s.kv.data;
    }
  }

  lemma {:induction false} OwnerIsClient(l: string, run: seq<Locks>, k: nat)
    requires IsLockRun(l, run) && k < |run|
    ensures OwnerKnown(l, run[k])
  {
    if k > 0 {
      OwnerIsClient(l, run, k - 1);
      var vals := RunLocks(l, run, k - 1);
      var m := MoveOf(l, run, k);
      OwnerAfterMove(l, run[k - 1], vals, m);
    }
  }

  // ---- Getting an answer ---------------------------------------------------------

  lemma Waits(l: string, run: seq<Locks>, s: Locks, d: string) returns (vals: seq<string>)
    requires RunTo(l, run, s) && d in s.pcs
    ensures LockInv(l, s, vals) && ClientOk(l, s.kv, vals, d, s.pcs[d])
    ensures WaitsFor(s.pcs[d]).Some? ==> IsPending(s.kv, s.pcs[d].id)
  {
    vals := RunLocks(l, run, |run| - 1);
    assert ClientOk(l, s.kv, vals, d, s.pcs[d]);
  }

  /** The call that client `d` waits for is sent again, served and answered. */
  lemma Answer(l: string, run: seq<Locks>, s: Locks, d: string) returns (run': seq<Locks>, s': Locks)
    requires RunTo(l, run, s) && d in s.pcs && WaitsFor(s.pcs[d]).Some?
    ensures GoesOn(l, run, s, run', s') && s'.pcs == s.pcs
    ensures var id := s.pcs[d].id;
      && IsPending(s.kv, id) && IsPending(s'.kv, id) && s'.kv.calls[id].inp == s.kv.calls[id].inp
      && s'.kv.data == Serve(s.kv.data, s.kv.calls[id].inp).0
      && Waiting(s', d, Serve(s.kv.data, s.kv.calls[id].inp).1)
  {
    var vals := Waits(l, run, s, d);
    var id := s.pcs[d].id;
    run', s' := Extend(l, run, s, Network(Retry(id)));
    run', s' := Extend(l, run', s', Network(Execute(id, s'.kv.calls[id].status.attempt)));
  }

  /** Client `c` may take the lock: it is free or already its own. */
  ghost predicate Open(l: string, s: Locks, c: string) {
    c in s.pcs && ValueOf(s.kv.data, l) in ["", c]
  }

  lemma FromAcquireGet(l: string, run: seq<Locks>, s: Locks, c: string) returns (run': seq<Locks>, s': Locks)
    requires RunTo(l, run, s) && Open(l, s, c) && s.pcs[c].AcquireGet?
    ensures GoesOn(l, run, s, run', s') && s'.pcs[c] == Held
  {
    var vals := Waits(l, run, s, c);
    run', s' := Answer(l, run, s, c);
    run', s' := Extend(l, run', s', GotForAcquire(c, Serve(s.kv.data, GetIn(l)).1));
    run', s' := CurrentPut(l, run', s', c);
    run', s' := Extend(l, run', s', PutForAcquire(c, KvOutput("", 0, OK)));
  }

  /** A Put on the lock key at its current version is answered OK. */
  lemma CurrentPut(l: string, run: seq<Locks>, s: Locks, c: string) returns (run': seq<Locks>, s': Locks)
    requires RunTo(l, run, s) && c in s.pcs && (s.pcs[c].AcquirePut? || s.pcs[c].ReleasePut?)
    requires s.pcs[c].id < |s.kv.calls| && s.kv.calls[s.pcs[c].id].inp.PutIn?
    requires s.kv.calls[s.pcs[c].id].inp.version == VersionOf(s.kv.data, l)
    ensures GoesOn(l, run, s, run', s') && s'.pcs == s.pcs
    ensures Waiting(s', c, KvOutput("", 0, OK)) && Outcome(s', c, KvOutput("", 0, OK)).err == OK
    ensures s.kv.calls[s.pcs[c].id].inp.key == l
    ensures ValueOf(s'.kv.data, l) == s.kv.calls[s.pcs[c].id].inp.value
  {
    var vals := Waits(l, run, s, c);
    ServeFacts(s.kv.data, s.kv.calls[s.pcs[c].id].inp);
    run', s' := Answer(l, run, s, c);
  }

  // ---- From wherever the client stands -------------------------------------------

  lemma FromIdle(l: string, run: seq<Locks>, s: Locks, c: string) returns (run': seq<Locks>, s': Locks)
    requires RunTo(l, run, s) && Open(l, s, c) && s.pcs[c].Idle?
    ensures GoesOn(l, run, s, run', s') && s'.pcs[c] == Held
  {
    run', s' := Extend(l, run, s, CallAcquire(c));
    run', s' := FromAcquireGet(l, run', s', c);
  }

  lemma FromAcquirePut(l: string, run: seq<Locks>, s: Locks, c: string) returns (run': seq<Locks>, s': Locks)
    requires RunTo(l, run, s) && Open(l, s, c) && s.pcs[c].AcquirePut?
    ensures GoesOn(l, run, s, run', s') && s'.pcs[c] == Held
  {
    var vals := Waits(l, run, s, c);
    var inp := s.kv.calls[s.pcs[c].id].inp;
    ServeFacts(s.kv.data, inp);
    run', s' := Answer(l, run, s, c);
    run', s' := Extend(l, run', s', PutForAcquire(c, Serve(s.kv.data, inp).1));
    if s'.pcs[c] != Held {
      run', s' := FromAcquireGet(l, run', s', c);
    }
  }

  lemma FromReleasePut(l: string, run: seq<Locks>, s: Locks, c: string) returns (run': seq<Locks>, s': Locks)
    requires RunTo(l, run, s) && Open(l, s, c) && s.pcs[c].ReleasePut?
    ensures GoesOn(l, run, s, run', s') && s'.pcs[c] == Held
  {
    var vals := Waits(l, run, s, c);
    var inp := s.kv.calls[s.pcs[c].id].inp;
    ServeFacts(s.kv.data, inp);
    run', s' := Answer(l, run, s, c);
    run', s' := Extend(l, run', s', PutForRelease(c, Serve(s.kv.data, inp).1));
    run', s' := FromIdle(l, run', s', c);
  }

  /** A releasing client reads the lock and passes the current version on. */
  lemma ReadForRelease(l: string, run: seq<Locks>, s: Locks, c: string) returns (run': seq<Locks>, s': Locks)
    requires RunTo(l, run, s) && c in s.pcs && s.pcs[c].ReleaseGet?
    ensures GoesOn(l, run, s, run', s') && s'.kv.data == s.kv.data
    ensures s'.pcs[c].ReleasePut? && s'.pcs[c].id < |s'.kv.calls|
    ensures s'.kv.calls[s'.pcs[c].id].inp == PutIn(l, "", VersionOf(s.kv.data, l))
  {
    var vals := Waits(l, run, s, c);
    run', s' := Answer(l, run, s, c);
    var out := Serve(s.kv.data, GetIn(l)).1;
    run', s' := Extend(l, run', s', GotForRelease(c, out));
  }

  /** A client for which the lock is free or its own can get it, wherever it stands. */
  lemma FromAnywhere(l: string, run: seq<Locks>, s: Locks, c: string) returns (run': seq<Locks>, s': Locks)
    requires RunTo(l, run, s) && Open(l, s, c)
    ensures GoesOn(l, run, s, run', s') && s'.pcs[c] == Held
  {
    match s.pcs[c]
    case Held => run', s' := run, s;
    case Idle => run', s' := FromIdle(l, run, s, c);
    case AcquireGet(_) => run', s' := FromAcquireGet(l, run, s, c);
    case AcquirePut(_) => run', s' := FromAcquirePut(l, run, s, c);
    case ReleasePut(_) => run', s' := FromReleasePut(l, run, s, c);
    case ReleaseGet(_) =>
      run', s' := ReadForRelease(l, run, s, c);
      run', s' := FromReleasePut(l, run', s', c);
  }

  /** The owner finishes what it does and releases the lock. */
  lemma OwnerReleases(l: string, run: seq<Locks>, s: Locks, o: string) returns (run': seq<Locks>, s': Locks)
    requires RunTo(l, run, s) && Open(l, s, o)
    ensures GoesOn(l, run, s, run', s') && ValueOf(s'.kv.data, l) == ""
  {
    run', s' := FromAnywhere(l, run, s, o);
    run', s' := Extend(l, run', s', CallRelease(o));
    run', s' := ReadForRelease(l, run', s', o);
    run', s' := CurrentPut(l, run', s', o);
  }

  /** The lock is never lost: every run can go on so that client `c` holds the lock. */
  lemma LockReachable(l: string, run: seq<Locks>, c: string) returns (run': seq<Locks>)
    requires IsLockRun(l, run) && c in run[|run| - 1].pcs
    ensures IsLockRun(l, run') && run <= run'
    ensures var last := run'[|run'| - 1]; c in last.pcs && last.pcs[c] == Held
  {
    var s := run[|run| - 1];
    run' := run;
    OwnerIsClient(l, run, |run| - 1);
    var o := ValueOf(s.kv.data, l);
    if o != "" && o != c {
      run', s := OwnerReleases(l, run', s, o);
    }
    run', s := FromAnywhere(l, run', s, c);
  }
}
