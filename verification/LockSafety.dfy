/** Mutual exclusion of the locks, and that a holder's Release frees the lock. */
module LockSafety {
  import opened Common
  import opened KvServer
  import opened KvModel
  import opened KvNetwork
  import opened LockService

  // ---- The lock key at the server ------------------------------------------------

  /** `vals[v]` is the value of the lock key at version `v`. */
  ghost predicate ValuesOk(l: string, data: Store, vals: seq<string>) {
    && |vals| == VersionOf(data, l) + 1
    && vals[0] == ""
    && vals[VersionOf(data, l)] == ValueOf(data, l)
  }

  ghost predicate CallOk(l: string, kv: Sys, id: nat)
    requires id < |kv.calls|
  {
    kv.calls[id].inp.key == l && kv.calls[id].inp.PutIn? ==>
      && kv.calls[id].inp.version <= VersionOf(kv.data, l)
      && (kv.calls[id].status.Returned? ==> kv.calls[id].inp.version < VersionOf(kv.data, l))
  }

  ghost predicate AnswerOk(l: string, kv: Sys, vals: seq<string>, m: Msg)
    requires m.Rep? && m.id < |kv.calls|
  {
    kv.calls[m.id].inp.key == l ==>
      && (kv.calls[m.id].inp.PutIn? ==>
          && kv.calls[m.id].inp.version < VersionOf(kv.data, l)
          && (m.out.err == OK ==> m.id in kv.effects))
      && (kv.calls[m.id].inp.GetIn? ==>
          m.out.version < |vals| && vals[m.out.version] == m.out.value)
  }

  ghost predicate KvOk(l: string, kv: Sys, vals: seq<string>) {
    && ValidStore(kv.data) && MsgsOk(kv) && EffectsOk(kv)
    && ValuesOk(l, kv.data, vals)
    && (forall id: nat :: id < |kv.calls| ==> CallOk(l, kv, id))
    && (forall m :: m in kv.net && m.Rep? ==> AnswerOk(l, kv, vals, m))
  }

  /** The values after an action of the network or the server. */
  ghost function Grow(l: string, kv: Sys, a: Action, vals: seq<string>): seq<string>
    requires Possible(kv, a)
  {
    if a.Execute? && TakesEffect(kv.data, kv.calls[a.id].inp) && kv.calls[a.id].inp.key == l
    then vals + [kv.calls[a.id].inp.value] else vals
  }

  lemma ExecuteOk(l: string, kv: Sys, a: Action, vals: seq<string>)
    requires KvOk(l, kv, vals) && Possible(kv, a) && a.Execute?
    ensures KvOk(l, Apply(kv, a), Grow(l, kv, a, vals))
  {
    var kv', vals' := Apply(kv, a), Grow(l, kv, a, vals);
    MsgsKept(kv, a);
    EffectsKept(kv, a);
    ServeFacts(kv.data, kv.calls[a.id].inp);
    assert MsgOk(kv, Req(a.id, a.attempt));
    forall id: nat | id < |kv'.calls| ensures CallOk(l, kv', id) {
      assert CallOk(l, kv, id);
    }
    forall m | m in kv'.net && m.Rep? ensures AnswerOk(l, kv', vals', m) {
      if m in kv.net {
        assert MsgOk(kv, m) && AnswerOk(l, kv, vals, m);
      } else {
        assert CallOk(l, kv, a.id);
      }
    }
  }

  lemma QuietOk(l: string, kv: Sys, a: Action, vals: seq<string>)
    requires KvOk(l, kv, vals) && Possible(kv, a) && !a.Execute?
    requires a.Invoke? && a.inp.key == l && a.inp.PutIn? ==> a.inp.version <= VersionOf(kv.data, l)
    ensures KvOk(l, Apply(kv, a), vals)
  {
    var kv' := Apply(kv, a);
    MsgsKept(kv, a);
    EffectsKept(kv, a);
    if a.Receive? {
      var m := Rep(a.id, kv.calls[a.id].status.attempt, a.out);
      assert MsgOk(kv, m) && AnswerOk(l, kv, vals, m);
    }
    forall id: nat | id < |kv'.calls| ensures CallOk(l, kv', id) {
      if id < |kv.calls| { assert CallOk(l, kv, id); }
    }
    forall m | m in kv'.net && m.Rep? ensures AnswerOk(l, kv', vals, m) {
      assert MsgOk(kv, m) && AnswerOk(l, kv, vals, m);
    }
  }

  // ---- Where the clients stand ---------------------------------------------------

  /** The call that a client waits for is the one its code makes at that point. */
  ghost predicate PcOk(l: string, kv: Sys, vals: seq<string>, c: string, pc: Pc) {
    WaitsFor(pc).Some? ==>
      && IsPending(kv, pc.id)
      && var inp := kv.calls[pc.id].inp;
      && inp.key == l
      && (pc.AcquireGet? || pc.ReleaseGet? ==> inp.GetIn?)
      && (pc.AcquirePut? ==>
          inp.PutIn? && inp.value == c && inp.version < |vals| && vals[inp.version] in ["", c])
      && (pc.ReleasePut? ==>
          inp.PutIn? && inp.value == "" && inp.version < |vals| && vals[inp.version] == c)
  }

  /** From the moment its Put takes effect until its release does, a client owns the lock. */
  ghost predicate Owns(kv: Sys, pc: Pc) {
    || pc.Held? || pc.ReleaseGet?
    || (pc.AcquirePut? && pc.id in kv.effects)
    || (pc.ReleasePut? && pc.id !in kv.effects)
  }

  /** A releasing owner reads, and then passes on, the current version. */
  ghost predicate ReleaseOk(l: string, kv: Sys, c: string, pc: Pc)
    requires pc.ReleasePut? ==> IsPending(kv, pc.id) && kv.calls[pc.id].inp.PutIn?
  {
    && (pc.ReleaseGet? ==> forall m :: m in kv.net && m.Rep? && m.id == pc.id ==>
        m.out.value == c && m.out.version == VersionOf(kv.data, l))
    && (pc.ReleasePut? && pc.id !in kv.effects ==> kv.calls[pc.id].inp.version == VersionOf(kv.data, l))
  }

  ghost predicate ClientOk(l: string, kv: Sys, vals: seq<string>, c: string, pc: Pc) {
    && PcOk(l, kv, vals, c, pc)
    && (Owns(kv, pc) ==> ValueOf(kv.data, l) == c)
    && ReleaseOk(l, kv, c, pc)
  }

  /** A Put on the lock key that has not returned belongs to a client waiting for it. */
  ghost predicate PutOwned(l: string, s: Locks, id: nat)
    requires id < |s.kv.calls|
  {
    s.kv.calls[id].inp.key == l && s.kv.calls[id].inp.PutIn? && s.kv.calls[id].status.Pending? ==>
      exists c :: c in s.pcs && (s.pcs[c].AcquirePut? || s.pcs[c].ReleasePut?) && s.pcs[c].id == id
  }

  ghost predicate ClientsOk(l: string, s: Locks, vals: seq<string>) {
    && "" !in s.pcs
    && (forall c :: c in s.pcs ==> ClientOk(l, s.kv, vals, c, s.pcs[c]))
    && (forall c, d :: c in s.pcs && d in s.pcs && c != d && WaitsFor(s.pcs[c]).Some? ==>
        WaitsFor(s.pcs[c]) != WaitsFor(s.pcs[d]))
    && (forall id: nat :: id < |s.kv.calls| ==> PutOwned(l, s, id))
  }

  ghost predicate LockInv(l: string, s: Locks, vals: seq<string>) {
    KvOk(l, s.kv, vals) && ClientsOk(l, s, vals)
  }

  /** Only the client that waits for it changes the lock key, and while another client owns
      the lock it cannot. */
  lemma ChangerIsOwner(l: string, s: Locks, vals: seq<string>, a: Action) returns (d: string)
    requires LockInv(l, s, vals) && a.Execute? && Possible(s.kv, a)
    requires s.kv.calls[a.id].inp.key == l && TakesEffect(s.kv.data, s.kv.calls[a.id].inp)
    ensures d in s.pcs && (s.pcs[d].AcquirePut? || s.pcs[d].ReleasePut?) && s.pcs[d].id == a.id
    ensures a.id !in s.kv.effects
    ensures forall c :: c in s.pcs && c != d ==> !Owns(s.kv, s.pcs[c])
    ensures s.pcs[d].AcquirePut? ==> s.kv.calls[a.id].inp.value == d
  {
    ServeFacts(s.kv.data, s.kv.calls[a.id].inp);
    assert CallOk(l, s.kv, a.id) && PutOwned(l, s, a.id);
    if a.id in s.kv.effects { assert false; }
    d :| d in s.pcs && (s.pcs[d].AcquirePut? || s.pcs[d].ReleasePut?) && s.pcs[d].id == a.id;
    assert ClientOk(l, s.kv, vals, d, s.pcs[d]);
    forall c | c in s.pcs && c != d ensures !Owns(s.kv, s.pcs[c]) {
      assert ClientOk(l, s.kv, vals, c, s.pcs[c]);
    }
  }

  // ---- Steps of the network and the server ---------------------------------------

  lemma ExecuteClient(l: string, s: Locks, vals: seq<string>, a: Action, c: string)
    requires LockInv(l, s, vals) && a.Execute? && Possible(s.kv, a) && c in s.pcs
    ensures ClientOk(l, Apply(s.kv, a), Grow(l, s.kv, a, vals), c, s.pcs[c])
  {
    ServeFacts(s.kv.data, s.kv.calls[a.id].inp);
    assert ClientOk(l, s.kv, vals, c, s.pcs[c]);
    if s.kv.calls[a.id].inp.key == l && TakesEffect(s.kv.data, s.kv.calls[a.id].inp) {
      var d := ChangerIsOwner(l, s, vals, a);
      assert c != d ==> WaitsFor(s.pcs[c]) != WaitsFor(s.pcs[d]);
    }
  }

  lemma ExecuteClients(l: string, s: Locks, vals: seq<string>, a: Action)
    requires LockInv(l, s, vals) && a.Execute? && Possible(s.kv, a)
    ensures LockInv(l, s.(kv := Apply(s.kv, a)), Grow(l, s.kv, a, vals))
  {
    var s' := s.(kv := Apply(s.kv, a));
    ExecuteOk(l, s.kv, a, vals);
    forall c | c in s'.pcs ensures ClientOk(l, s'.kv, Grow(l, s.kv, a, vals), c, s'.pcs[c]) {
      ExecuteClient(l, s, vals, a, c);
    }
    forall id: nat | id < |s'.kv.calls| ensures PutOwned(l, s', id) {
      assert PutOwned(l, s, id);
    }
  }

  lemma ForeignClients(l: string, s: Locks, vals: seq<string>, a: Action)
    requires LockInv(l, s, vals) && Foreign(l, s, a) && !a.Execute?
    ensures LockInv(l, s.(kv := Apply(s.kv, a)), vals)
  {
    var s' := s.(kv := Apply(s.kv, a));
    QuietOk(l, s.kv, a, vals);
    forall c | c in s'.pcs ensures ClientOk(l, s'.kv, vals, c, s'.pcs[c]) {
      assert ClientOk(l, s.kv, vals, c, s.pcs[c]);
      assert WaitsFor(s.pcs[c]).Some? ==> LockCall(s, WaitsFor(s.pcs[c]).value);
    }
    forall id: nat | id < |s'.kv.calls| ensures PutOwned(l, s', id) {
      if id < |s.kv.calls| { assert PutOwned(l, s, id); }
    }
  }

  // ---- Steps of the clients ------------------------------------------------------

  /** When client `c` moves on, the Puts of the other clients stay theirs. */
  lemma PutStaysOwned(l: string, s: Locks, s': Locks, c: string, pc: Pc, i: nat)
    requires i < |s.kv.calls| && i < |s'.kv.calls| && PutOwned(l, s, i)
    requires s'.kv.calls[i].inp == s.kv.calls[i].inp
    requires s'.kv.calls[i].status.Pending? ==> s.kv.calls[i].status.Pending?
    requires c in s.pcs && s'.pcs == s.pcs[c := pc]
    requires WaitsFor(s.pcs[c]) == Some(i) ==> s'.kv.calls[i].status.Returned?
    ensures PutOwned(l, s', i)
  {
    if s'.kv.calls[i].inp.key == l && s'.kv.calls[i].inp.PutIn? && s'.kv.calls[i].status.Pending? {
      var d :| d in s.pcs && (s.pcs[d].AcquirePut? || s.pcs[d].ReleasePut?) && s.pcs[d].id == i;
      assert d in s'.pcs && s'.pcs[d] == s.pcs[d];
    }
  }

  /** Client `c` takes the reply it waits for and is then at `pc`, waiting for nothing. */
  lemma TakeReply(l: string, s: Locks, vals: seq<string>, c: string, out: KvOutput, pc: Pc)
    requires LockInv(l, s, vals) && Waiting(s, c, out) && WaitsFor(pc) == None
    requires pc.Held? ==> ValueOf(s.kv.data, l) == c
    ensures LockInv(l, Locks(Received(s, c, out), s.pcs[c := pc]), vals)
  {
    var id := WaitsFor(s.pcs[c]).value;
    var s' := Locks(Received(s, c, out), s.pcs[c := pc]);
    QuietOk(l, s.kv, Receive(id, out), vals);
    forall d | d in s'.pcs ensures ClientOk(l, s'.kv, vals, d, s'.pcs[d]) {
      assert ClientOk(l, s.kv, vals, d, s.pcs[d]);
      assert d != c ==> WaitsFor(s.pcs[c]) != WaitsFor(s.pcs[d]);
    }
    forall i: nat | i < |s'.kv.calls| ensures PutOwned(l, s', i) {
      PutStaysOwned(l, s, s', c, pc, i);
    }
  }

  /** Client `c`, waiting for nothing, makes a call on the lock key and is then at `pc`. */
  ghost predicate CanCall(l: string, s: Locks, vals: seq<string>, c: string, inp: KvInput, pc: Pc) {
    && c in s.pcs && WaitsFor(s.pcs[c]) == None && WaitsFor(pc) == Some(|s.kv.calls|)
    && inp.key == l && (inp.PutIn? <==> pc.AcquirePut? || pc.ReleasePut?)
    && (inp.PutIn? ==> inp.version <= VersionOf(s.kv.data, l) && inp.version < |vals|)
    && (pc.AcquirePut? ==> inp.value == c && vals[inp.version] in ["", c])
    && (pc.ReleasePut? ==> inp.value == "" && vals[inp.version] == c && inp.version == VersionOf(s.kv.data, l))
    && (pc.ReleaseGet? || pc.ReleasePut? ==> ValueOf(s.kv.data, l) == c)
  }

  lemma CallClients(l: string, s: Locks, vals: seq<string>, c: string, inp: KvInput, pc: Pc, d: string)
    requires LockInv(l, s, vals) && CanCall(l, s, vals, c, inp, pc) && d in s.pcs
    ensures var s' := Then(s, c, s.kv, inp, pc); ClientOk(l, s'.kv, vals, d, s'.pcs[d])
  {
    CallsGrow(s.kv);
    assert forall m :: m in s.kv.net ==> MsgOk(s.kv, m);
    assert ClientOk(l, s.kv, vals, d, s.pcs[d]);
  }

  lemma CallApart(l: string, s: Locks, vals: seq<string>, d: string)
    requires LockInv(l, s, vals) && d in s.pcs
    ensures WaitsFor(s.pcs[d]) != Some(|s.kv.calls|)
  {
    assert ClientOk(l, s.kv, vals, d, s.pcs[d]);
  }

  lemma MakeCall(l: string, s: Locks, vals: seq<string>, c: string, inp: KvInput, pc: Pc)
    requires LockInv(l, s, vals) && CanCall(l, s, vals, c, inp, pc)
    ensures LockInv(l, Then(s, c, s.kv, inp, pc), vals)
  {
    var s' := Then(s, c, s.kv, inp, pc);
    QuietOk(l, s.kv, Invoke(inp), vals);
    forall d | d in s'.pcs ensures ClientOk(l, s'.kv, vals, d, s'.pcs[d]) {
      CallClients(l, s, vals, c, inp, pc, d);
    }
    forall d | d in s.pcs ensures WaitsFor(s.pcs[d]) != Some(|s.kv.calls|) {
      CallApart(l, s, vals, d);
    }
    forall i: nat | i < |s'.kv.calls| ensures PutOwned(l, s', i) {
      if i < |s.kv.calls| {
        PutStaysOwned(l, s, s', c, pc, i);
      } else {
        assert c in s'.pcs && s'.pcs[c].id == i;
      }
    }
  }

  /** What a point of Acquire says about the lock key. */
  ghost predicate PointOk(l: string, kv: Sys, vals: seq<string>, c: string, at: Point) {
    && (at.AtPut? ==> at.version <= VersionOf(kv.data, l) && at.version < |vals| && vals[at.version] in ["", c])
    && (at.Acquired? ==> ValueOf(kv.data, l) == c)
  }

  lemma GoOnAcquiring(l: string, s: Locks, vals: seq<string>, c: string, out: KvOutput, at: Point)
    requires LockInv(l, s, vals) && Waiting(s, c, out) && PointOk(l, s.kv, vals, c, at)
    ensures LockInv(l, Acquiring(l, s, c, Received(s, c, out), at), vals)
  {
    if at.Acquired? {
      TakeReply(l, s, vals, c, out, Held);
    } else {
      var s' := Acquiring(l, s, c, Received(s, c, out), at);
      var mid := Locks(Received(s, c, out), s.pcs[c := Idle]);
      TakeReply(l, s, vals, c, out, Idle);
      MakeCall(l, mid, vals, c, if at.AtGet? then GetIn(l) else PutIn(l, c, at.version), s'.pcs[c]);
      assert s'.pcs == mid.pcs[c := s'.pcs[c]];
    }
  }

  /** What Acquire concludes from a reply is so. */
  lemma ReplyPoint(l: string, s: Locks, vals: seq<string>, c: string, out: KvOutput)
    requires LockInv(l, s, vals) && Waiting(s, c, out)
    ensures s.pcs[c].AcquireGet? ==> PointOk(l, s.kv, vals, c, AfterGet(c, Outcome(s, c, out)))
    ensures s.pcs[c].AcquirePut? ==> PointOk(l, s.kv, vals, c, AfterPut(Outcome(s, c, out)))
  {
    assert ClientOk(l, s.kv, vals, c, s.pcs[c]);
    var id := s.pcs[c].id;
    var rep := Rep(id, s.kv.calls[id].status.attempt, out);
    assert MsgOk(s.kv, rep) && AnswerOk(l, s.kv, vals, rep);
  }

  lemma AcquireMove(l: string, s: Locks, vals: seq<string>, m: Move)
    requires LockInv(l, s, vals) && CanMove(l, s, m)
    requires m.CallAcquire? || m.GotForAcquire? || m.PutForAcquire?
    ensures LockInv(l, AfterMove(l, s, m), vals)
  {
    match m
    case CallAcquire(c) => MakeCall(l, s, vals, c, GetIn(l), AcquireGet(|s.kv.calls|));
    case GotForAcquire(c, out) =>
      ReplyPoint(l, s, vals, c, out);
      GoOnAcquiring(l, s, vals, c, out, AfterGet(c, Outcome(s, c, out)));
    case PutForAcquire(c, out) =>
      ReplyPoint(l, s, vals, c, out);
      GoOnAcquiring(l, s, vals, c, out, AfterPut(Outcome(s, c, out)));
  }

  lemma ReleaseMove(l: string, s: Locks, vals: seq<string>, m: Move)
    requires LockInv(l, s, vals) && CanMove(l, s, m)
    requires m.CallRelease? || m.GotForRelease? || m.PutForRelease?
    ensures LockInv(l, AfterMove(l, s, m), vals)
  {
    var c, s' := m.c, AfterMove(l, s, m);
    assert ClientOk(l, s.kv, vals, c, s.pcs[c]);
    if m.CallRelease? {
      MakeCall(l, s, vals, c, GetIn(l), ReleaseGet(|s.kv.calls|));
    } else if m.PutForRelease? {
      TakeReply(l, s, vals, c, m.out, Idle);
    } else {
      ReadsItself(l, s, vals, c, m.out);
      TakeReply(l, s, vals, c, m.out, Held);
      var mid := Locks(Received(s, c, m.out), s.pcs[c := Held]);
      MakeCall(l, mid, vals, c, PutIn(l, "", m.out.version), s'.pcs[c]);
      assert s'.pcs == mid.pcs[c := s'.pcs[c]];
    }
  }

  /** A releasing client always finds its own id and the current version. */
  lemma ReadsItself(l: string, s: Locks, vals: seq<string>, c: string, out: KvOutput)
    requires LockInv(l, s, vals) && Waiting(s, c, out) && s.pcs[c].ReleaseGet?
    ensures Outcome(s, c, out) == out && out.value == c && out.version == VersionOf(s.kv.data, l)
    ensures ValueOf(s.kv.data, l) == c && vals[out.version] == c
  {
    assert ClientOk(l, s.kv, vals, c, s.pcs[c]);
    var id := s.pcs[c].id;
    assert Rep(id, s.kv.calls[id].status.attempt, out) in s.kv.net;
  }

  lemma MoveInv(l: string, s: Locks, vals: seq<string>, m: Move) returns (vals': seq<string>)
    requires LockInv(l, s, vals) && CanMove(l, s, m)
    ensures LockInv(l, AfterMove(l, s, m), vals')
  {
    vals' := vals;
    match m
    case Network(a) =>
      if a.Execute? {
        ExecuteClients(l, s, vals, a);
        vals' := Grow(l, s.kv, a, vals);
      } else {
        ForeignClients(l, s, vals, a);
      }
    case CallAcquire(_) => AcquireMove(l, s, vals, m);
    case GotForAcquire(_, _) => AcquireMove(l, s, vals, m);
    case PutForAcquire(_, _) => AcquireMove(l, s, vals, m);
    case _ => ReleaseMove(l, s, vals, m);
  }

  lemma MoveOf(l: string, run: seq<Locks>, k: nat) returns (m: Move)
    requires IsLockRun(l, run) && 0 < k < |run|
    ensures CanMove(l, run[k - 1], m) && run[k] == AfterMove(l, run[k - 1], m)
  {
    assert MoveAt(l, run, k);
    m :| CanMove(l, run[k - 1], m) && run[k] == AfterMove(l, run[k - 1], m);
  }

  lemma {:induction false} RunLocks(l: string, run: seq<Locks>, k: nat) returns (vals: seq<string>)
    requires IsLockRun(l, run) && k < |run|
    ensures LockInv(l, run[k], vals)
  {
    if k == 0 {
      vals := [""];
    } else {
      var before := RunLocks(l, run, k - 1);
      var m := MoveOf(l, run, k);
      vals := MoveInv(l, run[k - 1], before, m);
    }
  }

  // ---- The theorems --------------------------------------------------------------

  /** Mutual exclusion: at most one client is between a returned Acquire and its next call
      of Release, and the stored value is then that client's id. */
  lemma MutualExclusion(l: string, run: seq<Locks>, k: nat, c: string, d: string)
    requires IsLockRun(l, run) && k < |run|
    requires c in run[k].pcs && run[k].pcs[c].Held?
    requires d in run[k].pcs && run[k].pcs[d].Held?
    ensures c == d
    ensures ValueOf(run[k].kv.data, l) == c
  {
    var vals := RunLocks(l, run, k);
    assert ClientOk(l, run[k].kv, vals, c, run[k].pcs[c]);
    assert ClientOk(l, run[k].kv, vals, d, run[k].pcs[d]);
  }

  /** A client that calls Release while holding the lock finds itself the owner, and by the
      time Release returns its Put of the empty value has taken effect. */
  lemma ReleaseFrees(l: string, run: seq<Locks>, k: nat, m: Move)
    requires IsLockRun(l, run) && k < |run| && CanMove(l, run[k], m)
    ensures m.GotForRelease? ==> AfterMove(l, run[k], m).pcs[m.c].ReleasePut?
    ensures m.PutForRelease? ==>
      && run[k].pcs[m.c].id in run[k].kv.effects
      && run[k].kv.calls[run[k].pcs[m.c].id].inp.PutIn?
      && run[k].kv.calls[run[k].pcs[m.c].id].inp.value == ""
  {
    var s := run[k];
    var vals := RunLocks(l, run, k);
    if m.GotForRelease? {
      ReadsItself(l, s, vals, m.c, m.out);
    } else if m.PutForRelease? {
      assert ClientOk(l, s.kv, vals, m.c, s.pcs[m.c]);
      var id := s.pcs[m.c].id;
      var rep := Rep(id, s.kv.calls[id].status.attempt, m.out);
      assert AnswerOk(l, s.kv, vals, rep);
    }
  }

  /** Lock clients pass only versions the lock key has reached, whatever the network does. */
  lemma LocksUseSeenVersions(l: string, run: seq<Locks>, k: nat, id: nat)
    requires IsLockRun(l, run) && k < |run| && id < |run[k].kv.calls|
    requires run[k].kv.calls[id].inp.key == l
    ensures Seen(run[k].kv.data, run[k].kv.calls[id].inp)
  {
    var vals := RunLocks(l, run, k);
    assert CallOk(l, run[k].kv, id);
  }
}
