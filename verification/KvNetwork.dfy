/** Any number of clerks calling one server over a network that loses, delays and
    reorders messages. Each attempt of an operation is one remote call; its handler runs
    at most once and at most one reply comes back. */
module KvNetwork {
  import opened KvServer
  import opened KvClerk
  import opened KvModel

  /** `Pending(a)`: attempt `a` is waiting for its reply. */
  datatype Status = Pending(attempt: nat) | Returned(out: KvOutput, at: nat)

  /** One clerk operation with its call and return times. */
  datatype Call = Call(inp: KvInput, calledAt: nat, status: Status)

  datatype Msg = Req(id: nat, attempt: nat) | Rep(id: nat, attempt: nat, out: KvOutput)

  /** `clock` ticks at every call and return. `effects` is history: the operations whose
      Put changed the store, in the order of the changes. */
  datatype Sys = Sys(data: Store, calls: seq<Call>, net: set<Msg>, clock: nat, effects: seq<nat>)

  /** What is assumed of network and clients. With `late`, a clerk may give up on an
      attempt whose request or reply is still travelling; without it, a call fails only
      once its request or its reply is gone. The simulated network of this repository
      behaves like the latter as long as nobody disables an end or removes a server while
      a handler runs. With `seen`, clients pass Put only versions the key has reached. */
  datatype Setting = Setting(late: bool, seen: bool)

  datatype Action =
    | Invoke(inp: KvInput)
    | Execute(id: nat, attempt: nat)
    | Lose(m: Msg)
    | Retry(id: nat)
    | Receive(id: nat, out: KvOutput)

  ghost function Init(): Sys {
    Sys(map[], [], {}, 0, [])
  }

  /** The server's handlers on one request. */
  function Serve(data: Store, inp: KvInput): (Store, KvOutput) {
    match inp
    case GetIn(key) =>
      var r := OnGet(data, key);
      (data, KvOutput(r.value, r.version, r.err))
    case PutIn(key, value, version) =>
      var (data', err) := OnPut(data, PutArgs(key, value, version));
      (data', KvOutput("", 0, err))
  }

  predicate TakesEffect(data: Store, inp: KvInput) {
    inp.PutIn? && Serve(data, inp).1.err == OK
  }

  /** What the clerk returns for a reply to attempt `attempt`. */
  function Result(inp: KvInput, attempt: nat, out: KvOutput): KvOutput {
    if inp.PutIn? then out.(err := PutResult(attempt, out.err)) else out
  }

  ghost predicate IsPending(s: Sys, id: nat) {
    id < |s.calls| && s.calls[id].status.Pending?
  }

  ghost predicate Seen(data: Store, inp: KvInput) {
    inp.PutIn? ==> inp.version <= VersionOf(data, inp.key)
  }

  /** Neither the request nor a reply of this attempt is travelling. */
  ghost predicate Gone(s: Sys, id: nat, attempt: nat) {
    forall m :: m in s.net ==> !(m.id == id && m.attempt == attempt)
  }

  ghost predicate Possible(s: Sys, a: Action) {
    match a
    case Invoke(_) => true
    case Execute(id, attempt) => id < |s.calls| && Req(id, attempt) in s.net
    case Lose(m) => m in s.net
    case Retry(id) => IsPending(s, id)
    case Receive(id, out) => IsPending(s, id) && Rep(id, s.calls[id].status.attempt, out) in s.net
  }

  ghost predicate Enabled(w: Setting, s: Sys, a: Action) {
    && Possible(s, a)
    && (a.Invoke? && w.seen ==> Seen(s.data, a.inp))
    && (a.Retry? && !w.late ==> Gone(s, a.id, s.calls[a.id].status.attempt))
  }

  ghost function AfterExecute(s: Sys, id: nat, attempt: nat): Sys
    requires id < |s.calls|
  {
    var (data', out) := Serve(s.data, s.calls[id].inp);
    s.(data := data',
       net := s.net - {Req(id, attempt)} + {Rep(id, attempt, out)},
       effects := if TakesEffect(s.data, s.calls[id].inp) then s.effects + [id] else s.effects)
  }

  ghost function AfterReceive(s: Sys, id: nat, out: KvOutput): Sys
    requires IsPending(s, id)
  {
    var c := s.calls[id];
    s.(calls := s.calls[id := c.(status := Returned(Result(c.inp, c.status.attempt, out), s.clock))],
       net := s.net - {Rep(id, c.status.attempt, out)},
       clock := s.clock + 1)
  }

  ghost function Apply(s: Sys, a: Action): Sys
    requires Possible(s, a)
  {
    match a
    case Invoke(inp) =>
      s.(calls := s.calls + [Call(inp, s.clock, Pending(0))],
         net := s.net + {Req(|s.calls|, 0)},
         clock := s.clock + 1)
    case Execute(id, attempt) => AfterExecute(s, id, attempt)
    case Lose(m) => s.(net := s.net - {m})
    case Retry(id) =>
      var next := s.calls[id].status.attempt + 1;
      s.(calls := s.calls[id := s.calls[id].(status := Pending(next))],
         net := s.net + {Req(id, next)})
    case Receive(id, out) => AfterReceive(s, id, out)
  }

  ghost predicate Next(w: Setting, s: Sys, s': Sys) {
    exists a :: Enabled(w, s, a) && s' == Apply(s, a)
  }

  ghost predicate StepAt(w: Setting, run: seq<Sys>, k: nat)
    requires 0 < k < |run|
  {
    Next(w, run[k - 1], run[k])
  }

  ghost predicate IsRun(w: Setting, run: seq<Sys>) {
    && run != []
    && run[0] == Init()
    && forall k: nat :: 0 < k < |run| ==> StepAt(w, run, k)
  }

  // ---- The invariant of the network ----------------------------------------------

  /** Attempt `attempt` is the one that call `id` is waiting for. */
  ghost predicate Current(s: Sys, id: nat, attempt: nat) {
    id < |s.calls| && s.calls[id].status == Pending(attempt)
  }

  ghost predicate MsgOk(s: Sys, m: Msg) {
    && m.id < |s.calls|
    && (s.calls[m.id].status.Pending? ==> m.attempt <= s.calls[m.id].status.attempt)
    && (m.Rep? ==>
        && Req(m.id, m.attempt) !in s.net
        && forall o :: Rep(m.id, m.attempt, o) in s.net ==> o == m.out)
  }

  ghost predicate MsgsOk(s: Sys) {
    forall m :: m in s.net ==> MsgOk(s, m)
  }

  ghost predicate EffectOk(s: Sys, id: nat) {
    && id < |s.calls| && s.calls[id].inp.PutIn?
    && s.calls[id].inp.version < VersionOf(s.data, s.calls[id].inp.key)
  }

  ghost predicate EffectsOk(s: Sys) {
    forall id :: id in s.effects ==> EffectOk(s, id)
  }

  /** What a reply on its way to a waiting Put says about the Put's effect. */
  ghost predicate ReplyOk(s: Sys, m: Msg)
    requires m.Rep? && m.id < |s.calls|
  {
    s.calls[m.id].inp.PutIn? && Current(s, m.id, m.attempt) ==>
      && m.out.err != ErrMaybe
      && (m.out.err == OK ==> m.id in s.effects)
      && (m.out.err != OK && m.attempt == 0 ==> m.id !in s.effects)
  }

  /** No message of the operation is travelling. */
  ghost predicate Silent(s: Sys, id: nat) {
    forall m :: m in s.net ==> m.id != id
  }

  ghost predicate ResultOk(s: Sys, id: nat)
    requires id < |s.calls|
  {
    s.calls[id].inp.PutIn? && s.calls[id].status.Returned? ==>
      && (s.calls[id].status.out.err == OK ==> id in s.effects)
      && (s.calls[id].status.out.err == ErrVersion ==> id !in s.effects && Silent(s, id))
  }

  /** A first attempt that is still on its way has had no effect. */
  ghost predicate FirstOk(s: Sys, id: nat) {
    Current(s, id, 0) && Req(id, 0) in s.net ==> id !in s.effects
  }

  ghost predicate RepliesOk(s: Sys)
    requires MsgsOk(s)
  {
    forall m :: m in s.net && m.Rep? ==> ReplyOk(s, m)
  }

  ghost predicate ResultsOk(s: Sys) {
    forall id: nat :: id < |s.calls| ==> ResultOk(s, id) && FirstOk(s, id)
  }

  ghost predicate TimesOk(s: Sys) {
    forall id: nat :: id < |s.calls| ==> s.calls[id].calledAt < s.clock
  }

  /** In a prompt network all messages belong to waiting attempts. */
  ghost predicate Prompt(s: Sys) {
    forall m :: m in s.net ==> Current(s, m.id, m.attempt)
  }

  /** With seen versions only, no Put is ahead of its key, and an answered Put is behind. */
  ghost predicate Behind(s: Sys) {
    && (forall id :: 0 <= id < |s.calls| ==> Seen(s.data, s.calls[id].inp))
    && (forall m :: m in s.net && m.Rep? && m.id < |s.calls| && s.calls[m.id].inp.PutIn? ==>
        s.calls[m.id].inp.version < VersionOf(s.data, s.calls[m.id].inp.key))
    && (forall id :: 0 <= id < |s.calls| && s.calls[id].inp.PutIn? && s.calls[id].status.Returned? ==>
        s.calls[id].inp.version < VersionOf(s.data, s.calls[id].inp.key))
  }

  /** What holds in every setting. */
  ghost predicate Base(s: Sys) {
    && ValidStore(s.data)
    && MsgsOk(s)
    && EffectsOk(s)
    && TimesOk(s)
    && RepliesOk(s)
    && ResultsOk(s)
  }

  /** ErrNoKey, on its way or returned, means that the Put has had no effect. */
  ghost predicate NoKeyOk(s: Sys, id: nat)
    requires id < |s.calls|
  {
    s.calls[id].inp.PutIn? && id in s.effects ==>
      && !(s.calls[id].status.Returned? && s.calls[id].status.out.err == ErrNoKey)
      && forall m :: m in s.net && m.Rep? && m.id == id && Current(s, id, m.attempt) ==> m.out.err != ErrNoKey
  }

  ghost predicate NoKeysOk(s: Sys) {
    forall id: nat :: id < |s.calls| ==> NoKeyOk(s, id)
  }

  ghost predicate Inv(w: Setting, s: Sys) {
    && Base(s)
    && NoKeysOk(s)
    && (!w.late ==> Prompt(s))
    && (w.seen ==> Behind(s))
  }

  /** Either assumption is enough. */
  ghost predicate Sound(w: Setting) {
    !w.late || w.seen
  }

  // ---- What every step keeps -----------------------------------------------------

  lemma ServeFacts(data: Store, inp: KvInput)
    requires ValidStore(data)
    ensures var (data', out) := Serve(data, inp);
      && ValidStore(data')
      && (forall k :: VersionOf(data, k) <= VersionOf(data', k))
      && (TakesEffect(data, inp) <==> inp.PutIn? && inp.version == VersionOf(data, inp.key))
      && (TakesEffect(data, inp) ==>
          && ValueOf(data', inp.key) == inp.value
          && VersionOf(data', inp.key) == inp.version + 1
          && forall k :: k != inp.key ==>
              VersionOf(data', k) == VersionOf(data, k) && ValueOf(data', k) == ValueOf(data, k))
      && (!TakesEffect(data, inp) ==> data' == data)
      && (inp.PutIn? && !TakesEffect(data, inp) ==> out.err == ErrVersion || out.err == ErrNoKey)
      && (inp.PutIn? && out.err == ErrNoKey ==> inp.version > VersionOf(data, inp.key))
  {
  }

  /** A Put that has taken effect does not take effect again. */
  lemma EffectIsOnce(s: Sys, id: nat)
    requires ValidStore(s.data) && EffectsOk(s) && id in s.effects && id < |s.calls|
    ensures !TakesEffect(s.data, s.calls[id].inp)
  {
    ServeFacts(s.data, s.calls[id].inp);
    assert EffectOk(s, id);
  }

  /** A request of an operation that has returned can no longer take effect. */
  lemma ReturnedIsInert(w: Setting, s: Sys, id: nat, attempt: nat)
    requires Inv(w, s) && Sound(w) && Enabled(w, s, Execute(id, attempt))
    requires s.calls[id].status.Returned? || id in s.effects
    ensures !TakesEffect(s.data, s.calls[id].inp)
  {
    ServeFacts(s.data, s.calls[id].inp);
    if id in s.effects {
      EffectIsOnce(s, id);
    }
  }

  lemma CallsGrow(s: Sys)
    requires EffectsOk(s)
    ensures |s.calls| !in s.effects
  {
    if |s.calls| in s.effects { assert false; }
  }

  // -- Messages

  lemma MsgsKept(s: Sys, a: Action)
    requires MsgsOk(s) && Possible(s, a)
    ensures MsgsOk(Apply(s, a))
  {
    var s' := Apply(s, a);
    forall m | m in s'.net ensures MsgOk(s', m) {
      if m in s.net { assert MsgOk(s, m); }
      if a.Execute? { assert MsgOk(s, Req(a.id, a.attempt)); }
      if a.Retry? && m.id == a.id {
        assert forall m' :: m' in s.net && m'.id == a.id ==> MsgOk(s, m');
      }
      if a.Invoke? {
        assert forall m' :: m' in s.net ==> MsgOk(s, m');
      }
    }
  }

  // -- Effects, replies and results

  lemma EffectsKept(s: Sys, a: Action)
    requires ValidStore(s.data) && EffectsOk(s) && Possible(s, a)
    ensures ValidStore(Apply(s, a).data) && EffectsOk(Apply(s, a))
  {
    var s' := Apply(s, a);
    if a.Execute? { ServeFacts(s.data, s.calls[a.id].inp); }
    forall id | id in s'.effects ensures EffectOk(s', id) {
      if id in s.effects { assert EffectOk(s, id); }
    }
  }

  lemma ExecuteReply(s: Sys, id: nat, attempt: nat)
    requires ValidStore(s.data) && EffectsOk(s) && ResultsOk(s) && Possible(s, Execute(id, attempt))
    ensures var s' := AfterExecute(s, id, attempt);
      ReplyOk(s', Rep(id, attempt, Serve(s.data, s.calls[id].inp).1))
  {
    ServeFacts(s.data, s.calls[id].inp);
    assert FirstOk(s, id);
  }

  lemma RepliesKept(s: Sys, a: Action)
    requires Base(s) && Possible(s, a) && MsgsOk(Apply(s, a))
    ensures RepliesOk(Apply(s, a))
  {
    var s' := Apply(s, a);
    if a.Execute? { ExecuteReply(s, a.id, a.attempt); }
    forall m | m in s'.net && m.Rep? ensures ReplyOk(s', m) {
      if m in s.net {
        assert MsgOk(s, m) && ReplyOk(s, m);
        if a.Execute? { assert MsgOk(s, Req(a.id, a.attempt)); }
      }
    }
  }

  lemma ResultsKept(s: Sys, a: Action)
    requires Base(s) && Possible(s, a)
    ensures ResultsOk(Apply(s, a))
  {
    var s' := Apply(s, a);
    CallsGrow(s);
    forall id: nat | id < |s'.calls| ensures ResultOk(s', id) && FirstOk(s', id) {
      if id < |s.calls| { assert ResultOk(s, id) && FirstOk(s, id); }
      if a.Execute? && id == a.id { assert MsgOk(s, Req(a.id, a.attempt)); }
      if a.Receive? && id == a.id {
        var m := Rep(id, s.calls[id].status.attempt, a.out);
        assert MsgOk(s, m) && ReplyOk(s, m);
        if m.attempt == 0 { LastMessage(s, m); }
      }
    }
  }

  /** The reply to a first attempt is the only message of its operation. */
  lemma LastMessage(s: Sys, m: Msg)
    requires MsgsOk(s) && m.Rep? && m.attempt == 0 && m in s.net && Current(s, m.id, 0)
    ensures forall o :: o in s.net && o.id == m.id ==> o == m
  {
    assert MsgOk(s, m);
    forall o | o in s.net && o.id == m.id ensures o == m { assert MsgOk(s, o); }
  }

  lemma BaseKept(s: Sys, a: Action)
    requires Base(s) && Possible(s, a)
    ensures Base(Apply(s, a))
  {
    MsgsKept(s, a);
    EffectsKept(s, a);
    RepliesKept(s, a);
    ResultsKept(s, a);
  }

  // -- With one of the two assumptions

  lemma NoKeysKept(w: Setting, s: Sys, a: Action)
    requires Inv(w, s) && Sound(w) && Enabled(w, s, a)
    ensures NoKeysOk(Apply(s, a))
  {
    var s' := Apply(s, a);
    CallsGrow(s);
    forall id: nat | id < |s'.calls| ensures NoKeyOk(s', id) {
      if id < |s.calls| { assert NoKeyOk(s, id); }
      if a.Execute? && id == a.id {
        assert MsgOk(s, Req(a.id, a.attempt));
        ServeFacts(s.data, s.calls[id].inp);
        if id in s.effects { assert EffectOk(s, id); }
      }
    }
  }

  lemma PromptKept(s: Sys, a: Action)
    requires MsgsOk(s) && Prompt(s) && Enabled(Setting(false, false), s, a)
    ensures Prompt(Apply(s, a))
  {
    var s' := Apply(s, a);
    forall m | m in s'.net ensures Current(s', m.id, m.attempt) {
      if m in s.net { assert Current(s, m.id, m.attempt) && MsgOk(s, m); }
      if a.Execute? { assert Current(s, a.id, a.attempt); }
      if a.Receive? { assert MsgOk(s, Rep(a.id, s.calls[a.id].status.attempt, a.out)); }
    }
  }

  lemma BehindKept(s: Sys, a: Action)
    requires ValidStore(s.data) && MsgsOk(s) && Behind(s)
    requires Possible(s, a) && (a.Invoke? ==> Seen(s.data, a.inp))
    ensures Behind(Apply(s, a))
  {
    var s' := Apply(s, a);
    if a.Execute? { ServeFacts(s.data, s.calls[a.id].inp); }
    forall id | 0 <= id < |s'.calls| ensures Seen(s'.data, s'.calls[id].inp) {
      if id < |s.calls| { assert Seen(s.data, s.calls[id].inp); }
    }
    assert forall m :: m in s.net ==> MsgOk(s, m);
  }

  lemma StepInv(w: Setting, s: Sys, a: Action)
    requires Inv(w, s) && Sound(w) && Enabled(w, s, a)
    ensures Inv(w, Apply(s, a))
  {
    BaseKept(s, a);
    NoKeysKept(w, s, a);
    if !w.late { PromptKept(s, a); }
    if w.seen { BehindKept(s, a); }
  }

  lemma {:induction false} RunBase(w: Setting, run: seq<Sys>, k: nat)
    requires IsRun(w, run) && k < |run|
    ensures Base(run[k])
  {
    if k > 0 {
      RunBase(w, run, k - 1);
      var a := ActionOf(w, run, k);
      BaseKept(run[k - 1], a);
    }
  }

  lemma {:induction false} RunInv(w: Setting, run: seq<Sys>, k: nat)
    requires IsRun(w, run) && Sound(w) && k < |run|
    ensures Inv(w, run[k])
  {
    if k > 0 {
      RunInv(w, run, k - 1);
      var a := ActionOf(w, run, k);
      StepInv(w, run[k - 1], a);
    }
  }

  lemma ActionOf(w: Setting, run: seq<Sys>, k: nat) returns (a: Action)
    requires IsRun(w, run) && 0 < k < |run|
    ensures Enabled(w, run[k - 1], a) && run[k] == Apply(run[k - 1], a)
  {
    assert StepAt(w, run, k);
    a :| Enabled(w, run[k - 1], a) && run[k] == Apply(run[k - 1], a);
  }
}
