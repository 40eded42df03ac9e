/** Every history of clerk operations has a linearization: a point inside each call at
    which it takes place, such that the operations, replayed in the order of their points,
    are legal steps of the sequential model. */
module KvLinearizability {
  import opened KvServer
  import opened KvModel
  import opened KvNetwork

  /** Operation `id` takes place at time `at` and then has output `out`. */
  datatype Point = Point(id: nat, inp: KvInput, out: KvOutput, at: nat)

  // ---- Linear orders -------------------------------------------------------------

  ghost function StateAfter(lin: seq<Point>, key: string): KvState {
    if lin == [] then INIT
    else
      var st := StateAfter(lin[..|lin| - 1], key);
      var p := lin[|lin| - 1];
      if p.inp.key == key then Step(st, p.inp, p.out).1 else st
  }

  ghost predicate LegalAt(st: KvState, p: Point) {
    Step(st, p.inp, p.out).0 && ExactGet(st, p.inp, p.out)
  }

  ghost predicate Legal(lin: seq<Point>) {
    lin == [] ||
    (Legal(lin[..|lin| - 1])
     && LegalAt(StateAfter(lin[..|lin| - 1], lin[|lin| - 1].inp.key), lin[|lin| - 1]))
  }

  /** Points come in the order of their times, at most one for each operation. */
  ghost predicate Ordered(lin: seq<Point>) {
    forall i, j :: 0 <= i < j < |lin| ==> lin[i].at <= lin[j].at && lin[i].id != lin[j].id
  }

  ghost predicate Changes(st: KvState, inp: KvInput) {
    inp.PutIn? && inp.version == st.version
  }

  /** The points that change the model's state are those of the operations in `effects`. */
  ghost predicate Matches(lin: seq<Point>, effects: seq<nat>) {
    lin == [] ||
    var init, p := lin[..|lin| - 1], lin[|lin| - 1];
    Matches(init, effects) && (p.id in effects <==> Changes(StateAfter(init, p.inp.key), p.inp))
  }

  ghost predicate HasPoint(lin: seq<Point>, id: nat) {
    exists p :: p in lin && p.id == id
  }

  // ---- Removing a point that changes nothing -------------------------------------

  ghost function Without(lin: seq<Point>, id: nat): seq<Point> {
    if lin == [] then []
    else if lin[|lin| - 1].id == id then Without(lin[..|lin| - 1], id)
    else Without(lin[..|lin| - 1], id) + [lin[|lin| - 1]]
  }

  lemma {:induction false} WithoutMembers(lin: seq<Point>, id: nat, p: Point)
    ensures p in Without(lin, id) <==> p in lin && p.id != id
  {
    if lin != [] {
      WithoutMembers(lin[..|lin| - 1], id, p);
      assert lin == lin[..|lin| - 1] + [lin[|lin| - 1]];
    }
  }

  lemma {:induction false} WithoutState(lin: seq<Point>, id: nat, effects: seq<nat>, key: string)
    requires Matches(lin, effects) && id !in effects
    ensures StateAfter(Without(lin, id), key) == StateAfter(lin, key)
  {
    if lin != [] {
      var init, p := lin[..|lin| - 1], lin[|lin| - 1];
      WithoutState(init, id, effects, key);
      if p.id != id {
        assert (Without(init, id) + [p])[..|Without(init, id)|] == Without(init, id);
      }
    }
  }

  lemma {:induction false} WithoutKeeps(lin: seq<Point>, id: nat, effects: seq<nat>)
    requires Legal(lin) && Matches(lin, effects) && id !in effects
    ensures Legal(Without(lin, id)) && Matches(Without(lin, id), effects)
  {
    if lin != [] {
      var init, p := lin[..|lin| - 1], lin[|lin| - 1];
      WithoutKeeps(init, id, effects);
      if p.id != id {
        assert (Without(init, id) + [p])[..|Without(init, id)|] == Without(init, id);
        WithoutState(init, id, effects, p.inp.key);
      }
    }
  }

  lemma {:induction false} WithoutOrdered(lin: seq<Point>, id: nat)
    requires Ordered(lin)
    ensures Ordered(Without(lin, id))
  {
    if lin != [] {
      var init, p := lin[..|lin| - 1], lin[|lin| - 1];
      WithoutOrdered(init, id);
      forall q | q in Without(init, id) ensures q.at <= p.at && q.id != p.id {
        WithoutMembers(init, id, q);
      }
    }
  }

  // ---- Adding a point ------------------------------------------------------------

  lemma AddPoint(lin: seq<Point>, p: Point, effects: seq<nat>)
    requires Legal(lin) && Ordered(lin) && Matches(lin, effects)
    requires forall q :: q in lin ==> q.at <= p.at && q.id != p.id
    requires LegalAt(StateAfter(lin, p.inp.key), p)
    requires p.id in effects <==> Changes(StateAfter(lin, p.inp.key), p.inp)
    ensures Legal(lin + [p]) && Ordered(lin + [p]) && Matches(lin + [p], effects)
  {
    assert (lin + [p])[..|lin|] == lin;
  }

  lemma {:induction false} MatchesMore(lin: seq<Point>, effects: seq<nat>, id: nat)
    requires Matches(lin, effects) && forall p :: p in lin ==> p.id != id
    ensures Matches(lin, effects + [id])
  {
    if lin != [] {
      assert lin[|lin| - 1] in lin;
      MatchesMore(lin[..|lin| - 1], effects, id);
    }
  }

  // ---- Settling the output of a Put ----------------------------------------------

  ghost function SetOut(lin: seq<Point>, id: nat, out: KvOutput): seq<Point> {
    seq(|lin|, i requires 0 <= i < |lin| => if lin[i].id == id then lin[i].(out := out) else lin[i])
  }

  lemma SetOutInit(lin: seq<Point>, id: nat, out: KvOutput)
    requires lin != []
    ensures SetOut(lin, id, out)[..|lin| - 1] == SetOut(lin[..|lin| - 1], id, out)
  {
  }

  lemma {:induction false} SetOutState(lin: seq<Point>, id: nat, out: KvOutput, key: string)
    ensures StateAfter(SetOut(lin, id, out), key) == StateAfter(lin, key)
  {
    if lin != [] {
      SetOutInit(lin, id, out);
      SetOutState(lin[..|lin| - 1], id, out, key);
    }
  }

  /** Both outputs that a clerk may report are legal, whichever way the Put went. */
  lemma {:induction false} SetOutKeeps(lin: seq<Point>, id: nat, out: KvOutput, effects: seq<nat>)
    requires Legal(lin) && Matches(lin, effects)
    requires forall p :: p in lin && p.id == id ==> p.inp.PutIn?
    requires if id in effects then out.err == OK || out.err == ErrMaybe
             else out.err == ErrVersion || out.err == ErrMaybe
    ensures Legal(SetOut(lin, id, out)) && Matches(SetOut(lin, id, out), effects)
  {
    if lin != [] {
      var p := lin[|lin| - 1];
      assert p in lin;
      SetOutInit(lin, id, out);
      SetOutKeeps(lin[..|lin| - 1], id, out, effects);
      SetOutState(lin[..|lin| - 1], id, out, p.inp.key);
    }
  }

  lemma SetOutMembers(lin: seq<Point>, id: nat, out: KvOutput)
    ensures forall p :: p in SetOut(lin, id, out) && p.id != id ==> p in lin
    ensures forall p :: p in lin && p.id != id ==> p in SetOut(lin, id, out)
    ensures forall p :: p in SetOut(lin, id, out) && p.id == id ==>
      p.out == out && exists q :: q in lin && q.id == id && q.inp == p.inp && q.at == p.at
    ensures HasPoint(lin, id) ==> HasPoint(SetOut(lin, id, out), id)
  {
    var r := SetOut(lin, id, out);
    forall p | p in lin && p.id != id ensures p in r {
      var i :| 0 <= i < |lin| && lin[i] == p;
      assert r[i] == p;
    }
    forall p | p in r && p.id == id
      ensures p.out == out && exists q :: q in lin && q.id == id && q.inp == p.inp && q.at == p.at
    {
      var i :| 0 <= i < |r| && r[i] == p;
      assert lin[i] in lin;
    }
    if p :| p in lin && p.id == id {
      var i :| 0 <= i < |lin| && lin[i] == p;
      assert r[i] in r && r[i].id == id;
    }
  }

  // ---- The invariant -------------------------------------------------------------

  ghost predicate PointOk(s: Sys, p: Point) {
    && p.id < |s.calls| && p.inp == s.calls[p.id].inp
    && s.calls[p.id].calledAt <= p.at <= s.clock
    && (s.calls[p.id].status.Returned? ==>
        p.at <= s.calls[p.id].status.at && p.out == s.calls[p.id].status.out)
  }

  ghost predicate PointsOk(s: Sys, lin: seq<Point>) {
    forall p :: p in lin ==> PointOk(s, p)
  }

  ghost predicate StoreIsState(data: Store, lin: seq<Point>) {
    forall key :: StateAfter(lin, key) == KvState(ValueOf(data, key), VersionOf(data, key))
  }

  /** A Put that returned ErrNoKey, an answer the sequential model does not know. */
  ghost predicate Excluded(c: Call) {
    c.inp.PutIn? && c.status.Returned? && c.status.out.err == ErrNoKey
  }

  ghost predicate Covered(s: Sys, lin: seq<Point>) {
    && (forall id: nat :: id in s.effects ==> HasPoint(lin, id))
    && (forall id: nat :: id < |s.calls| && s.calls[id].status.Returned? && !Excluded(s.calls[id]) ==>
        HasPoint(lin, id))
  }

  /** What a reply on its way to a waiting call says about the call's point. */
  ghost predicate ReplyPoint(s: Sys, lin: seq<Point>, m: Msg)
    requires m.Rep? && m.id < |s.calls|
  {
    Current(s, m.id, m.attempt) ==>
      && (s.calls[m.id].inp.GetIn? ==> HasPoint(lin, m.id) && forall p :: p in lin && p.id == m.id ==> p.out == m.out)
      && (s.calls[m.id].inp.PutIn? && m.out.err == ErrVersion ==> HasPoint(lin, m.id))
      && (s.calls[m.id].inp.PutIn? && m.out.err == ErrNoKey ==> !HasPoint(lin, m.id))
  }

  ghost predicate ReplyPoints(s: Sys, lin: seq<Point>)
    requires MsgsOk(s)
  {
    forall m :: m in s.net && m.Rep? ==> ReplyPoint(s, lin, m)
  }

  ghost predicate LinInv(s: Sys, lin: seq<Point>)
    requires MsgsOk(s)
  {
    && Legal(lin) && Ordered(lin) && Matches(lin, s.effects)
    && PointsOk(s, lin)
    && StoreIsState(s.data, lin)
    && Covered(s, lin)
    && ReplyPoints(s, lin)
  }

  // -- Calling, retrying and losing messages

  lemma QuietStep(w: Setting, s: Sys, a: Action, lin: seq<Point>)
    requires Inv(w, s) && LinInv(s, lin) && Enabled(w, s, a)
    requires a.Invoke? || a.Lose? || a.Retry?
    ensures MsgsOk(Apply(s, a)) && LinInv(Apply(s, a), lin)
  {
    var s' := Apply(s, a);
    MsgsKept(s, a);
    forall p | p in lin ensures PointOk(s', p) {
      assert PointOk(s, p);
    }
    forall m | m in s'.net && m.Rep? ensures ReplyPoint(s', lin, m) {
      assert MsgOk(s, m) && ReplyPoint(s, lin, m);
    }
  }

  // -- Returning

  /** Settles the output of the call that returns. */
  ghost function Settle(s: Sys, id: nat, out: KvOutput, lin: seq<Point>): seq<Point>
    requires IsPending(s, id)
  {
    if s.calls[id].inp.GetIn? then lin
    else SetOut(lin, id, Result(s.calls[id].inp, s.calls[id].status.attempt, out))
  }

  lemma SettleLegal(w: Setting, s: Sys, id: nat, out: KvOutput, lin: seq<Point>)
    requires Inv(w, s) && LinInv(s, lin) && Possible(s, Receive(id, out))
    ensures var lin' := Settle(s, id, out, lin);
      && Legal(lin') && Ordered(lin') && Matches(lin', s.effects)
      && StoreIsState(s.data, lin')
  {
    var m := Rep(id, s.calls[id].status.attempt, out);
    assert MsgOk(s, m) && ReplyOk(s, m) && NoKeyOk(s, id) && ReplyPoint(s, lin, m);
    forall p | p in lin && p.id == id ensures p.inp == s.calls[id].inp { assert PointOk(s, p); }
    if s.calls[id].inp.PutIn? {
      var r := Result(s.calls[id].inp, m.attempt, out);
      if out.err == ErrNoKey {
        assert SetOut(lin, id, r) == lin;
      } else {
        SetOutKeeps(lin, id, r, s.effects);
        forall key ensures StateAfter(SetOut(lin, id, r), key) == StateAfter(lin, key) {
          SetOutState(lin, id, r, key);
        }
      }
    }
  }

  lemma SettlePoints(w: Setting, s: Sys, id: nat, out: KvOutput, lin: seq<Point>)
    requires Inv(w, s) && LinInv(s, lin) && Possible(s, Receive(id, out))
    ensures PointsOk(AfterReceive(s, id, out), Settle(s, id, out, lin))
    ensures Covered(AfterReceive(s, id, out), Settle(s, id, out, lin))
  {
    var s', lin' := AfterReceive(s, id, out), Settle(s, id, out, lin);
    var m := Rep(id, s.calls[id].status.attempt, out);
    var r := Result(s.calls[id].inp, m.attempt, out);
    assert MsgOk(s, m) && ReplyOk(s, m) && NoKeyOk(s, id) && ReplyPoint(s, lin, m);
    SetOutMembers(lin, id, r);
    forall p | p in lin' ensures PointOk(s', p) {
      if p.id != id || s.calls[id].inp.GetIn? {
        assert PointOk(s, p);
      } else {
        var q :| q in lin && q.id == id && q.inp == p.inp && q.at == p.at;
        assert PointOk(s, q);
      }
    }
    forall i: nat | HasPoint(lin, i) ensures HasPoint(lin', i) {
      if i != id {
        var p :| p in lin && p.id == i;
        assert p in lin';
      }
    }
  }

  lemma ReceiveStep(w: Setting, s: Sys, id: nat, out: KvOutput, lin: seq<Point>)
    requires Inv(w, s) && LinInv(s, lin) && Possible(s, Receive(id, out))
    ensures MsgsOk(AfterReceive(s, id, out)) && LinInv(AfterReceive(s, id, out), Settle(s, id, out, lin))
  {
    var s', lin' := AfterReceive(s, id, out), Settle(s, id, out, lin);
    MsgsKept(s, Receive(id, out));
    SettleLegal(w, s, id, out, lin);
    SettlePoints(w, s, id, out, lin);
    SetOutMembers(lin, id, Result(s.calls[id].inp, s.calls[id].status.attempt, out));
    forall m | m in s'.net && m.Rep? ensures ReplyPoint(s', lin', m) {
      assert MsgOk(s, m) && ReplyPoint(s, lin, m);
      if m.id != id && HasPoint(lin, m.id) {
        var p :| p in lin && p.id == m.id;
        assert p in lin';
      }
    }
  }

  // -- Running the handler

  /** The points after the server has served attempt `attempt` of call `id`: a Put that
      takes effect does so now; a call that waits for this very attempt provisionally
      takes place now, unless it took effect before; all else stays. */
  ghost function Serve1(s: Sys, id: nat, attempt: nat, lin: seq<Point>): seq<Point>
    requires id < |s.calls|
  {
    var out := Serve(s.data, s.calls[id].inp).1;
    if !TakesEffect(s.data, s.calls[id].inp) && (id in s.effects || !Current(s, id, attempt)) then lin
    else if s.calls[id].inp.PutIn? && out.err == ErrNoKey then Without(lin, id)
    else Without(lin, id) + [Point(id, s.calls[id].inp, out, s.clock)]
  }

  ghost predicate Touched(s: Sys, id: nat, attempt: nat)
    requires id < |s.calls|
  {
    TakesEffect(s.data, s.calls[id].inp) || (id !in s.effects && Current(s, id, attempt))
  }

  lemma WithoutAll(s: Sys, lin: seq<Point>, id: nat)
    requires MsgsOk(s) && LinInv(s, lin) && id !in s.effects
    ensures var rest := Without(lin, id);
      && Legal(rest) && Ordered(rest) && Matches(rest, s.effects) && StoreIsState(s.data, rest)
      && forall p :: p in rest <==> p in lin && p.id != id
  {
    WithoutKeeps(lin, id, s.effects);
    WithoutOrdered(lin, id);
    forall p ensures p in Without(lin, id) <==> p in lin && p.id != id {
      WithoutMembers(lin, id, p);
    }
    forall key ensures StateAfter(Without(lin, id), key) == StateAfter(lin, key) {
      WithoutState(lin, id, s.effects, key);
    }
  }

  /** The answer of the server is a legal output of the model in the state of the store. */
  lemma ServeIsLegal(data: Store, inp: KvInput, id: nat, at: nat)
    requires ValidStore(data)
    requires !(inp.PutIn? && Serve(data, inp).1.err == ErrNoKey)
    ensures var st := KvState(ValueOf(data, inp.key), VersionOf(data, inp.key));
      var (data', out) := Serve(data, inp);
      && LegalAt(st, Point(id, inp, out, at))
      && (TakesEffect(data, inp) <==> Changes(st, inp))
      && Step(st, inp, out).1 == KvState(ValueOf(data', inp.key), VersionOf(data', inp.key))
      && forall k :: k != inp.key ==>
          VersionOf(data', k) == VersionOf(data, k) && ValueOf(data', k) == ValueOf(data, k)
  {
    ServeFacts(data, inp);
  }

  /** The model and the server agree exactly: on each store, a Get output is legal if and only
      if it has the value that the server answers, a Put output if and only if it is ErrMaybe or
      the server's own answer, with ErrNoKey read as ErrVersion; and the two move on alike. */
  lemma ModelIsServer(data: Store, inp: KvInput, out: KvOutput)
    requires ValidStore(data)
    ensures var st := KvState(ValueOf(data, inp.key), VersionOf(data, inp.key));
      var (data', answer) := Serve(data, inp);
      && (inp.GetIn? ==> (Step(st, inp, out).0 <==> out.value == answer.value))
      && (inp.PutIn? ==> (Step(st, inp, out).0 <==>
            out.err == ErrMaybe || out.err == if answer.err == OK then OK else ErrVersion))
      && Step(st, inp, out).1 == KvState(ValueOf(data', inp.key), VersionOf(data', inp.key))
  {
    ServeFacts(data, inp);
  }

  lemma ServeNow(data: Store, lin: seq<Point>, inp: KvInput, id: nat, at: nat, effects: seq<nat>)
    requires ValidStore(data) && Legal(lin) && Ordered(lin) && Matches(lin, effects)
    requires StoreIsState(data, lin) && id !in effects
    requires forall q :: q in lin ==> q.at <= at && q.id != id
    requires !(inp.PutIn? && Serve(data, inp).1.err == ErrNoKey)
    ensures var (data', out) := Serve(data, inp);
      var lin' := lin + [Point(id, inp, out, at)];
      && Legal(lin') && Ordered(lin') && StoreIsState(data', lin')
      && Matches(lin', if TakesEffect(data, inp) then effects + [id] else effects)
  {
    ServeIsLegal(data, inp, id, at);
    var p := Point(id, inp, Serve(data, inp).1, at);
    assert StateAfter(lin, inp.key) == KvState(ValueOf(data, inp.key), VersionOf(data, inp.key));
    if TakesEffect(data, inp) {
      MatchesMore(lin, effects, id);
      AddPoint(lin, p, effects + [id]);
    } else {
      AddPoint(lin, p, effects);
    }
    StoreIsStateKept(data, Serve(data, inp).0, lin, p);
  }

  lemma StoreIsStateKept(data: Store, data': Store, lin: seq<Point>, p: Point)
    requires StoreIsState(data, lin)
    requires Step(StateAfter(lin, p.inp.key), p.inp, p.out).1 ==
             KvState(ValueOf(data', p.inp.key), VersionOf(data', p.inp.key))
    requires forall k :: k != p.inp.key ==>
      VersionOf(data', k) == VersionOf(data, k) && ValueOf(data', k) == ValueOf(data, k)
    ensures StoreIsState(data', lin + [p])
  {
    assert (lin + [p])[..|lin|] == lin;
    forall key ensures StateAfter(lin + [p], key) == KvState(ValueOf(data', key), VersionOf(data', key)) {
      assert StateAfter(lin, key) == KvState(ValueOf(data, key), VersionOf(data, key));
    }
  }

  lemma ServeLegal(w: Setting, s: Sys, id: nat, attempt: nat, lin: seq<Point>)
    requires Inv(w, s) && Sound(w) && LinInv(s, lin) && Possible(s, Execute(id, attempt))
    requires Touched(s, id, attempt)
    ensures id !in s.effects
    ensures var lin', s' := Serve1(s, id, attempt, lin), AfterExecute(s, id, attempt);
      && Legal(lin') && Ordered(lin') && Matches(lin', s'.effects)
      && StoreIsState(s'.data, lin')
  {
    var inp := s.calls[id].inp;
    if id in s.effects { ReturnedIsInert(w, s, id, attempt); assert false; }
    WithoutAll(s, lin, id);
    if inp.PutIn? && Serve(s.data, inp).1.err == ErrNoKey {
      ServeFacts(s.data, inp);
    } else {
      forall q | q in Without(lin, id) ensures q.at <= s.clock && q.id != id { assert PointOk(s, q); }
      ServeNow(s.data, Without(lin, id), inp, id, s.clock, s.effects);
    }
  }

  lemma ServePoints(w: Setting, s: Sys, id: nat, attempt: nat, lin: seq<Point>)
    requires Inv(w, s) && Sound(w) && LinInv(s, lin) && Possible(s, Execute(id, attempt))
    requires Touched(s, id, attempt) && id !in s.effects
    ensures var lin', s' := Serve1(s, id, attempt, lin), AfterExecute(s, id, attempt);
      && PointsOk(s', lin') && Covered(s', lin')
      && forall i: nat :: i != id ==> (HasPoint(lin', i) <==> HasPoint(lin, i))
  {
    var lin', s' := Serve1(s, id, attempt, lin), AfterExecute(s, id, attempt);
    WithoutAll(s, lin, id);
    if s.calls[id].status.Returned? { ReturnedIsInert(w, s, id, attempt); }
    forall p | p in lin' ensures PointOk(s', p) {
      if p in lin { assert PointOk(s, p); }
    }
    forall i: nat | i != id ensures HasPoint(lin', i) <==> HasPoint(lin, i) {
      if p :| p in lin && p.id == i { assert p in lin'; }
    }
    if TakesEffect(s.data, s.calls[id].inp) {
      assert lin'[|lin'| - 1] in lin';
      assert HasPoint(lin', id);
    }
  }

  lemma ServeReply(w: Setting, s: Sys, id: nat, attempt: nat, lin: seq<Point>)
    requires Inv(w, s) && LinInv(s, lin) && Possible(s, Execute(id, attempt))
    requires Touched(s, id, attempt) ==> id !in s.effects
    ensures var s' := AfterExecute(s, id, attempt);
      ReplyPoint(s', Serve1(s, id, attempt, lin), Rep(id, attempt, Serve(s.data, s.calls[id].inp).1))
  {
    var inp, lin' := s.calls[id].inp, Serve1(s, id, attempt, lin);
    ServeFacts(s.data, inp);
    if Touched(s, id, attempt) {
      WithoutAll(s, lin, id);
      if lin' != Without(lin, id) { assert lin'[|lin'| - 1] in lin'; }
    } else if id in s.effects {
      assert EffectOk(s, id);
      assert HasPoint(lin, id);
    }
  }

  lemma ServeOthers(w: Setting, s: Sys, id: nat, attempt: nat, lin: seq<Point>, m: Msg)
    requires Inv(w, s) && Sound(w) && LinInv(s, lin) && Possible(s, Execute(id, attempt))
    requires Touched(s, id, attempt) && id !in s.effects && m in s.net && m.Rep?
    ensures m.id < |s.calls|
    ensures ReplyPoint(AfterExecute(s, id, attempt), Serve1(s, id, attempt, lin), m)
  {
    var lin' := Serve1(s, id, attempt, lin);
    assert MsgOk(s, m) && ReplyPoint(s, lin, m) && MsgOk(s, Req(id, attempt));
    WithoutAll(s, lin, id);
    ServePoints(w, s, id, attempt, lin);
    if m.id == id && Current(s, id, m.attempt) {
      // Its current attempt is answered, so nothing of this operation can take effect.
      ServeFacts(s.data, s.calls[id].inp);
      assert false;
    }
  }

  lemma ExecuteStep(w: Setting, s: Sys, id: nat, attempt: nat, lin: seq<Point>)
    requires Inv(w, s) && Sound(w) && LinInv(s, lin) && Possible(s, Execute(id, attempt))
    ensures MsgsOk(AfterExecute(s, id, attempt))
    ensures LinInv(AfterExecute(s, id, attempt), Serve1(s, id, attempt, lin))
  {
    var s', lin' := AfterExecute(s, id, attempt), Serve1(s, id, attempt, lin);
    MsgsKept(s, Execute(id, attempt));
    if Touched(s, id, attempt) {
      ServeLegal(w, s, id, attempt, lin);
      ServePoints(w, s, id, attempt, lin);
    } else {
      ServeFacts(s.data, s.calls[id].inp);
      forall p | p in lin ensures PointOk(s', p) { assert PointOk(s, p); }
    }
    ServeReply(w, s, id, attempt, lin);
    forall m | m in s'.net && m.Rep? ensures ReplyPoint(s', lin', m) {
      if m in s.net {
        assert MsgOk(s, m) && ReplyPoint(s, lin, m);
        if Touched(s, id, attempt) { ServeOthers(w, s, id, attempt, lin, m); }
      }
    }
  }

  lemma {:induction false} RunLin(w: Setting, run: seq<Sys>, k: nat) returns (lin: seq<Point>)
    requires IsRun(w, run) && Sound(w) && k < |run|
    ensures MsgsOk(run[k]) && LinInv(run[k], lin)
  {
    if k == 0 {
      lin := [];
    } else {
      var before := RunLin(w, run, k - 1);
      RunInv(w, run, k - 1);
      var s := run[k - 1];
      var a := ActionOf(w, run, k);
      match a
      case Execute(id, attempt) =>
        ExecuteStep(w, s, id, attempt, before);
        lin := Serve1(s, id, attempt, before);
      case Receive(id, out) =>
        ReceiveStep(w, s, id, out, before);
        lin := Settle(s, id, out, before);
      case _ =>
        QuietStep(w, s, a, before);
        lin := before;
    }
  }

  // ---- Linearizability -----------------------------------------------------------

  ghost function Entries(order: seq<Point>): seq<Entry> {
    seq(|order|, i requires 0 <= i < |order| => Entry(order[i].inp, order[i].out))
  }

  /** Call `b` returned before call `a` was made. */
  ghost predicate Precedes(b: Call, a: Call) {
    b.status.Returned? && b.status.at < a.calledAt
  }

  ghost predicate InsideCall(c: Call, at: nat) {
    c.calledAt <= at && (c.status.Returned? ==> at <= c.status.at)
  }

  /** `order` linearizes the history recorded in `calls`: it has at most one point for each
      operation, with the operation's input and returned output and a time inside the call;
      it has one for each returned operation but the Puts that returned ErrNoKey and for none
      of those; it never contradicts real time; and on each key it replays as legal steps of
      the model. Operations that have not returned may take place or not. */
  ghost predicate IsLinearization(calls: seq<Call>, order: seq<Point>) {
    && (forall i :: 0 <= i < |order| ==>
        && order[i].id < |calls|
        && order[i].inp == calls[order[i].id].inp
        && InsideCall(calls[order[i].id], order[i].at)
        && (calls[order[i].id].status.Returned? ==> order[i].out == calls[order[i].id].status.out)
        && !Excluded(calls[order[i].id]))
    && (forall i, j :: 0 <= i < j < |order| ==>
        order[i].id != order[j].id && !Precedes(calls[order[j].id], calls[order[i].id]))
    && (forall id: nat :: id < |calls| && calls[id].status.Returned? && !Excluded(calls[id]) ==>
        HasPoint(order, id))
    && (forall key :: Replay(OnKey(Entries(order), key)).0)
  }

  ghost predicate Linearizable(calls: seq<Call>) {
    exists order :: IsLinearization(calls, order)
  }

  lemma {:induction false} LegalReplays(lin: seq<Point>, key: string)
    requires Legal(lin)
    ensures Replay(OnKey(Entries(lin), key)) == (true, StateAfter(lin, key))
  {
    if lin != [] {
      var init, p := lin[..|lin| - 1], lin[|lin| - 1];
      LegalReplays(init, key);
      assert Entries(lin)[..|lin| - 1] == Entries(init);
      if p.inp.key == key {
        var rest := OnKey(Entries(init), key);
        assert OnKey(Entries(lin), key) == rest + [Entry(p.inp, p.out)];
        assert (rest + [Entry(p.inp, p.out)])[..|rest|] == rest;
      }
    }
  }

  lemma {:induction false} LegalHasNoErrNoKey(lin: seq<Point>, p: Point)
    requires Legal(lin) && p in lin && p.inp.PutIn?
    ensures p.out.err != ErrNoKey
  {
    if p != lin[|lin| - 1] {
      assert p in lin[..|lin| - 1];
      LegalHasNoErrNoKey(lin[..|lin| - 1], p);
    }
  }

  /** Linearizability of every history, whenever the network is prompt or clients pass only
      versions they have seen. The order also ends in the very contents of the store. */
  lemma EveryHistoryLinearizes(w: Setting, run: seq<Sys>, k: nat) returns (order: seq<Point>)
    requires IsRun(w, run) && Sound(w) && k < |run|
    ensures IsLinearization(run[k].calls, order)
    ensures forall key ::
      Replay(OnKey(Entries(order), key)).1 ==
      KvState(ValueOf(run[k].data, key), VersionOf(run[k].data, key))
  {
    var s := run[k];
    order := RunLin(w, run, k);
    forall i | 0 <= i < |order| ensures PointOk(s, order[i]) && !Excluded(s.calls[order[i].id]) {
      assert order[i] in order;
      if order[i].inp.PutIn? { LegalHasNoErrNoKey(order, order[i]); }
    }
    forall key ensures Replay(OnKey(Entries(order), key)) == (true, StateAfter(order, key)) {
      LegalReplays(order, key);
    }
  }
}
