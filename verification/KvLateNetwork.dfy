/** Why linearizability needs one of its two assumptions: when a clerk gives up on requests
    that are still travelling and a client passes a version the key has not reached, the
    old request can take effect after the Put has returned. */
module KvLateNetwork {
  import opened KvServer
  import opened KvModel
  import opened KvNetwork
  import opened KvLinearizability

  const ANYTHING := Setting(true, false)

  ghost predicate RunTo(run: seq<Sys>, s: Sys) {
    IsRun(ANYTHING, run) && run[|run| - 1] == s
  }

  lemma Extend(run: seq<Sys>, s: Sys, a: Action) returns (run': seq<Sys>)
    requires RunTo(run, s) && Possible(s, a)
    ensures RunTo(run', Apply(s, a)) && run <= run'
  {
    run' := run + [Apply(s, a)];
    assert Enabled(ANYTHING, s, a);
    assert Next(ANYTHING, s, Apply(s, a));
    forall k: nat | 0 < k < |run'| ensures StepAt(ANYTHING, run', k) {
      if k < |run| { assert StepAt(ANYTHING, run, k); }
    }
  }

  /** The state after an operation that is served and answered at its first attempt. */
  ghost function AfterCall(s: Sys, inp: KvInput): Sys {
    var (data', out) := Serve(s.data, inp);
    Sys(data', s.calls + [Call(inp, s.clock, Returned(out, s.clock + 1))], s.net, s.clock + 2,
        if TakesEffect(s.data, inp) then s.effects + [|s.calls|] else s.effects)
  }

  lemma CallThrough(run: seq<Sys>, s: Sys, inp: KvInput) returns (run': seq<Sys>)
    requires RunTo(run, s) && forall m :: m in s.net ==> m.id < |s.calls|
    ensures RunTo(run', AfterCall(s, inp)) && run <= run'
  {
    var id, out := |s.calls|, Serve(s.data, inp).1;
    run' := Extend(run, s, Invoke(inp));
    var s1 := Apply(s, Invoke(inp));
    run' := Extend(run', s1, Execute(id, 0));
    var s2 := Apply(s1, Execute(id, 0));
    assert s2.net == s.net + {Rep(id, 0, out)};
    run' := Extend(run', s2, Receive(id, out));
    var s3 := Apply(s2, Receive(id, out));
    assert s3.net == s.net;
    assert s3.calls == AfterCall(s, inp).calls;
  }

  const KEY := "k"
  const FIRST := PutIn(KEY, "a", 0)
  const AHEAD := PutIn(KEY, "x", 2)
  const SECOND := PutIn(KEY, "b", 1)
  const MAYBE := KvOutput("", 0, ErrMaybe)
  const DONE := KvOutput("", 0, OK)

  /** A history in which a Put that returned ErrMaybe takes effect afterwards. */
  ghost function LateHistory(): seq<Call> {
    [Call(FIRST, 0, Returned(DONE, 1)),
     Call(AHEAD, 2, Returned(MAYBE, 3)),
     Call(SECOND, 4, Returned(DONE, 5)),
     Call(GetIn(KEY), 6, Returned(KvOutput("x", 3, OK), 7))]
  }

  /** The state after the Put that is ahead has returned, its first request still travelling. */
  ghost function AfterAhead(): Sys {
    Sys(map[KEY := KeyValue("a", 1)], LateHistory()[..2], {Req(1, 0)}, 4, [0])
  }

  ghost function AfterFirst(): Sys {
    Sys(map[KEY := KeyValue("a", 1)], LateHistory()[..1], {}, 2, [0])
  }

  /** The state in which the Put that is ahead has been retried, both requests travelling. */
  ghost function AfterRetry(): Sys {
    Sys(map[KEY := KeyValue("a", 1)], LateHistory()[..1] + [Call(AHEAD, 2, Pending(1))],
        {Req(1, 0), Req(1, 1)}, 3, [0])
  }

  lemma ReachFirst() returns (run: seq<Sys>)
    ensures RunTo(run, AfterFirst())
  {
    run := CallThrough([Init()], Init(), FIRST);
    assert AfterCall(Init(), FIRST).calls == LateHistory()[..1];
  }

  lemma ReachRetry() returns (run: seq<Sys>)
    ensures RunTo(run, AfterRetry())
  {
    run := ReachFirst();
    var s := AfterFirst();
    run := Extend(run, s, Invoke(AHEAD));
    s := Apply(s, Invoke(AHEAD));
    run := Extend(run, s, Retry(1));
    s := Apply(s, Retry(1));
    assert s.net == {Req(1, 0), Req(1, 1)};
    assert s.calls == AfterRetry().calls;
  }

  lemma ReachAhead() returns (run: seq<Sys>)
    ensures RunTo(run, AfterAhead())
  {
    run := ReachRetry();
    var s := AfterRetry();
    run := Extend(run, s, Execute(1, 1));
    s := Apply(s, Execute(1, 1));
    var out := KvOutput("", 0, ErrVersion);
    assert s.net == {Req(1, 0), Rep(1, 1, out)};
    run := Extend(run, s, Receive(1, out));
    s := Apply(s, Receive(1, out));
    assert s.calls == LateHistory()[..2];
    assert s.net == {Req(1, 0)};
  }

  lemma ReachLate() returns (run: seq<Sys>)
    ensures IsRun(ANYTHING, run) && run[|run| - 1].calls == LateHistory()
  {
    run := ReachAhead();
    run := CallThrough(run, AfterAhead(), SECOND);
    var s := AfterCall(AfterAhead(), SECOND);
    assert s.calls == LateHistory()[..3];
    assert s.data[KEY] == KeyValue("b", 2);
    run := Extend(run, s, Execute(1, 0));
    s := Apply(s, Execute(1, 0));
    assert s.data[KEY] == KeyValue("x", 3);
    run := CallThrough(run, s, GetIn(KEY));
    assert AfterCall(s, GetIn(KEY)).calls == LateHistory();
  }

  lemma Position(order: seq<Point>, id: nat) returns (i: nat)
    requires HasPoint(order, id)
    ensures i < |order| && order[i].id == id
  {
    var p :| p in order && p.id == id;
    i :| 0 <= i < |order| && order[i] == p;
  }

  /** The four calls follow one another, so they can only take place in that order. */
  lemma OnlyOrder(order: seq<Point>)
    requires IsLinearization(LateHistory(), order)
    ensures |order| == 4 && forall i :: 0 <= i < 4 ==> order[i].id == i
  {
    var calls := LateHistory();
    assert forall id: nat :: id < 4 ==> calls[id].status.Returned? && !Excluded(calls[id]);
    var a := Position(order, 0);
    var b := Position(order, 1);
    var c := Position(order, 2);
    var d := Position(order, 3);
    assert a < b < c < d;
    forall i: nat | i < |order|
      ensures order[i].id == (if i == a then 0 else if i == b then 1 else if i == c then 2 else 3)
      ensures order[i].id == 3 ==> i == d
    {
      OnePosition(order, i, a);
      OnePosition(order, i, b);
      OnePosition(order, i, c);
      OnePosition(order, i, d);
    }
    assert order[0].id < 4 && a == 0;
    assert order[1].id < 4 && b == 1;
    assert order[2].id < 4 && c == 2;
    assert order[3].id < 4 && d == 3;
    assert order[|order| - 1].id < 4;
  }

  lemma OnePosition(order: seq<Point>, i: nat, j: nat)
    requires IsLinearization(LateHistory(), order) && i < |order| && j < |order|
    ensures order[i].id < 4
    ensures order[i].id == order[j].id ==> i == j
  {
  }

  ghost function LateEntries(): seq<Entry> {
    [Entry(FIRST, DONE), Entry(AHEAD, MAYBE), Entry(SECOND, DONE), Entry(GetIn(KEY), KvOutput("x", 3, OK))]
  }

  lemma {:induction false} AllOnKey(es: seq<Entry>, key: string)
    requires forall e :: e in es ==> e.inp.key == key
    ensures OnKey(es, key) == es
  {
    if es != [] {
      assert es == es[..|es| - 1] + [es[|es| - 1]];
      AllOnKey(es[..|es| - 1], key);
    }
  }

  lemma LateReplay()
    ensures !Replay(LateEntries()).0
  {
    var es := LateEntries();
    assert Replay(es[..0]) == (true, INIT);
    assert es[..1][..0] == es[..0] && es[..2][..1] == es[..1] && es[..3][..2] == es[..2];
    assert Replay(es[..1]) == (true, KvState("a", 1));
    assert Replay(es[..2]) == (true, KvState("a", 1));
    assert Replay(es[..3]) == (true, KvState("b", 2));
  }

  lemma LateHistoryFails()
    ensures !Linearizable(LateHistory())
  {
    forall order | IsLinearization(LateHistory(), order) ensures false {
      OnlyOrder(order);
      assert Entries(order) == LateEntries();
      AllOnKey(LateEntries(), KEY);
      assert OnKey(Entries(order), KEY) == LateEntries();
      LateReplay();
    }
  }

  /** Histories are linearizable in exactly the settings whose network is prompt or whose
      clients pass only versions they have seen. */
  lemma LinearizableExactly(w: Setting)
    ensures Sound(w) <==>
      forall run: seq<Sys>, k: nat :: IsRun(w, run) && k < |run| ==> Linearizable(run[k].calls)
  {
    if Sound(w) {
      forall run: seq<Sys>, k: nat | IsRun(w, run) && k < |run| ensures Linearizable(run[k].calls) {
        var order := EveryHistoryLinearizes(w, run, k);
      }
    } else {
      assert w == ANYTHING;
      var run := ReachLate();
      LateHistoryFails();
      var k: nat := |run| - 1;
      assert !Linearizable(run[k].calls);
    }
  }
}
