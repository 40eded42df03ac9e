/** Which settings make the result of a Put final. When a clerk gives up on a request that is
    still travelling and a client passes a version the key has not reached, a Put can return
    ErrNoKey and take effect afterwards. */
module KvLateOutcomes {
  import opened KvServer
  import opened KvModel
  import opened KvNetwork
  import opened KvOutcomes
  import opened KvLateNetwork

  const EARLY := PutIn(KEY, "x", 1)
  const NO_KEY := KvOutput("", 0, ErrNoKey)

  /** The Put has returned ErrNoKey, its first request still travelling. */
  ghost function AfterNoKey(): Sys {
    Sys(map[], [Call(EARLY, 0, Returned(NO_KEY, 1))], {Req(0, 0)}, 2, [])
  }

  lemma ReachNoKey() returns (run: seq<Sys>)
    ensures RunTo(run, AfterNoKey())
  {
    var s := Init();
    run := Extend([s], s, Invoke(EARLY));
    s := Apply(s, Invoke(EARLY));
    run := Extend(run, s, Retry(0));
    s := Apply(s, Retry(0));
    assert s.net == {Req(0, 0), Req(0, 1)};
    run := Extend(run, s, Execute(0, 1));
    s := Apply(s, Execute(0, 1));
    assert s.net == {Req(0, 0), Rep(0, 1, NO_KEY)};
    run := Extend(run, s, Receive(0, NO_KEY));
    s := Apply(s, Receive(0, NO_KEY));
    assert s.net == {Req(0, 0)};
    assert s.calls == AfterNoKey().calls;
  }

  /** The key has been created and then changed by the old request. */
  ghost function AfterOldRequest(): Sys {
    Sys(map[KEY := KeyValue("x", 2)],
        [Call(EARLY, 0, Returned(NO_KEY, 1)), Call(FIRST, 2, Returned(DONE, 3))],
        {Rep(0, 0, DONE)}, 4, [1, 0])
  }

  lemma ReachOldRequest() returns (run: seq<Sys>, j: nat)
    ensures RunTo(run, AfterOldRequest()) && j < |run| && run[j] == AfterNoKey()
  {
    run := ReachNoKey();
    j := |run| - 1;
    run := CallThrough(run, AfterNoKey(), FIRST);
    var s := AfterCall(AfterNoKey(), FIRST);
    assert s.data == map[KEY := KeyValue("a", 1)];
    run := Extend(run, s, Execute(0, 0));
    s := Apply(s, Execute(0, 0));
    assert s.net == {Rep(0, 0, DONE)};
    assert s.data == map[KEY := KeyValue("x", 2)];
    assert s.calls == AfterOldRequest().calls;
  }

  lemma OldRequestCounts()
    ensures Count(AfterNoKey().effects, 0) == 0 && Count(AfterOldRequest().effects, 0) == 1
    ensures PutsWith(AfterOldRequest().calls, KEY, OK) == {1}
    ensures PutsWith(AfterOldRequest().calls, KEY, ErrMaybe) == {}
  {
  }

  lemma LateOutcomes()
    ensures !NothingLater(ANYTHING) && !NoKeyMeansNever(ANYTHING) && !VersionsBounded(ANYTHING)
  {
    var run, j := ReachOldRequest();
    var k: nat, id: nat := |run| - 1, 0;
    OldRequestCounts();
    assert HasReturned(run[j], id) && HasReturned(run[k], id);
    assert Count(run[k].effects, id) != Count(run[j].effects, id);
    assert NoPutPending(run[k].calls, KEY);
    assert VersionOf(run[k].data, KEY) == 2;
  }

  /** A returned Put takes no effect any more, ErrNoKey means no effect, and versions stay
      within #OK + #ErrMaybe, each of them in exactly the settings whose network is prompt or
      whose clients pass only versions they have seen. */
  lemma OutcomesExactly(w: Setting)
    ensures NothingLater(w) <==> Sound(w)
    ensures NoKeyMeansNever(w) <==> Sound(w)
    ensures VersionsBounded(w) <==> Sound(w)
  {
    if Sound(w) {
      SoundOutcomes(w);
      SoundVersions(w);
    } else {
      assert w == ANYTHING;
      LateOutcomes();
    }
  }
}
