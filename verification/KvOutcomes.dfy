/** What the result of a Put tells its caller, and how versions count the Puts. */
module KvOutcomes {
  import opened Common
  import opened KvServer
  import opened KvNetwork

  ghost function Count(ids: seq<nat>, id: nat): nat {
    multiset(ids)[id]
  }

  ghost predicate NoRepeats(ids: seq<nat>) {
    forall i, j :: 0 <= i < j < |ids| ==> ids[i] != ids[j]
  }

  /** The changes made to `key`, as the operations that made them. */
  ghost function EffectsOn(calls: seq<Call>, effects: seq<nat>, key: string): (r: set<nat>)
    ensures forall id :: id in r <==> id in effects && id < |calls| && calls[id].inp.key == key
  {
    set id | id in effects && id < |calls| && calls[id].inp.key == key
  }

  // ---- Each operation changes the store at most once -----------------------------

  /** The store's versions count the changes, each of which found the version it asked for. */
  ghost predicate Counted(s: Sys) {
    && NoRepeats(s.effects)
    && (forall key :: VersionOf(s.data, key) == |EffectsOn(s.calls, s.effects, key)|)
    && (forall i: nat :: i < |s.effects| ==> FoundVersion(s.calls, s.effects, i))
  }

  /** Change `i` is a Put that asked for the number of changes made to its key before it. */
  ghost predicate FoundVersion(calls: seq<Call>, effects: seq<nat>, i: nat)
    requires i < |effects|
  {
    && effects[i] < |calls| && calls[effects[i]].inp.PutIn?
    && calls[effects[i]].inp.version == |EffectsOn(calls, effects[..i], calls[effects[i]].inp.key)|
  }

  lemma SameInputs(calls: seq<Call>, calls': seq<Call>, effects: seq<nat>, key: string)
    requires |calls| <= |calls'|
    requires forall id: nat :: id < |calls| ==> calls'[id].inp == calls[id].inp
    requires forall id :: id in effects ==> id < |calls|
    ensures EffectsOn(calls', effects, key) == EffectsOn(calls, effects, key)
  {
  }

  lemma OneMore(calls: seq<Call>, effects: seq<nat>, id: nat, key: string)
    requires id < |calls| && id !in effects
    ensures |EffectsOn(calls, effects + [id], key)| ==
      |EffectsOn(calls, effects, key)| + if calls[id].inp.key == key then 1 else 0
  {
    var before, after := EffectsOn(calls, effects, key), EffectsOn(calls, effects + [id], key);
    if calls[id].inp.key == key {
      assert after == before + {id};
    } else {
      assert after == before;
    }
  }

  lemma CountedQuiet(s: Sys, a: Action)
    requires Counted(s) && Possible(s, a) && !a.Execute?
    ensures Counted(Apply(s, a))
  {
    var s' := Apply(s, a);
    forall id | id in s.effects ensures id < |s.calls| {
      var i := PutAt(s, id);
    }
    forall key ensures VersionOf(s'.data, key) == |EffectsOn(s'.calls, s'.effects, key)| {
      SameInputs(s.calls, s'.calls, s.effects, key);
    }
    forall i: nat | i < |s.effects| ensures FoundVersion(s'.calls, s.effects, i) {
      assert FoundVersion(s.calls, s.effects, i);
      assert forall id :: id in s.effects[..i] ==> id in s.effects;
      SameInputs(s.calls, s'.calls, s.effects[..i], s.calls[s.effects[i]].inp.key);
    }
  }

  lemma CountedVersions(s: Sys, id: nat, attempt: nat)
    requires ValidStore(s.data) && Counted(s) && Possible(s, Execute(id, attempt))
    requires TakesEffect(s.data, s.calls[id].inp) && id !in s.effects
    ensures var s' := AfterExecute(s, id, attempt);
      forall key :: VersionOf(s'.data, key) == |EffectsOn(s'.calls, s'.effects, key)|
  {
    var s' := AfterExecute(s, id, attempt);
    ServeFacts(s.data, s.calls[id].inp);
    forall key ensures VersionOf(s'.data, key) == |EffectsOn(s'.calls, s'.effects, key)| {
      OneMore(s.calls, s.effects, id, key);
    }
  }

  lemma CountedExecute(s: Sys, id: nat, attempt: nat)
    requires Base(s) && Counted(s) && Possible(s, Execute(id, attempt))
    ensures Counted(AfterExecute(s, id, attempt))
  {
    var s' := AfterExecute(s, id, attempt);
    ServeFacts(s.data, s.calls[id].inp);
    if TakesEffect(s.data, s.calls[id].inp) {
      if id in s.effects { EffectIsOnce(s, id); }
      CountedVersions(s, id, attempt);
      forall i: nat | i < |s'.effects| ensures FoundVersion(s'.calls, s'.effects, i) {
        assert s'.effects[..i] == s.effects[..i];
        if i < |s.effects| { assert FoundVersion(s.calls, s.effects, i); }
      }
    }
  }

  /** In every setting the versions count the changes, and no Put makes two. */
  lemma {:induction false} RunCounted(w: Setting, run: seq<Sys>, k: nat)
    requires IsRun(w, run) && k < |run|
    ensures Counted(run[k])
  {
    if k > 0 {
      RunCounted(w, run, k - 1);
      RunBase(w, run, k - 1);
      var a := ActionOf(w, run, k);
      if a.Execute? {
        CountedExecute(run[k - 1], a.id, a.attempt);
      } else {
        CountedQuiet(run[k - 1], a);
      }
    } else {
      forall key ensures EffectsOn(run[0].calls, run[0].effects, key) == {} {
      }
    }
  }

  // ---- What a returned Put tells its caller --------------------------------------

  ghost predicate HasReturned(s: Sys, id: nat) {
    id < |s.calls| && s.calls[id].inp.PutIn? && s.calls[id].status.Returned?
  }

  /** In every setting a result stays, and so does an effect. */
  lemma {:induction false} ResultStays(w: Setting, run: seq<Sys>, j: nat, k: nat, id: nat)
    requires IsRun(w, run) && j <= k < |run| && HasReturned(run[j], id)
    ensures id < |run[k].calls| && run[k].calls[id] == run[j].calls[id]
    ensures id in run[j].effects ==> id in run[k].effects
  {
    if j < k {
      ResultStays(w, run, j, k - 1, id);
      var a := ActionOf(w, run, k);
    }
  }

  lemma ReturnedStep(w: Setting, s: Sys, a: Action, id: nat)
    requires Inv(w, s) && Sound(w) && Enabled(w, s, a) && HasReturned(s, id)
    ensures id in Apply(s, a).effects <==> id in s.effects
  {
    if a.Execute? && a.id == id { ReturnedIsInert(w, s, id, a.attempt); }
  }

  lemma {:induction false} ReturnedForGood(w: Setting, run: seq<Sys>, j: nat, k: nat, id: nat)
    requires IsRun(w, run) && Sound(w) && j <= k < |run| && HasReturned(run[j], id)
    ensures id in run[k].effects <==> id in run[j].effects
  {
    if j < k {
      ReturnedForGood(w, run, j, k - 1, id);
      ResultStays(w, run, j, k - 1, id);
      RunInv(w, run, k - 1);
      var a := ActionOf(w, run, k);
      ReturnedStep(w, run[k - 1], a, id);
    }
  }

  lemma {:induction false} CountOfNoRepeats(ids: seq<nat>, id: nat)
    requires NoRepeats(ids)
    ensures Count(ids, id) == if id in ids then 1 else 0
  {
    if ids != [] {
      var init := ids[..|ids| - 1];
      assert ids == init + [ids[|ids| - 1]];
      CountOfNoRepeats(init, id);
      assert multiset(ids) == multiset(init) + multiset{ids[|ids| - 1]};
    }
  }

  /** Put outcomes in every setting. At every moment `k` after the return at moment `j`: OK
      means that the Put has changed the store exactly once, ErrVersion that it has not changed
      it, and any other result that it changed it at most once. As `k` is arbitrary, this is
      also what will ever happen. */
  lemma PutOutcome(w: Setting, run: seq<Sys>, j: nat, k: nat, id: nat)
    requires IsRun(w, run) && j <= k < |run| && HasReturned(run[j], id)
    ensures var err := run[j].calls[id].status.out.err;
      && (err == OK ==> Count(run[k].effects, id) == 1)
      && (err == ErrVersion ==> Count(run[k].effects, id) == 0 && Silent(run[k], id))
      && Count(run[j].effects, id) <= Count(run[k].effects, id) <= 1
  {
    RunBase(w, run, k);
    ResultStays(w, run, j, k, id);
    assert ResultOk(run[k], id);
    RunCounted(w, run, j);
    RunCounted(w, run, k);
    CountOfNoRepeats(run[j].effects, id);
    CountOfNoRepeats(run[k].effects, id);
  }

  /** What some settings add: a Put that has returned does not take effect any more. */
  ghost predicate NothingLater(w: Setting) {
    forall run: seq<Sys>, j: nat, k: nat, id: nat ::
      IsRun(w, run) && j <= k < |run| && HasReturned(run[j], id) ==>
        Count(run[k].effects, id) == Count(run[j].effects, id)
  }

  /** And a Put that has returned ErrNoKey never takes effect. */
  ghost predicate NoKeyMeansNever(w: Setting) {
    forall run: seq<Sys>, k: nat, id: nat ::
      IsRun(w, run) && k < |run| && HasReturned(run[k], id) && run[k].calls[id].status.out.err == ErrNoKey ==>
        Count(run[k].effects, id) == 0
  }

  lemma SoundOutcome(w: Setting, run: seq<Sys>, j: nat, k: nat, id: nat)
    requires IsRun(w, run) && Sound(w) && j <= k < |run| && HasReturned(run[j], id)
    ensures Count(run[k].effects, id) == Count(run[j].effects, id)
    ensures run[j].calls[id].status.out.err == ErrNoKey ==> Count(run[j].effects, id) == 0
  {
    ReturnedForGood(w, run, j, k, id);
    RunInv(w, run, j);
    assert NoKeyOk(run[j], id);
    RunCounted(w, run, j);
    RunCounted(w, run, k);
    CountOfNoRepeats(run[j].effects, id);
    CountOfNoRepeats(run[k].effects, id);
  }

  lemma SoundOutcomes(w: Setting)
    requires Sound(w)
    ensures NothingLater(w) && NoKeyMeansNever(w)
  {
    forall run: seq<Sys>, j: nat, k: nat, id: nat
      | IsRun(w, run) && j <= k < |run| && HasReturned(run[j], id)
      ensures Count(run[k].effects, id) == Count(run[j].effects, id)
    {
      SoundOutcome(w, run, j, k, id);
    }
    forall run: seq<Sys>, k: nat, id: nat
      | IsRun(w, run) && k < |run| && HasReturned(run[k], id) && run[k].calls[id].status.out.err == ErrNoKey
      ensures Count(run[k].effects, id) == 0
    {
      SoundOutcome(w, run, k, k, id);
    }
  }

  // ---- Versions count Puts -------------------------------------------------------

  /** The Puts on `key` that have returned `err`. */
  ghost function PutsWith(calls: seq<Call>, key: string, err: Err): (r: set<nat>)
    ensures forall id :: id in r <==>
      0 <= id < |calls| && calls[id].inp.PutIn? && calls[id].inp.key == key
      && calls[id].status.Returned? && calls[id].status.out.err == err
  {
    set id: nat | 0 <= id < |calls| && calls[id].inp.PutIn? && calls[id].inp.key == key
                  && calls[id].status.Returned? && calls[id].status.out.err == err
  }

  ghost predicate NoPutPending(calls: seq<Call>, key: string) {
    forall id: nat :: id < |calls| && calls[id].inp.PutIn? && calls[id].inp.key == key ==>
      calls[id].status.Returned?
  }

  lemma EarlierVersion(s: Sys, i: nat, j: nat)
    requires Counted(s) && i < j < |s.effects|
    requires FoundVersion(s.calls, s.effects, i) && FoundVersion(s.calls, s.effects, j)
    requires s.calls[s.effects[i]].inp.key == s.calls[s.effects[j]].inp.key
    ensures s.calls[s.effects[i]].inp.version < s.calls[s.effects[j]].inp.version
  {
    var key := s.calls[s.effects[i]].inp.key;
    OneMore(s.calls, s.effects[..i], s.effects[i], key);
    SubsetSize(EffectsOn(s.calls, s.effects[..i] + [s.effects[i]], key),
               EffectsOn(s.calls, s.effects[..j], key));
  }

  lemma DifferentVersions(s: Sys, key: string, a: nat, b: nat)
    requires Counted(s) && a != b
    requires a in EffectsOn(s.calls, s.effects, key) && b in EffectsOn(s.calls, s.effects, key)
    ensures s.calls[a].inp.PutIn? && s.calls[b].inp.PutIn?
    ensures s.calls[a].inp.version != s.calls[b].inp.version
  {
    var i := PutAt(s, a);
    var j := PutAt(s, b);
    if i < j { EarlierVersion(s, i, j); } else { EarlierVersion(s, j, i); }
  }

  lemma PutAt(s: Sys, id: nat) returns (i: nat)
    requires Counted(s) && id in s.effects
    ensures i < |s.effects| && s.effects[i] == id && FoundVersion(s.calls, s.effects, i)
  {
    i :| 0 <= i < |s.effects| && s.effects[i] == id;
  }

  /** Version conservation in every setting: a key's version is the number of Puts that took
      effect on it, no two of them took effect at the same version, and there are at least as
      many as have returned OK. */
  lemma VersionConservation(w: Setting, run: seq<Sys>, k: nat, key: string)
    requires IsRun(w, run) && k < |run|
    ensures var s := run[k];
      var changed := EffectsOn(s.calls, s.effects, key);
      && VersionOf(s.data, key) == |changed|
      && (forall a, b :: a in changed && b in changed && a != b ==>
          s.calls[a].inp.PutIn? && s.calls[b].inp.PutIn?
          && s.calls[a].inp.version != s.calls[b].inp.version)
      && |PutsWith(s.calls, key, OK)| <= VersionOf(s.data, key)
  {
    var s := run[k];
    var changed := EffectsOn(s.calls, s.effects, key);
    RunCounted(w, run, k);
    RunBase(w, run, k);
    forall a, b | a in changed && b in changed && a != b
      ensures s.calls[a].inp.PutIn? && s.calls[b].inp.PutIn?
      ensures s.calls[a].inp.version != s.calls[b].inp.version
    {
      DifferentVersions(s, key, a, b);
    }
    AtLeastOk(s, key);
  }

  lemma AtLeastOk(s: Sys, key: string)
    requires ResultsOk(s)
    ensures |PutsWith(s.calls, key, OK)| <= |EffectsOn(s.calls, s.effects, key)|
  {
    var ok, changed := PutsWith(s.calls, key, OK), EffectsOn(s.calls, s.effects, key);
    forall id | id in ok ensures id in changed { assert ResultOk(s, id); }
    SubsetSize(ok, changed);
  }

  /** What some settings add: once every Put on a key has returned, its version is at most the
      number of those that returned OK or ErrMaybe. */
  ghost predicate VersionsBounded(w: Setting) {
    forall run: seq<Sys>, k: nat, key: string ::
      IsRun(w, run) && k < |run| && NoPutPending(run[k].calls, key) ==>
        VersionOf(run[k].data, key) <=
        |PutsWith(run[k].calls, key, OK)| + |PutsWith(run[k].calls, key, ErrMaybe)|
  }

  lemma AtMostMaybe(w: Setting, s: Sys, key: string)
    requires Inv(w, s) && NoPutPending(s.calls, key)
    ensures |EffectsOn(s.calls, s.effects, key)| <=
      |PutsWith(s.calls, key, OK)| + |PutsWith(s.calls, key, ErrMaybe)|
  {
    var changed := EffectsOn(s.calls, s.effects, key);
    var ok, maybe := PutsWith(s.calls, key, OK), PutsWith(s.calls, key, ErrMaybe);
    forall id | id in changed ensures id in ok + maybe {
      assert EffectOk(s, id) && ResultOk(s, id) && NoKeyOk(s, id);
    }
    SubsetSize(changed, ok + maybe);
    assert |ok + maybe| == |ok| + |maybe| - |ok * maybe|;
  }

  lemma SoundVersions(w: Setting)
    requires Sound(w)
    ensures VersionsBounded(w)
  {
    forall run: seq<Sys>, k: nat, key: string
      | IsRun(w, run) && k < |run| && NoPutPending(run[k].calls, key)
      ensures VersionOf(run[k].data, key) <=
        |PutsWith(run[k].calls, key, OK)| + |PutsWith(run[k].calls, key, ErrMaybe)|
    {
      RunInv(w, run, k);
      RunCounted(w, run, k);
      AtMostMaybe(w, run[k], key);
    }
  }
}
