/** The sequential specification of one key, as the linearizability checker uses it. */
module KvModel {
  import opened Common
  import opened KvServer

  datatype KvInput = GetIn(key: string) | PutIn(key: string, value: string, version: nat)

  datatype KvOutput = KvOutput(value: string, version: nat, err: Err)

  datatype KvState = KvState(value: string, version: nat)

  const INIT := KvState("", 0)

  /** Whether the output is legal in the state, and the state after the operation. */
  function Step(st: KvState, inp: KvInput, out: KvOutput): (bool, KvState) {
    match inp
    case GetIn(_) => (out.value == st.value, st)
    case PutIn(_, value, version) =>
      if st.version == version
      then (out.err == OK || out.err == ErrMaybe, KvState(value, st.version + 1))
      else (out.err == ErrVersion || out.err == ErrMaybe, st)
  }

  /** The checker looks only at the value of a Get; this also pins its version and error. */
  predicate ExactGet(st: KvState, inp: KvInput, out: KvOutput) {
    inp.GetIn? ==> out.version == st.version && out.err == if st.version == 0 then ErrNoKey else OK
  }

  /** One operation of a linear order. */
  datatype Entry = Entry(inp: KvInput, out: KvOutput)

  /** The operations on one key, in order. */
  function OnKey(es: seq<Entry>, key: string): seq<Entry> {
    if es == [] then []
    else
      var rest := OnKey(es[..|es| - 1], key);
      if es[|es| - 1].inp.key == key then rest + [es[|es| - 1]] else rest
  }

  /** Selecting by key respects the order of the history and acts on each operation alone. */
  lemma {:induction false} OnKeyAppends(a: seq<Entry>, b: seq<Entry>, key: string)
    ensures OnKey(a + b, key) == OnKey(a, key) + OnKey(b, key)
    ensures |b| == 1 ==> OnKey(b, key) == if b[0].inp.key == key then b else []
  {
    if b == [] {
      assert a + b == a;
    } else {
      OnKeyAppends(a, b[..|b| - 1], key);
      assert (a + b)[..|a + b| - 1] == a + b[..|b| - 1];
    }
  }

  /** Replays the operations of one key from the initial state. */
  function Replay(es: seq<Entry>): (bool, KvState) {
    if es == [] then (true, INIT)
    else
      var (ok, st) := Replay(es[..|es| - 1]);
      var (legal, next) := Step(st, es[|es| - 1].inp, es[|es| - 1].out);
      (ok && legal, next)
  }

  // ---- Splitting a history by key ------------------------------------------------

  /** Strings in strictly increasing order. */
  predicate Ascending(keys: seq<string>) {
    forall i, j :: 0 <= i < j < |keys| ==> AtMost(keys[i], keys[j]) && keys[i] != keys[j]
  }

  lemma InsertedKey(keys: seq<string>, x: string, j: nat)
    requires Ascending(keys) && x !in keys && j <= |keys|
    requires j > 0 ==> AtMost(keys[j - 1], x)
    requires forall k :: j <= k < |keys| ==> AtMost(x, keys[k])
    ensures var r := keys[..j] + [x] + keys[j..]; Ascending(r) && forall k :: k in r <==> k in keys || k == x
  {
    assert keys == keys[..j] + keys[j..];
    forall k | 0 <= k < j ensures AtMost(keys[k], x) {
      if k < j - 1 { AtMostTransitive(keys[k], keys[j - 1], x); }
    }
    InsertedInOrder(keys, x, j);
  }

  lemma InsertedInOrder(keys: seq<string>, x: string, j: nat)
    requires Ascending(keys) && x !in keys && j <= |keys|
    requires forall k :: 0 <= k < j ==> AtMost(keys[k], x)
    requires forall k :: j <= k < |keys| ==> AtMost(x, keys[k])
    ensures Ascending(keys[..j] + [x] + keys[j..])
  {
  }

  method InsertKey(keys: seq<string>, x: string) returns (r: seq<string>)
    requires Ascending(keys) && x !in keys
    ensures Ascending(r) && forall k :: k in r <==> k in keys || k == x
  {
    var j := |keys|;
    while j > 0 && !AtMost(keys[j - 1], x)
      invariant 0 <= j <= |keys|
      invariant forall k :: j <= k < |keys| ==> AtMost(x, keys[k])
    {
      AtMostTotal(keys[j - 1], x);
      j := j - 1;
    }
    InsertedKey(keys, x, j);
    r := keys[..j] + [x] + keys[j..];
  }

  /** The keys of a map in the order that sorting gives them. */
  method SortedKeys(m: map<string, seq<Entry>>) returns (keys: seq<string>)
    ensures Ascending(keys) && forall k :: k in keys <==> k in m
  {
    keys := [];
    var rest := m.Keys;
    while rest != {}
      invariant rest <= m.Keys && Ascending(keys)
      invariant forall k :: k in keys <==> k in m && k !in rest
      decreases |rest|
    {
      ghost var member := SomeMember(rest);
      var k :| k in rest;
      keys := InsertKey(keys, k);
      rest := rest - {k};
    }
  }

  method GroupByKey(history: seq<Entry>) returns (m: map<string, seq<Entry>>)
    ensures forall key :: key in m <==> exists i :: 0 <= i < |history| && history[i].inp.key == key
    ensures forall key :: key in m ==> m[key] == OnKey(history, key)
  {
    m := map[];
    var i := 0;
    while i < |history|
      invariant 0 <= i <= |history|
      invariant forall key :: key in m <==> exists j :: 0 <= j < i && history[j].inp.key == key
      invariant forall key :: OnKey(history[..i], key) == if key in m then m[key] else []
    {
      var key := history[i].inp.key;
      ghost var before := m;
      m := m[key := (if key in m then m[key] else []) + [history[i]]];
      assert history[..i + 1][..i] == history[..i];
      assert forall k :: k in m <==> k in before || k == key;
      i := i + 1;
    }
    assert history[..i] == history;
  }

  /** `parts` are the parts of the history for `keys`, which are its keys in order. */
  ghost predicate IsPartition(history: seq<Entry>, keys: seq<string>, parts: seq<seq<Entry>>) {
    && Ascending(keys)
    && (forall key :: key in keys <==> exists i :: 0 <= i < |history| && history[i].inp.key == key)
    && |parts| == |keys|
    && forall i :: 0 <= i < |parts| ==> parts[i] == OnKey(history, keys[i])
  }

  /** Splits a history by key, keeping the order on each key. */
  method Partition(history: seq<Entry>) returns (parts: seq<seq<Entry>>)
    ensures exists keys :: IsPartition(history, keys, parts)
  {
    var m := GroupByKey(history);
    var keys := SortedKeys(m);
    parts := [];
    while |parts| < |keys|
      invariant |parts| <= |keys|
      invariant forall i :: 0 <= i < |parts| ==> parts[i] == OnKey(history, keys[i])
    {
      parts := parts + [m[keys[|parts|]]];
    }
    assert IsPartition(history, keys, parts);
  }

  /** No operation is lost or invented: each part has only operations of its key, and each
      operation of the history occurs in the part of its key as often as in the history. */
  lemma {:induction false} PartIsExact(history: seq<Entry>, key: string, e: Entry)
    ensures multiset(OnKey(history, key))[e] == if e.inp.key == key then multiset(history)[e] else 0
  {
    if history != [] {
      PartIsExact(history[..|history| - 1], key, e);
      assert history == history[..|history| - 1] + [history[|history| - 1]];
    }
  }
}
