/** Sorting key/value pairs by key and reducing each group of equal keys, as both the
    sequential program and the reduce task do. */
module MrGrouping {
  import opened Common

  datatype KeyValue = KeyValue(key: string, value: string)

  /** One line of output: a key, a space, the reduced value. */
  datatype Line = Line(key: string, output: string)

  type Reduce = (string, seq<string>) -> string

  predicate SortedByKey(s: seq<KeyValue>) {
    forall i, j :: 0 <= i < j < |s| ==> AtMost(s[i].key, s[j].key)
  }

  /** `s` is one of the results that sorting `kva` by key may give; the sort is not stable. */
  ghost predicate IsSortOf(s: seq<KeyValue>, kva: seq<KeyValue>) {
    SortedByKey(s) && multiset(s) == multiset(kva)
  }

  // ---- Sorting -------------------------------------------------------------------

  method InsertByKey(s: seq<KeyValue>, x: KeyValue) returns (r: seq<KeyValue>)
    requires SortedByKey(s)
    ensures IsSortOf(r, s + [x])
  {
    var j := |s|;
    while j > 0 && !AtMost(s[j - 1].key, x.key)
      invariant 0 <= j <= |s|
      invariant forall k :: j <= k < |s| ==> AtMost(x.key, s[k].key)
    {
      AtMostTotal(s[j - 1].key, x.key);
      j := j - 1;
    }
    r := s[..j] + [x] + s[j..];
    InsertedIsSorted(s, x, j);
  }

  lemma InsertedIsSorted(s: seq<KeyValue>, x: KeyValue, j: nat)
    requires SortedByKey(s) && j <= |s|
    requires j > 0 ==> AtMost(s[j - 1].key, x.key)
    requires forall k :: j <= k < |s| ==> AtMost(x.key, s[k].key)
    ensures IsSortOf(s[..j] + [x] + s[j..], s + [x])
  {
    assert s == s[..j] + s[j..];
    forall k | 0 <= k < j ensures AtMost(s[k].key, x.key) {
      if k < j - 1 { AtMostTransitive(s[k].key, s[j - 1].key, x.key); }
    }
    InsertedInOrder(s, x, j);
  }

  lemma InsertedInOrder(s: seq<KeyValue>, x: KeyValue, j: nat)
    requires SortedByKey(s) && j <= |s|
    requires forall k :: 0 <= k < j ==> AtMost(s[k].key, x.key)
    requires forall k :: j <= k < |s| ==> AtMost(x.key, s[k].key)
    ensures SortedByKey(s[..j] + [x] + s[j..])
  {
  }

  /** Stands for the library sort; callers know only that the result is sorted by key and a
      permutation. */
  method SortByKey(kva: seq<KeyValue>) returns (s: seq<KeyValue>)
    ensures IsSortOf(s, kva)
  {
    s := [];
    var i := 0;
    while i < |kva|
      invariant 0 <= i <= |kva|
      invariant IsSortOf(s, kva[..i])
    {
      assert kva[..i + 1] == kva[..i] + [kva[i]];
      s := InsertByKey(s, kva[i]);
      i := i + 1;
    }
    assert kva[..i] == kva;
  }

  // ---- Grouping ------------------------------------------------------------------

  function Values(s: seq<KeyValue>): (r: seq<string>)
    ensures |r| == |s| && forall i :: 0 <= i < |s| ==> r[i] == s[i].value
  {
    if s == [] then [] else Values(s[..|s| - 1]) + [s[|s| - 1].value]
  }

  /** The end of the group of equal keys that starts at `i`, looking from `j` on. */
  function GroupEnd(s: seq<KeyValue>, i: nat, j: nat): (e: nat)
    requires i < j <= |s|
    ensures j <= e <= |s|
    decreases |s| - j
  {
    if j < |s| && s[j].key == s[i].key then GroupEnd(s, i, j + 1) else j
  }

  /** The lines for the groups from index `i` on. */
  function GroupFrom(s: seq<KeyValue>, f: Reduce, i: nat): seq<Line>
    requires i <= |s|
    decreases |s| - i
  {
    if i == |s| then []
    else
      var e := GroupEnd(s, i, i + 1);
      [Line(s[i].key, f(s[i].key, Values(s[i..e])))] + GroupFrom(s, f, e)
  }

  method CollectValues(s: seq<KeyValue>, i: nat, j: nat) returns (values: seq<string>)
    requires i <= j <= |s|
    ensures values == Values(s[i..j])
  {
    values := [];
    var k := i;
    while k < j
      invariant i <= k <= j
      invariant values == Values(s[i..k])
    {
      values := values + [s[k].value];
      assert s[i..k + 1][..k - i] == s[i..k];
      k := k + 1;
    }
  }

  method GroupAndReduce(s: seq<KeyValue>, f: Reduce) returns (lines: seq<Line>)
    ensures lines == GroupFrom(s, f, 0)
  {
    lines := [];
    var i := 0;
    while i < |s|
      invariant 0 <= i <= |s|
      invariant lines + GroupFrom(s, f, i) == GroupFrom(s, f, 0)
    {
      var j := i + 1;
      while j < |s| && s[j].key == s[i].key
        invariant i < j <= |s|
        invariant GroupEnd(s, i, j) == GroupEnd(s, i, i + 1)
      {
        j := j + 1;
      }
      var values := CollectValues(s, i, j);
      lines := lines + [Line(s[i].key, f(s[i].key, values))];
      i := j;
    }
  }

  // ---- What grouping computes ----------------------------------------------------

  /** The values of one key, in the order of the pairs. */
  ghost function ValuesOf(s: seq<KeyValue>, key: string): seq<string> {
    if s == [] then []
    else
      var rest := ValuesOf(s[..|s| - 1], key);
      if s[|s| - 1].key == key then rest + [s[|s| - 1].value] else rest
  }

  ghost function KeysOf(s: seq<KeyValue>): (r: set<string>)
    ensures forall k :: k in r <==> exists i :: 0 <= i < |s| && s[i].key == k
  {
    set i | 0 <= i < |s| :: s[i].key
  }

  ghost function LineFor(s: seq<KeyValue>, f: Reduce, key: string): Line {
    Line(key, f(key, ValuesOf(s, key)))
  }

  /** The reference result: one line for each distinct key. */
  ghost function Lines(s: seq<KeyValue>, f: Reduce): (r: set<Line>)
    ensures forall l :: l in r <==> l.key in KeysOf(s) && l == LineFor(s, f, l.key)
  {
    set k | k in KeysOf(s) :: LineFor(s, f, k)
  }

  ghost predicate IgnoresOrder(f: Reduce) {
    forall k, vs, ws :: multiset(vs) == multiset(ws) ==> f(k, vs) == f(k, ws)
  }

  // -- Values of a key

  lemma {:induction false} ValuesOfConcat(a: seq<KeyValue>, b: seq<KeyValue>, key: string)
    ensures ValuesOf(a + b, key) == ValuesOf(a, key) + ValuesOf(b, key)
  {
    if b == [] {
      assert a + b == a;
    } else {
      ValuesOfConcat(a, b[..|b| - 1], key);
      assert (a + b)[..|a + b| - 1] == a + b[..|b| - 1];
    }
  }

  lemma {:induction false} ValuesOfGroup(s: seq<KeyValue>, key: string)
    requires forall i :: 0 <= i < |s| ==> s[i].key == key
    ensures ValuesOf(s, key) == Values(s)
  {
    if s != [] { ValuesOfGroup(s[..|s| - 1], key); }
  }

  lemma {:induction false} ValuesOfOther(s: seq<KeyValue>, key: string)
    requires forall i :: 0 <= i < |s| ==> s[i].key != key
    ensures ValuesOf(s, key) == []
  {
    if s != [] { ValuesOfOther(s[..|s| - 1], key); }
  }

  lemma {:induction false} CountOfValue(s: seq<KeyValue>, key: string, v: string)
    ensures multiset(ValuesOf(s, key))[v] == multiset(s)[KeyValue(key, v)]
  {
    if s != [] {
      CountOfValue(s[..|s| - 1], key, v);
      assert s == s[..|s| - 1] + [s[|s| - 1]];
    }
  }

  /** A permutation keeps the keys and, up to order, the values of each. */
  lemma PermutedLines(s: seq<KeyValue>, t: seq<KeyValue>, f: Reduce)
    requires multiset(s) == multiset(t) && IgnoresOrder(f)
    ensures Lines(s, f) == Lines(t, f)
  {
    forall k ensures k in KeysOf(s) <==> k in KeysOf(t) {
      PermutedKeys(s, t, k);
      PermutedKeys(t, s, k);
    }
    forall k ensures LineFor(s, f, k) == LineFor(t, f, k) {
      forall v ensures multiset(ValuesOf(s, k))[v] == multiset(ValuesOf(t, k))[v] {
        CountOfValue(s, k, v);
        CountOfValue(t, k, v);
      }
      assert multiset(ValuesOf(s, k)) == multiset(ValuesOf(t, k));
    }
  }

  lemma PermutedKeys(s: seq<KeyValue>, t: seq<KeyValue>, k: string)
    requires multiset(s) == multiset(t)
    ensures k in KeysOf(s) ==> k in KeysOf(t)
  {
    if k in KeysOf(s) {
      var i :| 0 <= i < |s| && s[i].key == k;
      assert s[i] in multiset(t);
      var j :| 0 <= j < |t| && t[j] == s[i];
    }
  }

  // -- Groups of a sorted sequence

  lemma {:induction false} GroupEndMeans(s: seq<KeyValue>, i: nat, j: nat)
    requires i < j <= |s| && forall k :: i <= k < j ==> s[k].key == s[i].key
    ensures var e := GroupEnd(s, i, j);
      && (forall k :: i <= k < e ==> s[k].key == s[i].key)
      && (e < |s| ==> s[e].key != s[i].key)
    decreases |s| - j
  {
    if j < |s| && s[j].key == s[i].key { GroupEndMeans(s, i, j + 1); }
  }

  /** In a sorted sequence a key does not come back after its group. */
  lemma GroupIsWhole(s: seq<KeyValue>, i: nat, k: nat)
    requires SortedByKey(s) && i < |s| && GroupEnd(s, i, i + 1) <= k < |s|
    ensures s[k].key != s[i].key
  {
    GroupEndMeans(s, i, i + 1);
    LaterIsOther(s, i, GroupEnd(s, i, i + 1), k);
  }

  lemma LaterIsOther(s: seq<KeyValue>, i: nat, e: nat, k: nat)
    requires SortedByKey(s) && i < e <= k < |s| && s[e].key != s[i].key
    ensures s[k].key != s[i].key
  {
    if e < k { NoReturn(s[i].key, s[e].key, s[k].key); }
  }

  lemma NoReturn(a: string, b: string, c: string)
    requires AtMost(a, b) && AtMost(b, c) && a != b
    ensures a != c
  {
    AtMostTotal(a, b);
  }

  /** The group at `i` and the rest of a sorted sequence share no key. */
  lemma GroupApart(s: seq<KeyValue>, i: nat)
    requires SortedByKey(s) && i < |s|
    ensures var e := GroupEnd(s, i, i + 1);
      && s[i..] == s[i..e] + s[e..]
      && (forall k :: 0 <= k < |s[i..e]| ==> s[i..e][k].key == s[i].key)
      && (forall k :: 0 <= k < |s[e..]| ==> s[e..][k].key != s[i].key)
  {
    var e := GroupEnd(s, i, i + 1);
    GroupEndMeans(s, i, i + 1);
    forall k | 0 <= k < |s[e..]| ensures s[e..][k].key != s[i].key { GroupIsWhole(s, i, e + k); }
  }

  lemma GroupValues(group: seq<KeyValue>, rest: seq<KeyValue>, key: string, k: string)
    requires forall i :: 0 <= i < |group| ==> group[i].key == key
    requires forall i :: 0 <= i < |rest| ==> rest[i].key != key
    ensures ValuesOf(group + rest, k) == if k == key then Values(group) else ValuesOf(rest, k)
  {
    ValuesOfConcat(group, rest, k);
    if k == key {
      ValuesOfGroup(group, key);
      ValuesOfOther(rest, key);
    } else {
      ValuesOfOther(group, k);
    }
  }

  lemma GroupSplits(s: seq<KeyValue>, f: Reduce, i: nat)
    requires SortedByKey(s) && i < |s|
    ensures var e, key := GroupEnd(s, i, i + 1), s[i].key;
      && LineFor(s[i..], f, key) == Line(key, f(key, Values(s[i..e])))
      && (forall k :: k != key ==> LineFor(s[i..], f, k) == LineFor(s[e..], f, k))
      && key !in KeysOf(s[e..])
      && KeysOf(s[i..]) == {key} + KeysOf(s[e..])
  {
    var e, key := GroupEnd(s, i, i + 1), s[i].key;
    var group, rest := s[i..e], s[e..];
    GroupApart(s, i);
    GroupValues(group, rest, key, key);
    forall k | k != key ensures ValuesOf(s[i..], k) == ValuesOf(rest, k) {
      GroupValues(group, rest, key, k);
    }
    KeysOfConcat(group, rest);
    assert group[0].key == key;
    assert KeysOf(group) == {key};
  }

  lemma KeysOfConcat(a: seq<KeyValue>, b: seq<KeyValue>)
    ensures KeysOf(a + b) == KeysOf(a) + KeysOf(b)
  {
    forall k | k in KeysOf(a) + KeysOf(b) ensures k in KeysOf(a + b) {
      if k in KeysOf(a) {
        var i :| 0 <= i < |a| && a[i].key == k;
        assert (a + b)[i].key == k;
      } else {
        var i :| 0 <= i < |b| && b[i].key == k;
        assert (a + b)[|a| + i].key == k;
      }
    }
    forall k | k in KeysOf(a + b) ensures k in KeysOf(a) + KeysOf(b) {
      var i :| 0 <= i < |a + b| && (a + b)[i].key == k;
      if i < |a| { assert a[i].key == k; } else { assert b[i - |a|].key == k; }
    }
  }

  lemma LinesSplit(s: seq<KeyValue>, f: Reduce, i: nat)
    requires SortedByKey(s) && i < |s|
    ensures var e, key := GroupEnd(s, i, i + 1), s[i].key;
      var first := Line(key, f(key, Values(s[i..e])));
      first !in Lines(s[e..], f) && Lines(s[i..], f) == {first} + Lines(s[e..], f)
  {
    GroupSplits(s, f, i);
  }

  lemma AddFresh(x: Line, rest: set<Line>)
    requires x !in rest
    ensures multiset({x} + rest) == multiset{x} + multiset(rest)
  {
  }

  lemma {:induction false} GroupsAreLines(s: seq<KeyValue>, f: Reduce, i: nat)
    requires SortedByKey(s) && i <= |s|
    ensures multiset(GroupFrom(s, f, i)) == multiset(Lines(s[i..], f))
    decreases |s| - i
  {
    if i == |s| {
      assert KeysOf(s[i..]) == {};
      assert Lines(s[i..], f) == {};
    } else {
      var e, key := GroupEnd(s, i, i + 1), s[i].key;
      var first := Line(key, f(key, Values(s[i..e])));
      GroupsAreLines(s, f, e);
      LinesSplit(s, f, i);
      AddFresh(first, Lines(s[e..], f));
      assert GroupFrom(s, f, i) == [first] + GroupFrom(s, f, e);
    }
  }

  /** Sorting in any way, grouping and reducing yields one line for each distinct key, with
      the values of that key reduced. */
  lemma GroupingIsReference(kva: seq<KeyValue>, s: seq<KeyValue>, f: Reduce)
    requires IsSortOf(s, kva) && IgnoresOrder(f)
    ensures multiset(GroupFrom(s, f, 0)) == multiset(Lines(kva, f))
  {
    GroupsAreLines(s, f, 0);
    assert s[0..] == s;
    PermutedLines(s, kva, f);
  }

  // ---- The order of the lines ----------------------------------------------------

  /** Each line has a larger key than the line before it. */
  ghost predicate KeysAscend(lines: seq<Line>) {
    forall i, j :: 0 <= i < j < |lines| ==> AtMost(lines[i].key, lines[j].key) && lines[i].key != lines[j].key
  }

  lemma {:induction false} LineHasKey(s: seq<KeyValue>, f: Reduce, i: nat, j: nat) returns (k: nat)
    requires i <= |s| && j < |GroupFrom(s, f, i)|
    ensures i <= k < |s| && s[k].key == GroupFrom(s, f, i)[j].key
    decreases |s| - i
  {
    if j == 0 {
      k := i;
    } else {
      k := LineHasKey(s, f, GroupEnd(s, i, i + 1), j - 1);
    }
  }

  /** Grouping a sorted sequence yields the lines in the order of their keys. */
  lemma {:induction false} GroupsAscend(s: seq<KeyValue>, f: Reduce, i: nat)
    requires SortedByKey(s) && i <= |s|
    ensures KeysAscend(GroupFrom(s, f, i))
    decreases |s| - i
  {
    if i < |s| {
      var e := GroupEnd(s, i, i + 1);
      var rest := GroupFrom(s, f, e);
      GroupsAscend(s, f, e);
      forall j | 0 <= j < |rest| ensures AtMost(s[i].key, rest[j].key) && s[i].key != rest[j].key {
        var k := LineHasKey(s, f, e, j);
        GroupIsWhole(s, i, k);
      }
    }
  }

  lemma LastInBoth(a: seq<Line>, b: seq<Line>)
    requires KeysAscend(a) && KeysAscend(b) && multiset(a) == multiset(b) && a != [] && b != []
    ensures a[|a| - 1] == b[|b| - 1]
  {
    var x, y := a[|a| - 1], b[|b| - 1];
    assert x in multiset(b) && y in multiset(a);
    var i :| 0 <= i < |b| && b[i] == x;
    var j :| 0 <= j < |a| && a[j] == y;
    AtMostTotal(x.key, y.key);
  }

  /** Lines in the order of their keys are determined by which lines they are. */
  lemma {:induction false} AscendingUnique(a: seq<Line>, b: seq<Line>)
    requires KeysAscend(a) && KeysAscend(b) && multiset(a) == multiset(b)
    ensures a == b
  {
    assert |multiset(a)| == |a| && |multiset(b)| == |b|;
    if a != [] {
      LastInBoth(a, b);
      WithoutLast(a);
      WithoutLast(b);
      AscendingUnique(a[..|a| - 1], b[..|b| - 1]);
    }
  }

  lemma WithoutLast(a: seq<Line>)
    requires a != []
    ensures a == a[..|a| - 1] + [a[|a| - 1]]
    ensures multiset(a[..|a| - 1]) == multiset(a) - multiset{a[|a| - 1]}
    ensures KeysAscend(a) ==> KeysAscend(a[..|a| - 1])
  {
    assert a == a[..|a| - 1] + [a[|a| - 1]];
  }

  lemma WithLast(a: seq<Line>, l: Line)
    requires KeysAscend(a) && forall x :: x in a ==> AtMost(x.key, l.key) && x.key != l.key
    ensures KeysAscend(a + [l])
  {
  }
}
