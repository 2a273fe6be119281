/** The greedy comparison of two goal lists, by semantic key. */
module GoalDiff {

  // ---------------------------------------------------------------- the program's loop, on values

  /** How many unclaimed positions hold `key`. */
  ghost function Free<K>(after: seq<K>, used: seq<bool>, key: K): nat
    requires |after| == |used|
  {
    if after == [] then 0
    else Free(after[..|after| - 1], used[..|used| - 1], key) + (if !used[|used| - 1] && after[|after| - 1] == key then 1 else 0)
  }

  /** The least of them. */
  ghost predicate FirstFree<K>(after: seq<K>, used: seq<bool>, key: K, i: nat) {
    && |after| == |used| && i < |used| && !used[i] && after[i] == key
    && forall j :: 0 <= j < i ==> used[j] || after[j] != key
  }

  /** What the loop carries from goal to goal. */
  datatype Tally<K> = Tally(removed: seq<K>, common: nat, ambiguous: bool, used: seq<bool>)

  /** One round claims the first free equal goal, or reports the goal removed. */
  ghost predicate Round<K>(after: seq<K>, t: Tally<K>, key: K, u: Tally<K>)
    requires |after| == |t.used|
  {
    var free := Free(after, t.used, key);
    && u.ambiguous == (t.ambiguous || free > 1)
    && (free == 0 ==> u.removed == t.removed + [key] && u.common == t.common && u.used == t.used)
    && (free > 0 ==> u.removed == t.removed && u.common == t.common + 1
                     && exists i: nat :: FirstFree(after, t.used, key, i) && u.used == t.used[i := true])
  }

  // ---------------------------------------------------------------- what it means, on multisets

  /** The goals no earlier goal has claimed. */
  ghost function Unused<K>(after: seq<K>, used: seq<bool>): multiset<K>
    requires |after| == |used|
  {
    if after == [] then multiset{}
    else Unused(after[..|after| - 1], used[..|used| - 1])
         + (if used[|used| - 1] then multiset{} else multiset{after[|after| - 1]})
  }

  lemma {:induction false} NothingUsed<K>(after: seq<K>, used: seq<bool>)
    requires |after| == |used| && forall i :: 0 <= i < |used| ==> !used[i]
    ensures Unused(after, used) == multiset(after)
    decreases |after|
  {
    if after != [] {
      NothingUsed(after[..|after| - 1], used[..|used| - 1]);
      assert after == after[..|after| - 1] + [after[|after| - 1]];
    }
  }

  lemma {:induction false} FreeIsUnused<K>(after: seq<K>, used: seq<bool>, key: K)
    requires |after| == |used|
    ensures Free(after, used, key) == Unused(after, used)[key]
    decreases |after|
  {
    if after != [] {
      FreeIsUnused(after[..|after| - 1], used[..|used| - 1], key);
    }
  }

  lemma {:induction false} Claim<K>(after: seq<K>, used: seq<bool>, i: nat)
    requires |after| == |used| && i < |used| && !used[i]
    ensures Unused(after, used) == Unused(after, used[i := true]) + multiset{after[i]}
    decreases |after|
  {
    var last := |after| - 1;
    if i < last {
      Claim(after[..last], used[..last], i);
      assert used[i := true][..last] == used[..last][i := true];
    } else {
      assert used[i := true][..last] == used[..last];
    }
  }

  ghost predicate Twice<K>(a: multiset<K>, key: K) {
    a[key] >= 2
  }

  /** Some goal on the left has two equals on the right. */
  ghost predicate Repeated<K>(b: multiset<K>, a: multiset<K>) {
    exists key {:trigger Twice(a, key)} :: key in b && Twice(a, key)
  }

  /** What the loop has established once it has seen the goals `b`. */
  ghost predicate Tallied<K>(b: multiset<K>, after: seq<K>, t: Tally<K>) {
    && |t.used| == |after|
    && Unused(after, t.used) == multiset(after) - b
    && multiset(t.removed) == b - multiset(after)
    && t.common == |b * multiset(after)|
    && (t.ambiguous <==> Repeated(b, multiset(after)))
  }

  lemma NothingTallied<K>(after: seq<K>, used: seq<bool>)
    requires |after| == |used| && forall i :: 0 <= i < |used| ==> !used[i]
    ensures Tallied(multiset{}, after, Tally([], 0, false, used))
  {
    NothingUsed(after, used);
    assert multiset(after) - multiset{} == multiset(after);
    assert multiset{} * multiset(after) == multiset{};
  }

  /** One goal more on the left: it is matched exactly when some equal goal on the right is still free. */
  lemma OneMore<K>(a: multiset<K>, b: multiset<K>, key: K)
    ensures (a - b)[key] > 0 ==>
              && a - (b + multiset{key}) == (a - b) - multiset{key}
              && (b + multiset{key}) - a == b - a
              && (b + multiset{key}) * a == b * a + multiset{key}
    ensures (a - b)[key] == 0 ==>
              && a - (b + multiset{key}) == a - b
              && (b + multiset{key}) - a == (b - a) + multiset{key}
              && (b + multiset{key}) * a == b * a
  {
  }

  lemma RepeatedStep<K>(b: multiset<K>, a: multiset<K>, key: K)
    ensures Repeated(b + multiset{key}, a) <==> Repeated(b, a) || (a - b)[key] >= 2
  {
    assert key in b + multiset{key};
    if Repeated(b, a) {
      var k :| k in b && Twice(a, k);
      assert k in b + multiset{key};
    }
    assert Twice(a, key) || !Twice(a, key);
  }

  /** Every round keeps the tally the multiset difference of what has been seen. */
  lemma RoundTallies<K>(b: multiset<K>, after: seq<K>, t: Tally<K>, key: K, u: Tally<K>)
    requires Tallied(b, after, t) && Round(after, t, key, u)
    ensures Tallied(b + multiset{key}, after, u)
  {
    FreeIsUnused(after, t.used, key);
    OneMore(multiset(after), b, key);
    RepeatedStep(b, multiset(after), key);
    if Free(after, t.used, key) > 0 {
      var i: nat :| FirstFree(after, t.used, key, i) && u.used == t.used[i := true];
      Claim(after, t.used, i);
    } else {
      assert multiset(t.removed + [key]) == multiset(t.removed) + multiset{key};
    }
  }

  /** A whole run of the loop, round by round. */
  ghost predicate Rounds<K>(before: seq<K>, after: seq<K>, run: seq<Tally<K>>) {
    && |run| == |before| + 1
    && forall k :: 0 <= k < |before| ==> RoundAt(before, after, run, k)
  }

  ghost predicate RoundAt<K>(before: seq<K>, after: seq<K>, run: seq<Tally<K>>, k: nat) {
    && k < |before| && k + 1 < |run| && |run[k].used| == |after|
    && Round(after, run[k], before[k], run[k + 1])
  }

  /** The first `n` goals. */
  ghost function First<K>(before: seq<K>, n: nat): multiset<K>
    requires n <= |before|
  {
    if n == 0 then multiset{} else First(before, n - 1) + multiset{before[n - 1]}
  }

  lemma {:induction false} FirstIsPrefix<K>(before: seq<K>, n: nat)
    requires n <= |before|
    ensures First(before, n) == multiset(before[..n])
  {
    if n > 0 {
      FirstIsPrefix(before, n - 1);
      assert before[..n] == before[..n - 1] + [before[n - 1]];
    }
  }

  lemma {:induction false} RoundsTally<K>(before: seq<K>, after: seq<K>, run: seq<Tally<K>>, n: nat)
    requires Rounds(before, after, run) && n <= |before| && Tallied(multiset{}, after, run[0])
    ensures Tallied(First(before, n), after, run[n])
  {
    if n > 0 {
      RoundsTally(before, after, run, n - 1);
      assert RoundAt(before, after, run, n - 1);
      RoundTallies(First(before, n - 1), after, run[n - 1], before[n - 1], run[n]);
    }
  }

  // ---------------------------------------------------------------- the program

  /** Every unclaimed position holding `key`, in order. */
  method Matches<K(==)>(after: seq<K>, used: array<bool>, key: K) returns (found: seq<nat>)
    requires |after| == used.Length
    ensures |found| == Free(after, used[..], key)
    ensures found != [] ==> FirstFree(after, used[..], key, found[0])
  {
    found := [];
    for k := 0 to |after|
      invariant |found| == Free(after[..k], used[..k], key)
      invariant found == [] ==> forall j :: 0 <= j < k ==> used[j] || after[j] != key
      invariant found != [] ==> FirstFree(after, used[..], key, found[0])
    {
      assert after[..k + 1][..k] == after[..k] && used[..k + 1][..k] == used[..k];
      if !used[k] && after[k] == key {
        found := found + [k];
      }
    }
    assert after[..|after|] == after && used[..used.Length] == used[..];
  }

  method MatchOne<K(==)>(after: seq<K>, used: array<bool>, key: K, removed: seq<K>, common: nat, ambiguous: bool)
      returns (gone: seq<K>, kept: nat, unclear: bool)
    requires |after| == used.Length
    modifies used
    ensures Round(after, Tally(removed, common, ambiguous, old(used[..])), key, Tally(gone, kept, unclear, used[..]))
  {
    gone, kept, unclear := removed, common, ambiguous;
    var matches := Matches(after, used, key);
    if |matches| > 1 {
      unclear := true;
    }
    if matches != [] {
      ghost var now := used[..][matches[0] := true];
      used[matches[0]] := true;
      assert used[..] == now;
      kept := kept + 1;
    } else {
      gone := gone + [key];
    }
  }

  method Unclaimed<K>(after: seq<K>, used: array<bool>) returns (added: seq<K>)
    requires |after| == used.Length
    ensures multiset(added) == Unused(after, used[..])
  {
    added := [];
    for k := 0 to |after|
      invariant multiset(added) == Unused(after[..k], used[..k])
    {
      assert after[..k + 1][..k] == after[..k] && used[..k + 1][..k] == used[..k];
      if !used[k] {
        added := added + [after[k]];
      }
    }
    assert after[..|after|] == after && used[..used.Length] == used[..];
  }

  method MatchAll<K(==)>(before: seq<K>, after: seq<K>, used: array<bool>)
      returns (removed: seq<K>, common: nat, ambiguous: bool, ghost run: seq<Tally<K>>)
    requires |after| == used.Length
    modifies used
    ensures Rounds(before, after, run) && run[0] == Tally([], 0, false, old(used[..]))
    ensures run[|before|] == Tally(removed, common, ambiguous, used[..])
  {
    removed, common, ambiguous := [], 0, false;
    run := [Tally([], 0, false, used[..])];
    for i := 0 to |before|
      invariant |run| == i + 1 && run[0] == Tally([], 0, false, old(used[..]))
      invariant run[i] == Tally(removed, common, ambiguous, used[..])
      invariant forall k :: 0 <= k < i ==> RoundAt(before, after, run, k)
    {
      removed, common, ambiguous := MatchOne(after, used, before[i], removed, common, ambiguous);
      ghost var longer := run + [Tally(removed, common, ambiguous, used[..])];
      assert forall k :: 0 <= k < i && RoundAt(before, after, run, k) ==> RoundAt(before, after, longer, k);
      run := longer;
    }
  }

  /** Greedy or not, the outcome is the multiset difference both ways, and the intersection counted. */
  method Diff<K(==)>(before: seq<K>, after: seq<K>) returns (removed: seq<K>, added: seq<K>, common: nat, ambiguous: bool)
    ensures multiset(removed) == multiset(before) - multiset(after)
    ensures multiset(added) == multiset(after) - multiset(before)
    ensures common == |multiset(before) * multiset(after)|
    ensures ambiguous <==> Repeated(multiset(before), multiset(after))
  {
    var used := new bool[|after|](i => false);
    NothingTallied(after, used[..]);
    ghost var run;
    removed, common, ambiguous, run := MatchAll(before, after, used);
    RoundsTally(before, after, run, |before|);
    FirstIsPrefix(before, |before|);
    assert before[..|before|] == before;
    added := Unclaimed(after, used);
  }
}
