/** Picking among the entries not skipped so far: a key that failed is excluded and
    the list is built anew. */
module Skipping {
  predicate Distinct<T>(items: seq<T>, key: T -> string) {
    forall i, j :: 0 <= i < j < |items| ==> key(items[i]) != key(items[j])
  }

  function Unskipped<T>(items: seq<T>, key: T -> string, skipped: set<string>): (r: seq<T>)
    ensures forall x :: x in r ==> x in items && key(x) !in skipped
  {
    if |items| == 0 then []
    else
      var last := items[|items| - 1];
      Unskipped(items[..|items| - 1], key, skipped) + if key(last) in skipped then [] else [last]
  }

  function Without<T>(items: seq<T>, i: nat): (r: seq<T>)
    requires i < |items|
    ensures |r| == |items| - 1
    ensures forall x :: x in r ==> x in items
  {
    items[..i] + items[i + 1..]
  }

  lemma {:induction false} WithoutMembers<T>(items: seq<T>, i: nat)
    requires i < |items|
    ensures forall x :: x in items <==> x == items[i] || x in Without(items, i)
  {
    assert items == items[..i] + [items[i]] + items[i + 1..];
  }

  method Usable<T>(items: seq<T>, key: T -> string, skipped: set<string>) returns (usable: seq<T>)
    ensures usable == Unskipped(items, key, skipped)
  {
    usable := [];
    for k := 0 to |items|
      invariant usable == Unskipped(items[..k], key, skipped)
    {
      assert items[..k + 1][..k] == items[..k];
      if key(items[k]) !in skipped { usable := usable + [items[k]]; }
    }
    assert items[..|items|] == items;
  }

  lemma {:induction false} UnskippedAll<T>(items: seq<T>, key: T -> string)
    ensures Unskipped(items, key, {}) == items
  {
    if |items| == 0 {
      assert Unskipped(items, key, {}) == [];
    } else {
      hide Unskipped;
      UnskippedSnoc(items, key, {});
      UnskippedAll(items[..|items| - 1], key);
      assert items == items[..|items| - 1] + [items[|items| - 1]];
    }
  }

  lemma {:induction false} WithoutSnoc<T>(front: seq<T>, last: T, i: nat)
    requires i <= |front|
    ensures Without(front + [last], i) == if i < |front| then Without(front, i) + [last] else front
  {
  }

  lemma {:induction false} UnskippedSnoc<T>(items: seq<T>, key: T -> string, skipped: set<string>)
    requires |items| > 0
    ensures var front, last := Unskipped(items[..|items| - 1], key, skipped), items[|items| - 1];
            Unskipped(items, key, skipped) == if key(last) in skipped then front else front + [last]
  {
  }

  /** Skipping one more key removes exactly its entry. */
  lemma {:induction false} UnskippedWithout<T>(items: seq<T>, key: T -> string, skipped: set<string>, i: nat)
    requires Distinct(items, key) && i < |Unskipped(items, key, skipped)|
    ensures var k := key(Unskipped(items, key, skipped)[i]);
            k !in skipped && Unskipped(items, key, skipped + {k}) == Without(Unskipped(items, key, skipped), i)
  {
    var n := |items| - 1;
    var front, last, k := Unskipped(items[..n], key, skipped), items[n], key(Unskipped(items, key, skipped)[i]);
    UnskippedSnoc(items, key, skipped);
    UnskippedSnoc(items, key, skipped + {k});
    WithoutSnoc(front, last, if i < |front| then i else |front|);
    if i < |front| {
      UnskippedWithout(items[..n], key, skipped, i);
      assert front[i] in items[..n];
    } else {
      UnskippedOther(items[..n], key, skipped, key(last));
    }
  }

  lemma {:induction false} UnskippedOther<T>(items: seq<T>, key: T -> string, skipped: set<string>, k: string)
    requires forall x :: x in items ==> key(x) != k
    ensures Unskipped(items, key, skipped + {k}) == Unskipped(items, key, skipped)
  {
    if |items| > 0 { UnskippedOther(items[..|items| - 1], key, skipped, k); }
  }
}
