/** Ordered association lists from stack ids to counts.

    This is what a count table means: one entry per id, in the order in which the ids were
    first added. The linked id_count list of the untimed path has the same meaning.
  */
module Items {
  import opened Bits

  datatype Item = Item(id: nat, count: nat)

  ghost predicate Distinct(items: seq<Item>) {
    forall i, j :: 0 <= i < j < |items| ==> items[i].id != items[j].id
  }

  predicate HasId(items: seq<Item>, id: nat) {
    exists i :: 0 <= i < |items| && items[i].id == id
  }

  /** With distinct ids no id occurs before its own position. */
  lemma {:induction false} PrefixLacks(items: seq<Item>, i: nat)
    requires Distinct(items) && i < |items|
    ensures !HasId(items[..i], items[i].id)
    ensures items[..i + 1] == items[..i] + [items[i]]
  {
  }

  /** First position of `id`, or the length of the list. */
  function IndexOf(items: seq<Item>, id: nat): (i: nat)
    ensures i <= |items|
    ensures i < |items| ==> items[i].id == id
    ensures forall j :: 0 <= j < i ==> items[j].id != id
  {
    if items == [] then 0
    else if items[0].id == id then 0
    else 1 + IndexOf(items[1..], id)
  }

  /** Adds `count` to the entry of `id`, creating it at the end of the list when it is new. */
  function Bump(items: seq<Item>, id: nat, count: nat): seq<Item> {
    var i := IndexOf(items, id);
    if i < |items| then items[i := Item(id, AddU64(items[i].count, count))]
    else items + [Item(id, count)]
  }

  /** The sum, not wrapped, of the counts listed for `id`. */
  function CountOf(items: seq<Item>, id: nat): nat {
    if items == [] then 0
    else (if items[0].id == id then items[0].count else 0) + CountOf(items[1..], id)
  }

  function Total(items: seq<Item>): nat {
    if items == [] then 0 else items[0].count + Total(items[1..])
  }

  function NonZero(items: seq<Item>): seq<Item> {
    if items == [] then []
    else (if items[0].count != 0 then [items[0]] else []) + NonZero(items[1..])
  }

  lemma {:induction false} NonZeroAppend(a: seq<Item>, b: seq<Item>)
    ensures NonZero(a + b) == NonZero(a) + NonZero(b)
  {
    if a == [] {
      assert a + b == b;
    } else {
      assert (a + b)[1..] == a[1..] + b;
      NonZeroAppend(a[1..], b);
    }
  }

  lemma {:induction false} CountAppend(a: seq<Item>, b: seq<Item>, id: nat)
    ensures CountOf(a + b, id) == CountOf(a, id) + CountOf(b, id)
  {
    if a == [] {
      assert a + b == b;
    } else {
      assert (a + b)[1..] == a[1..] + b;
      CountAppend(a[1..], b, id);
    }
  }

  lemma {:induction false} TotalAppend(a: seq<Item>, b: seq<Item>)
    ensures Total(a + b) == Total(a) + Total(b)
  {
    if a == [] {
      assert a + b == b;
    } else {
      assert (a + b)[1..] == a[1..] + b;
      TotalAppend(a[1..], b);
    }
  }

  /** Dropping the zero entries changes no count. */
  lemma {:induction false} NonZeroKeepsCounts(items: seq<Item>, id: nat)
    ensures CountOf(NonZero(items), id) == CountOf(items, id)
  {
    if items != [] {
      NonZeroKeepsCounts(items[1..], id);
      var front := if items[0].count != 0 then [items[0]] else [];
      CountAppend(front, NonZero(items[1..]), id);
      assert front != [] ==> front[1..] == [];
    }
  }

  /** Every entry that survives comes from the list and is not zero; order is kept. */
  lemma {:induction false} NonZeroEntries(items: seq<Item>)
    ensures forall k :: 0 <= k < |NonZero(items)| ==> NonZero(items)[k].count != 0 && NonZero(items)[k] in items
    ensures Distinct(items) ==> Distinct(NonZero(items))
  {
    if items != [] {
      NonZeroEntries(items[1..]);
      var front := if items[0].count != 0 then [items[0]] else [];
      var rest := NonZero(items[1..]);
      assert NonZero(items) == front + rest;
      forall k | 0 <= k < |NonZero(items)|
        ensures NonZero(items)[k].count != 0 && NonZero(items)[k] in items
      {
        if k >= |front| {
          assert NonZero(items)[k] == rest[k - |front|];
          assert rest[k - |front|] in items[1..];
        }
      }
      if Distinct(items) {
        assert Distinct(items[1..]);
        forall i, j | 0 <= i < j < |front + rest|
          ensures (front + rest)[i].id != (front + rest)[j].id
        {
          if i < |front| {
            assert rest[j - |front|] in items[1..];
          }
        }
      }
    }
  }

  lemma {:induction false} CountAbsent(items: seq<Item>, id: nat)
    requires !HasId(items, id)
    ensures CountOf(items, id) == 0
  {
    if items != [] {
      assert items[0].id != id;
      forall i | 0 <= i < |items[1..]|
        ensures items[1..][i].id != id
      {
        assert items[i + 1].id != id;
      }
      CountAbsent(items[1..], id);
    }
  }

  /** With distinct ids the count of an id is the count of its one entry. */
  lemma {:induction false} CountAt(items: seq<Item>, i: nat)
    requires Distinct(items) && i < |items|
    ensures CountOf(items, items[i].id) == items[i].count
  {
    if i == 0 {
      CountAbsent(items[1..], items[0].id);
    } else {
      CountAt(items[1..], i - 1);
    }
  }

  /** Replacing one entry changes the count of its id by the difference and no other count. */
  lemma {:induction false} CountUpdate(items: seq<Item>, i: nat, c: nat, id: nat)
    requires i < |items|
    ensures var r := items[i := Item(items[i].id, c)];
            CountOf(r, id) == CountOf(items, id) + (if id == items[i].id then c - items[i].count else 0)
  {
    var r := items[i := Item(items[i].id, c)];
    if i == 0 {
      assert r[1..] == items[1..];
    } else {
      assert r[1..] == items[1..][i - 1 := Item(items[i].id, c)];
      CountUpdate(items[1..], i - 1, c, id);
    }
  }

  /** `Bump` keeps ids distinct, adds `count` modulo 2^64 to one id and leaves the others alone. */
  lemma {:induction false} BumpCounts(items: seq<Item>, id: nat, count: nat, other: nat)
    requires Distinct(items)
    ensures Distinct(Bump(items, id, count))
    ensures Cong(CountOf(Bump(items, id, count), other), CountOf(items, other) + (if other == id then count else 0))
    ensures other != id ==> CountOf(Bump(items, id, count), other) == CountOf(items, other)
  {
    var i := IndexOf(items, id);
    if i < |items| {
      CountUpdate(items, i, AddU64(items[i].count, count), other);
      CountAt(items, i);
      CongWrap(items[i].count + count);
      CongSame(CountOf(items, other));
    } else {
      CountAppend(items, [Item(id, count)], other);
      CountAbsent(items, id);
      CongSame(CountOf(items, other) + (if other == id then count else 0));
    }
  }
}
