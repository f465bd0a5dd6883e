/** The sorted interval array of src/cli_struct_helper/cli_interval_array_helper.c. */
module IntervalArrays {
  import opened Bytes

  const U32_MAX: nat := 0xFFFF_FFFF
  const U64_MAX: nat := 0xFFFF_FFFF_FFFF_FFFF
  const NO_FREE: nat := 0x8000_0000_0000_0000

  datatype Item = Item(start: nat, end: nat, payload: nat)

  // ---------------------------------------------------------------------------------------------
  // Tagged payload pointers

  /** Setting bit 63. */
  function Mark(p: nat): nat {
    if p >= NO_FREE then p else p + NO_FREE
  }

  predicate Marked(p: nat) {
    p >= NO_FREE
  }

  /** Clearing bit 63. */
  function Pointer(p: nat): nat {
    if p >= NO_FREE then p - NO_FREE else p
  }

  // ---------------------------------------------------------------------------------------------
  // Building

  /** An open end is closed by the next start; the last one by the end of the address range. */
  function FilledAt(s: seq<Item>, i: nat): Item
    requires i < |s|
  {
    if s[i].end != 0 then s[i]
    else if i + 1 < |s| then s[i].(end := s[i + 1].start)
    else s[i].(end := if s[i].start < U32_MAX then U32_MAX - 1 else U64_MAX - 1)
  }

  function Filled(s: seq<Item>): (r: seq<Item>)
    ensures |r| == |s| && forall i :: 0 <= i < |s| ==> r[i] == FilledAt(s, i)
  {
    seq(|s|, i requires 0 <= i < |s| => FilledAt(s, i))
  }

  predicate IsNarrow(s: seq<Item>) {
    s != [] && s[|s| - 1].end < U32_MAX
  }

  /** The cast to 32 bits. */
  function Cast(e: Item): Item {
    Item(Low32(e.start), Low32(e.end), e.payload)
  }

  /** Ordered and not overlapping. */
  ghost predicate WellFormed(s: seq<Item>) {
    && (forall i :: 0 <= i < |s| ==> s[i].start <= s[i].end)
    && (forall i, j :: 0 <= i < j < |s| ==> s[i].end <= s[j].start)
  }

  /** Narrowing loses nothing: if the last end fits 32 bits, everything does. */
  lemma {:induction false} CastLosesNothing(s: seq<Item>, i: nat)
    requires WellFormed(s) && IsNarrow(s) && i < |s|
    ensures Cast(s[i]) == s[i]
  {
    if i < |s| - 1 {
      assert s[i].end <= s[|s| - 1].start;
    }
  }

  predicate SortedByStart(s: seq<Item>) {
    forall i, j :: 0 <= i < j < |s| ==> s[i].start <= s[j].start
  }

  /** Closing gaps in place. */
  method FillGaps(items: array<Item>)
    requires items.Length > 0
    modifies items
    ensures items[..] == Filled(old(items[..]))
  {
    ghost var s := items[..];
    var n := items.Length;
    for i := 0 to n - 1
      invariant forall j :: 0 <= j < i ==> items[j] == FilledAt(s, j)
      invariant forall j :: i <= j < n ==> items[j] == s[j]
    {
      if items[i].end == 0 {
        items[i] := items[i].(end := items[i + 1].start);
      }
    }
    if items[n - 1].end == 0 {
      if items[n - 1].start < U32_MAX {
        items[n - 1] := items[n - 1].(end := U32_MAX - 1);
      } else {
        items[n - 1] := items[n - 1].(end := U64_MAX - 1);
      }
    }
  }

  // ---------------------------------------------------------------------------------------------
  // Looking up by linear scan

  predicate Covers(e: Item, addr: nat) {
    e.start <= addr < e.end
  }

  /** The first item from `i` on that covers an address, or minus one. */
  function Scan(s: seq<Item>, addr: nat, i: nat): int
    requires i <= |s|
    decreases |s| - i
  {
    if i == |s| then -1 else if Covers(s[i], addr) then i else Scan(s, addr, i + 1)
  }

  /** In a well-formed array the item that covers an address is the one the scan finds. */
  lemma {:induction false} ScanFinds(s: seq<Item>, addr: nat, i: nat, k: nat)
    requires WellFormed(s) && i <= k < |s| && Covers(s[k], addr)
    ensures Scan(s, addr, i) == k
    decreases k - i
  {
    if i < k {
      assert s[i].end <= s[k].start;
      ScanFinds(s, addr, i + 1, k);
    }
  }

  lemma {:induction false} ScanMisses(s: seq<Item>, addr: nat, i: nat)
    requires i <= |s| && forall j :: i <= j < |s| ==> !Covers(s[j], addr)
    ensures Scan(s, addr, i) == -1
    decreases |s| - i
  {
    if i < |s| {
      ScanMisses(s, addr, i + 1);
    }
  }

  // ---------------------------------------------------------------------------------------------
  // The array

  class IntervalArray {
    var items: seq<Item>
    const narrow: bool
    const min: nat
    const max: nat

    ghost predicate Valid()
      reads this
    {
      && items != []
      && min == items[0].start && max == items[|items| - 1].end
    }

    /** `cli_interval_array_init` on at least one item; `sorted` is what the sort leaves in the array. In the wide form items are
        copied as they are, in the narrow form they are cast. */
    constructor (input: array<Item>, sorted: seq<Item>)
      requires input.Length > 0 && multiset(sorted) == multiset(input[..]) && |sorted| == input.Length && SortedByStart(sorted)
      modifies input
      ensures Valid()
      ensures input[..] == Filled(sorted)
      ensures narrow == IsNarrow(Filled(sorted)) && |items| == |sorted|
      ensures forall i :: 0 <= i < |items| ==> items[i] == if narrow then Cast(Filled(sorted)[i]) else Filled(sorted)[i]
      ensures WellFormed(Filled(sorted)) ==> items == Filled(sorted)
    {
      forall i | 0 <= i < input.Length {
        input[i] := sorted[i];
      }
      assert input[..] == sorted;
      FillGaps(input);
      var filled := input[..];
      var narrow' := filled[|filled| - 1].end < U32_MAX;
      var kept := filled;
      if narrow' {
        kept := seq(|filled|, i requires 0 <= i < |filled| => Cast(filled[i]));
      }
      narrow, items := narrow', kept;
      min, max := kept[0].start, kept[|kept| - 1].end;
      if WellFormed(filled) && narrow' {
        forall i | 0 <= i < |filled|
          ensures kept[i] == filled[i]
        {
          CastLosesNothing(filled, i);
        }
      }
    }

    /** The binary search of `__cli_interval_array_search`. What it finds covers the address; on a well-formed array it finds what
        a linear scan finds. */
    method Locate(addr: nat) returns (found: int)
      requires Valid()
      ensures -1 <= found < |items|
      ensures found >= 0 ==> Covers(items[found], addr)
      ensures WellFormed(items) ==> found == Scan(items, addr, 0)
    {
      ghost var ordered := WellFormed(items);
      if addr < min || addr > max {
        if ordered {
          forall j | 0 <= j < |items|
            ensures !Covers(items[j], addr)
          {
            OutsideRange(items, addr, j);
          }
          ScanMisses(items, addr, 0);
        }
        return -1;
      }
      var left, right := 0, |items| - 1;
      while left <= right
        invariant 0 <= left <= right + 1 <= |items|
        invariant ordered ==> forall j :: 0 <= j < |items| && (j < left || j > right) ==> !Covers(items[j], addr)
      {
        var mid := left + (right - left) / 2;
        if addr >= items[mid].start && addr < items[mid].end {
          if ordered {
            ScanFinds(items, addr, 0, mid);
          }
          return mid;
        } else if addr < items[mid].start {
          right := mid - 1;
        } else {
          left := mid + 1;
        }
      }
      if ordered {
        ScanMisses(items, addr, 0);
      }
      found := -1;
    }

    /** `__cli_interval_array_search`: the found item with its payload pointer decoded; marking changes nothing but the mark. */
    method Search(addr: nat, setNoFree: bool) returns (found: int, item: Item)
      requires Valid()
      modifies this`items
      ensures Valid() && |items| == |old(items)| && -1 <= found < |items|
      ensures found >= 0 ==> item == Item(old(items)[found].start, old(items)[found].end, Pointer(old(items)[found].payload))
                             && Covers(item, addr)
      ensures WellFormed(old(items)) ==> found == Scan(old(items), addr, 0)
      ensures forall i :: 0 <= i < |items| ==>
                items[i] == if i == found && setNoFree then old(items)[i].(payload := Mark(old(items)[i].payload)) else old(items)[i]
    {
      found := Locate(addr);
      item := Item(0, 0, 0);
      if found >= 0 {
        var e := items[found];
        item := Item(e.start, e.end, Pointer(e.payload));
        if setNoFree && !Marked(e.payload) {
          items := items[found := e.(payload := Mark(e.payload))];
        }
      }
    }

    /** `cli_interval_array_destroy`: the payloads it frees, in order. */
    method Destroy() returns (freed: seq<nat>)
      requires Valid()
      ensures freed == Owned(items, |items|)
      ensures forall p :: p in freed <==> Frees(items, |items|, p)
    {
      freed := [];
      for i := 0 to |items|
        invariant freed == Owned(items, i)
      {
        var p := items[i].payload;
        if p != 0 && !Marked(p) {
          freed := freed + [Pointer(p)];
        }
      }
      forall p
        ensures p in freed <==> Frees(items, |items|, p)
      {
        OwnedIs(items, |items|, p);
      }
    }
  }

  /** `cli_interval_array_init`: no array for no items or without memory; memory for the items is asked for after they were sorted and
      filled. */
  method Init(input: array<Item>, sorted: seq<Item>, headerOk: bool, itemsOk: bool) returns (a: IntervalArray?)
    requires multiset(sorted) == multiset(input[..]) && |sorted| == input.Length && SortedByStart(sorted)
    modifies input
    ensures a == null <==> input.Length == 0 || !headerOk || !itemsOk
    ensures input[..] == if input.Length == 0 || !headerOk then old(input[..]) else Filled(sorted)
    ensures a != null ==> a.Valid() && |a.items| == |sorted| && (WellFormed(Filled(sorted)) ==> a.items == Filled(sorted))
  {
    if input.Length == 0 || !headerOk {
      return null;
    }
    var built := new IntervalArray(input, sorted);
    return if itemsOk then built else null;
  }

  /** The payloads, among the first `n`, that are there and not marked. */
  function Owned(s: seq<Item>, n: nat): seq<nat>
    requires n <= |s|
  {
    if n == 0 then []
    else Owned(s, n - 1) + (if s[n - 1].payload != 0 && !Marked(s[n - 1].payload) then [s[n - 1].payload] else [])
  }

  /** Some item among the first `n` has the payload, and it is there and not marked. */
  ghost predicate Frees(s: seq<Item>, n: nat, p: nat)
    requires n <= |s|
  {
    p != 0 && !Marked(p) && exists i :: 0 <= i < n && s[i].payload == p
  }

  lemma {:induction false} OwnedIs(s: seq<Item>, n: nat, p: nat)
    requires n <= |s|
    ensures p in Owned(s, n) <==> Frees(s, n, p)
  {
    if n > 0 {
      OwnedIs(s, n - 1, p);
      if s[n - 1].payload == p && p != 0 && !Marked(p) {
        assert Frees(s, n, p);
      }
    }
  }

  lemma {:induction false} OutsideRange(s: seq<Item>, addr: nat, j: nat)
    requires WellFormed(s) && j < |s| && (addr < s[0].start || addr > s[|s| - 1].end)
    ensures !Covers(s[j], addr)
  {
    if j > 0 {
      assert s[0].end <= s[j].start;
    }
    if j < |s| - 1 {
      assert s[j].end <= s[|s| - 1].start;
    }
  }

  // ---------------------------------------------------------------------------------------------
  // Marking

  /** The items with marks ignored. */
  function Plain(e: Item): Item {
    e.(payload := Pointer(e.payload))
  }

  function MarkAt(s: seq<Item>, k: int): seq<Item> {
    if 0 <= k < |s| then s[k := s[k].(payload := Mark(s[k].payload))] else s
  }

  /** Any number of marking searches, by the positions that they found. */
  function MarkMany(s: seq<Item>, ks: seq<int>): (r: seq<Item>)
    ensures |r| == |s|
  {
    if ks == [] then s else MarkAt(MarkMany(s, ks[..|ks| - 1]), ks[|ks| - 1])
  }

  /** After any sequence of marking searches every lookup finds the same interval and every payload decodes to the same pointer;
      exactly the payloads found so far are marked, besides those marked before. */
  lemma {:induction false} MarksChangeNothing(s: seq<Item>, ks: seq<int>, addr: nat, i: nat)
    requires i < |s|
    ensures var r := MarkMany(s, ks);
            && Plain(r[i]) == Plain(s[i])
            && Scan(r, addr, 0) == Scan(s, addr, 0)
            && (Marked(r[i].payload) <==> Marked(s[i].payload) || i in ks)
  {
    if ks != [] {
      var n := |ks| - 1;
      MarksChangeNothing(s, ks[..n], addr, i);
      SameSpans(MarkMany(s, ks[..n]), MarkMany(s, ks), addr, 0);
      assert ks == ks[..n] + [ks[n]];
    }
  }

  lemma {:induction false} SameSpans(s: seq<Item>, r: seq<Item>, addr: nat, i: nat)
    requires |s| == |r| && i <= |s| && forall j :: 0 <= j < |s| ==> s[j].start == r[j].start && s[j].end == r[j].end
    ensures Scan(s, addr, i) == Scan(r, addr, i)
    decreases |s| - i
  {
    if i < |s| {
      SameSpans(s, r, addr, i + 1);
    }
  }
}
