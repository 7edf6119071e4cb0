/** The pre-sort of `Split.split`: the address coordinates are sorted in place
    by house number (as `parseInt` reads it), then x, then y, and the
    property list is built index-aligned with the sorted coordinates. */
module AddressOrder {
  import opened JsSemantics
  import opened SplitFeature

  /** `parseInt(props[key].number)` for every key of the lookup; `None`
      stands for NaN. The comparator reads a point's number from here. */
  function ParsedNumbers(props: map<int, Record>): (nums: map<int, Option<int>>)
    ensures nums.Keys == props.Keys
  {
    map k | k in props :: ParseInt(props[k].number)
  }

  function NumberOf(nums: map<int, Option<int>>, p: Point): Option<int>
    requires p.key in nums
  {
    nums[p.key]
  }

  /** The sort comparator: 1, -1 or 0. Both `>` and `<` are false when a
      number is NaN, so such a pair is ordered by its coordinates alone. */
  function Compare(nums: map<int, Option<int>>, a: Point, b: Point): (c: int)
    requires a.key in nums && b.key in nums
    ensures -1 <= c <= 1
  {
    var na := NumberOf(nums, a);
    var nb := NumberOf(nums, b);
    if na.Some? && nb.Some? && na.value > nb.value then 1
    else if na.Some? && nb.Some? && na.value < nb.value then -1
    else if a.x > b.x then 1
    else if a.x < b.x then -1
    else if a.y > b.y then 1
    else if a.y < b.y then -1
    else 0
  }

  predicate KeysIn<V>(nums: map<int, V>, s: seq<Point>) {
    forall i :: 0 <= i < |s| ==> s[i].key in nums
  }

  predicate NumbersParse(nums: map<int, Option<int>>, s: seq<Point>)
    requires KeysIn(nums, s)
  {
    forall i :: 0 <= i < |s| ==> NumberOf(nums, s[i]).Some?
  }

  /** Every neighbouring pair is in comparator order. */
  predicate AdjacentOrdered(nums: map<int, Option<int>>, s: seq<Point>)
    requires KeysIn(nums, s)
  {
    forall i :: 0 < i < |s| ==> Compare(nums, s[i - 1], s[i]) <= 0
  }

  /** Every pair is in comparator order. */
  predicate Ordered(nums: map<int, Option<int>>, s: seq<Point>)
    requires KeysIn(nums, s)
  {
    forall i, j :: 0 <= i < j < |s| ==> Compare(nums, s[i], s[j]) <= 0
  }

  /** Non-decreasing by (number, x, y), written out lexicographically. */
  predicate LexOrdered(nums: map<int, Option<int>>, s: seq<Point>)
    requires KeysIn(nums, s) && NumbersParse(nums, s)
  {
    forall i, j :: 0 <= i < j < |s| ==>
      var ni, nj := NumberOf(nums, s[i]).value, NumberOf(nums, s[j]).value;
      ni < nj || (ni == nj && (s[i].x < s[j].x || (s[i].x == s[j].x && s[i].y <= s[j].y)))
  }

  lemma CompareTransitive(nums: map<int, Option<int>>, a: Point, b: Point, c: Point)
    requires a.key in nums && b.key in nums && c.key in nums
    requires NumberOf(nums, a).Some? && NumberOf(nums, b).Some? && NumberOf(nums, c).Some?
    requires Compare(nums, a, b) <= 0 && Compare(nums, b, c) <= 0
    ensures Compare(nums, a, c) <= 0
  {
  }

  /** When every number parses, the comparator is a total preorder and
      neighbour order gives order between every pair. */
  lemma {:induction false} AdjacentOrderedIsOrdered(nums: map<int, Option<int>>, s: seq<Point>)
    requires KeysIn(nums, s) && NumbersParse(nums, s)
    requires AdjacentOrdered(nums, s)
    ensures Ordered(nums, s)
  {
    if |s| > 1 {
      var t := s[..|s| - 1];
      assert KeysIn(nums, t) && NumbersParse(nums, t);
      assert AdjacentOrdered(nums, t);
      AdjacentOrderedIsOrdered(nums, t);
      forall i, j | 0 <= i < j < |s| ensures Compare(nums, s[i], s[j]) <= 0 {
        if j == |s| - 1 && i < j - 1 {
          assert t[i] == s[i] && t[j - 1] == s[j - 1];
          CompareTransitive(nums, s[i], s[j - 1], s[j]);
        } else if j < |s| - 1 {
          assert t[i] == s[i] && t[j] == s[j];
        }
      }
    }
  }

  /** Comparator order is the lexicographic order on (number, x, y). */
  lemma OrderedIsLexOrdered(nums: map<int, Option<int>>, s: seq<Point>)
    requires KeysIn(nums, s) && NumbersParse(nums, s)
    requires Ordered(nums, s)
    ensures LexOrdered(nums, s)
  {
    forall i, j | 0 <= i < j < |s|
      ensures var ni, nj := NumberOf(nums, s[i]).value, NumberOf(nums, s[j]).value;
        ni < nj || (ni == nj && (s[i].x < s[j].x || (s[i].x == s[j].x && s[i].y <= s[j].y)))
    {
      assert Compare(nums, s[i], s[j]) <= 0;
    }
  }

  /** A NaN number breaks transitivity: here a <= b and b <= c but a > c,
      which is why the sort promises order between neighbours only. */
  lemma NaNBreaksTransitivity()
    ensures var nums := map[1 := Some(5), 2 := None, 3 := Some(3)];
      var a, b, c := Point(0.0, 0.0, 1), Point(1.0, 0.0, 2), Point(2.0, 0.0, 3);
      Compare(nums, a, b) == -1 && Compare(nums, b, c) == -1 && Compare(nums, a, c) == 1
  {
  }

  /** "abc" is NaN to `parseInt`, so the numbers above occur for the house
      numbers "5", "abc" and "3". */
  lemma NaNExampleNumbers()
    ensures ParseInt("5") == Some(5) && ParseInt("abc") == None && ParseInt("3") == Some(3)
  {
    DecimalText(5, "5");
    DecimalText(3, "3");
    LettersAreNaN();
  }

  lemma LettersAreNaN()
    ensures ParseInt("abc") == None
  {
    assert TrimStart("abc") == "abc";
    assert DigitRun("abc", 10) == 0;
  }

  lemma DecimalText(n: nat, s: string)
    requires s == IntToString(n)
    ensures ParseInt(s) == Some(n)
  {
    ParseIntOfIntToString(n, []);
    assert s + [] == s;
  }

  /** `feat.address.coordinates.sort(comparator)`, as a stable insertion
      sort: a permutation of the input in which every neighbouring pair is
      in comparator order; when every number parses, the whole array is
      non-decreasing by (number, x, y). */
  method SortCoordinates(a: array<Point>, nums: map<int, Option<int>>)
    requires KeysIn(nums, a[..])
    modifies a
    ensures multiset(a[..]) == multiset(old(a[..]))
    ensures KeysIn(nums, a[..])
    ensures AdjacentOrdered(nums, a[..])
    ensures NumbersParse(nums, a[..]) ==> LexOrdered(nums, a[..])
  {
    var i := 1;
    while i < a.Length
      invariant 1 <= i <= a.Length || a.Length == 0
      invariant multiset(a[..]) == multiset(old(a[..]))
      invariant KeysIn(nums, a[..])
      invariant PrefixOrdered(nums, a[..], if i <= a.Length then i else a.Length)
    {
      InsertAt(a, nums, i);
      i := i + 1;
    }
    if NumbersParse(nums, a[..]) {
      AdjacentOrderedIsOrdered(nums, a[..]);
      OrderedIsLexOrdered(nums, a[..]);
    }
  }

  /** The state of an insertion of the element at `j`: the part before `j`
      and the part from `j` to `i` are neighbour-ordered, and the neighbours
      of `j` are in order with each other. */
  predicate Inserting(nums: map<int, Option<int>>, s: seq<Point>, j: nat, i: nat)
    requires KeysIn(nums, s)
    requires j <= i < |s|
  {
    && (forall k :: 0 < k < j ==> Compare(nums, s[k - 1], s[k]) <= 0)
    && (forall k :: j < k <= i ==> Compare(nums, s[k - 1], s[k]) <= 0)
    && (0 < j < i ==> Compare(nums, s[j - 1], s[j + 1]) <= 0)
  }

  /** Swapping the element at `j` with a larger left neighbour keeps the
      insertion state, one place further left. */
  lemma SwapStep(nums: map<int, Option<int>>, s: seq<Point>, t: seq<Point>, j: nat, i: nat)
    requires KeysIn(nums, s)
    requires 0 < j <= i < |s|
    requires Inserting(nums, s, j, i)
    requires Compare(nums, s[j - 1], s[j]) > 0
    requires t == s[j - 1 := s[j]][j := s[j - 1]]
    ensures KeysIn(nums, t)
    ensures Inserting(nums, t, j - 1, i)
  {
    assert Compare(nums, t[j - 1], t[j]) < 0;
    forall k | j - 1 < k <= i ensures Compare(nums, t[k - 1], t[k]) <= 0 {
      if k == j + 1 {
        assert t[k - 1] == s[j - 1] && t[k] == s[j + 1];
      } else if k > j + 1 {
        assert t[k - 1] == s[k - 1] && t[k] == s[k];
      }
    }
    if 0 < j - 1 {
      assert t[j - 2] == s[j - 2] && t[j] == s[j - 1];
    }
  }

  lemma SwapKeepsMultiset(s: seq<Point>, t: seq<Point>, i: nat, j: nat)
    requires i < j < |s|
    requires t == s[i := s[j]][j := s[i]]
    ensures multiset(t) == multiset(s)
  {
    calc {
      multiset(t);
      multiset(s[i := s[j]]) - multiset{s[i := s[j]][j]} + multiset{s[i]};
      multiset(s) - multiset{s[i]} + multiset{s[j]} - multiset{s[j]} + multiset{s[i]};
    }
  }

  method Swap(a: array<Point>, i: nat, j: nat)
    requires i < j < a.Length
    modifies a
    ensures a[..] == old(a[..])[i := old(a[j])][j := old(a[i])]
    ensures multiset(a[..]) == multiset(old(a[..]))
  {
    ghost var before := a[..];
    a[i], a[j] := a[j], a[i];
    SwapKeepsMultiset(before, a[..], i, j);
  }

  /** The first `n` elements are neighbour-ordered. */
  predicate PrefixOrdered(nums: map<int, Option<int>>, s: seq<Point>, n: nat)
    requires KeysIn(nums, s)
    requires n <= |s|
  {
    forall k :: 0 < k < n ==> Compare(nums, s[k - 1], s[k]) <= 0
  }

  /** An insertion that stopped (at the front, or below a neighbour that is
      not larger) leaves the first `i + 1` elements neighbour-ordered. */
  lemma InsertDone(nums: map<int, Option<int>>, s: seq<Point>, j: nat, i: nat)
    requires KeysIn(nums, s)
    requires j <= i < |s|
    requires Inserting(nums, s, j, i)
    requires j == 0 || Compare(nums, s[j - 1], s[j]) <= 0
    ensures PrefixOrdered(nums, s, i + 1)
  {
  }

  /** Moves `a[i]` down past every larger neighbour, so that `a[..i+1]`
      becomes neighbour-ordered when `a[..i]` was. */
  method InsertAt(a: array<Point>, nums: map<int, Option<int>>, i: nat)
    requires i < a.Length
    requires KeysIn(nums, a[..])
    requires PrefixOrdered(nums, a[..], i)
    modifies a
    ensures multiset(a[..]) == multiset(old(a[..]))
    ensures KeysIn(nums, a[..])
    ensures PrefixOrdered(nums, a[..], i + 1)
  {
    var j := i;
    while j > 0 && Compare(nums, a[j - 1], a[j]) > 0
      invariant 0 <= j <= i
      invariant multiset(a[..]) == multiset(old(a[..]))
      invariant KeysIn(nums, a[..])
      invariant Inserting(nums, a[..], j, i)
    {
      ghost var before := a[..];
      Swap(a, j - 1, j);
      SwapStep(nums, before, a[..], j, i);
      j := j - 1;
    }
    InsertDone(nums, a[..], j, i);
  }

  /** `coords.map(c => { props.push(feat.props[c[2]]); return c })`: the
      property list, index-aligned with the sorted coordinates. */
  method BuildProps(coords: array<Point>, lookup: map<int, Record>) returns (props: seq<Record>)
    requires KeysIn(lookup, coords[..])
    ensures |props| == coords.Length
    ensures forall i :: 0 <= i < coords.Length ==> props[i] == lookup[coords[i].key]
  {
    props := [];
    var i := 0;
    while i < coords.Length
      invariant 0 <= i <= coords.Length
      invariant |props| == i
      invariant forall k :: 0 <= k < i ==> props[k] == lookup[coords[k].key]
    {
      assert coords[..][i] == coords[i];
      props := props + [lookup[coords[i].key]];
      i := i + 1;
    }
  }
}
