/** `Split.distribute` in lib/map/split.js: every address point goes to the
    nearest road line (the first one at the smallest distance), and the points
    and their property records are grouped into parallel per-line lists.
    Line length and point-to-line distance come from the geometry library and
    enter the model as functions supplied by the caller. */
module SegmentMatcher {
  import opened JsSemantics
  import opened SplitFeature

  /** A line must be longer than this (turf's kilometres) to take points. */
  const MinLineLength: real := 0.001

  /** `length`: turf.lineDistance; `distance`: the distance from a point to its
      projection on a line, turf.distance(turf.pointOnLine(line, pt), pt). */
  datatype Geometry = Geometry(length: Line -> real, distance: (Line, Point) -> real)

  predicate IsLong(geo: Geometry, l: Line) {
    geo.length(l) > MinLineLength
  }

  /** The line filter at the top of `distribute`. */
  function LongLines(geo: Geometry, lines: seq<Line>): (r: seq<Line>)
    ensures |r| <= |lines|
    ensures forall i :: 0 <= i < |r| ==> IsLong(geo, r[i])
    ensures forall l :: l in r ==> l in lines
    ensures forall l :: l in lines && IsLong(geo, l) ==> l in r
  {
    if lines == [] then []
    else
      var n := |lines| - 1;
      LongLines(geo, lines[..n]) + (if IsLong(geo, lines[n]) then [lines[n]] else [])
  }

  /** The filter keeps the original order: it distributes over concatenation. */
  lemma {:induction false} LongLinesAppend(geo: Geometry, a: seq<Line>, b: seq<Line>)
    ensures LongLines(geo, a + b) == LongLines(geo, a) + LongLines(geo, b)
  {
    if b == [] {
      assert a + b == a;
    } else {
      var n := |b| - 1;
      assert (a + b)[..|a + b| - 1] == a + b[..n];
      LongLinesAppend(geo, a, b[..n]);
    }
  }

  /** Filtering an already filtered network changes nothing. */
  lemma {:induction false} LongLinesIdempotent(geo: Geometry, lines: seq<Line>)
    ensures LongLines(geo, LongLines(geo, lines)) == LongLines(geo, lines)
  {
    if lines != [] {
      var n := |lines| - 1;
      var kept := if IsLong(geo, lines[n]) then [lines[n]] else [];
      LongLinesIdempotent(geo, lines[..n]);
      LongLinesAppend(geo, LongLines(geo, lines[..n]), kept);
      if kept != [] {
        assert kept[..0] == [];
      }
    }
  }

  /** The distances from `p` to every line, in line order. */
  function Distances(geo: Geometry, lines: seq<Line>, p: Point): (ds: seq<real>)
    ensures |ds| == |lines|
    ensures forall j :: 0 <= j < |lines| ==> ds[j] == geo.distance(lines[j], p)
  {
    seq(|lines|, j requires 0 <= j < |lines| => geo.distance(lines[j], p))
  }

  /** The index the scan settles on: it starts from an infinite distance and
      a later entry replaces the current best only when strictly smaller. */
  function FirstMin(ds: seq<real>): (r: Option<nat>)
    ensures r.None? <==> ds == []
    ensures r.Some? ==> r.value < |ds|
  {
    if ds == [] then None
    else
      var n := |ds| - 1;
      match FirstMin(ds[..n])
      case None => Some(n)
      case Some(m) => if ds[n] < ds[m] then Some(n) else Some(m)
  }

  /** `i` holds the smallest value, and every earlier entry is strictly larger. */
  predicate IsFirstMin(ds: seq<real>, i: nat) {
    && i < |ds|
    && (forall j :: 0 <= j < |ds| ==> ds[i] <= ds[j])
    && (forall j :: 0 <= j < i ==> ds[i] < ds[j])
  }

  /** The scan picks the lowest index that attains the minimum. */
  lemma {:induction false} FirstMinIsFirstMinimum(ds: seq<real>)
    requires ds != []
    ensures FirstMin(ds).Some? && IsFirstMin(ds, FirstMin(ds).value)
  {
    var n := |ds| - 1;
    var pre := ds[..n];
    if pre != [] {
      FirstMinIsFirstMinimum(pre);
      var m := FirstMin(pre).value;
      assert forall j :: 0 <= j < n ==> pre[j] == ds[j];
    }
  }

  /** Only the lowest minimum is picked: no other index can be the answer. */
  lemma FirstMinUnique(ds: seq<real>, i: nat)
    requires IsFirstMin(ds, i)
    ensures FirstMin(ds) == Some(i)
  {
    FirstMinIsFirstMinimum(ds);
  }

  /** The inner loop of `distribute` for one point: the line it is matched
      to, or `None` (the source's `ln: false`) when there is no line. */
  method NearestLine(geo: Geometry, lines: seq<Line>, p: Point) returns (ln: Option<nat>)
    ensures ln == FirstMin(Distances(geo, lines, p))
  {
    var ds := Distances(geo, lines, p);
    ln := None;
    var best: real := 0.0;
    var k := 0;
    while k < |lines|
      invariant 0 <= k <= |lines|
      invariant ln == FirstMin(ds[..k])
      invariant ln.Some? ==> ln.value < k && best == ds[ln.value]
    {
      assert ds[..k + 1][..k] == ds[..k];
      var d := geo.distance(lines[k], p);
      if ln.None? || d < best {
        ln := Some(k);
        best := d;
      }
      k := k + 1;
    }
    assert ds[..|lines|] == ds;
  }

  /** The line each point is matched to, in point order. */
  function Choices(geo: Geometry, lines: seq<Line>, coords: seq<Point>): (c: seq<Option<nat>>)
    ensures |c| == |coords|
    ensures forall k :: 0 <= k < |coords| ==> c[k] == FirstMin(Distances(geo, lines, coords[k]))
  {
    seq(|coords|, k requires 0 <= k < |coords| => FirstMin(Distances(geo, lines, coords[k])))
  }

  /** Every point is matched to the first line at its smallest distance, and
      to none only when there is no line. */
  lemma ChoicesAreNearest(geo: Geometry, lines: seq<Line>, coords: seq<Point>, k: nat)
    requires k < |coords|
    ensures Choices(geo, lines, coords)[k].None? <==> lines == []
    ensures lines != [] ==> IsFirstMin(Distances(geo, lines, coords[k]), Choices(geo, lines, coords)[k].value)
  {
    if lines != [] {
      FirstMinIsFirstMinimum(Distances(geo, lines, coords[k]));
    }
  }

  /** One past the largest line index any point chose. */
  function Extent(choices: seq<Option<nat>>): nat {
    if choices == [] then 0
    else
      var n := |choices| - 1;
      var e := Extent(choices[..n]);
      match choices[n]
      case Some(i) => if i + 1 > e then i + 1 else e
      case None => e
  }

  lemma {:induction false} ExtentBound(choices: seq<Option<nat>>, bound: nat)
    requires forall k :: 0 <= k < |choices| && choices[k].Some? ==> choices[k].value < bound
    ensures Extent(choices) <= bound
  {
    if choices != [] {
      ExtentBound(choices[..|choices| - 1], bound);
    }
  }

  lemma {:induction false} ExtentAbove(choices: seq<Option<nat>>, k: nat)
    requires k < |choices| && choices[k].Some?
    ensures choices[k].value < Extent(choices)
  {
    var n := |choices| - 1;
    if k < n {
      ExtentAbove(choices[..n], k);
    }
  }

  /** `cl[i] ||= []; cl[i].push(x)` on a JavaScript array: assigning past
      the end extends the array with holes. */
  function PushAt<T>(cl: seq<Option<seq<T>>>, i: nat, x: T): (r: seq<Option<seq<T>>>)
    ensures |r| == if i < |cl| then |cl| else i + 1
    ensures r[i] == Some((if i < |cl| && cl[i].Some? then cl[i].value else []) + [x])
    ensures forall t :: 0 <= t < |r| && t != i ==> r[t] == if t < |cl| then cl[t] else None
  {
    var ext := if i < |cl| then cl else cl + seq(i + 1 - |cl|, _ => None);
    ext[i := Some((if ext[i].Some? then ext[i].value else []) + [x])]
  }

  /** The per-line lists after every point has been pushed to the list of its
      line; a point with no line is pushed nowhere. */
  function Gather<T>(choices: seq<Option<nat>>, xs: seq<T>): (r: seq<Option<seq<T>>>)
    requires |choices| == |xs|
    ensures |r| == Extent(choices)
  {
    if choices == [] then []
    else
      var n := |choices| - 1;
      var prev := Gather(choices[..n], xs[..n]);
      match choices[n]
      case None => prev
      case Some(i) => PushAt(prev, i, xs[n])
  }

  /** The indices of the points matched to line `i`, in input order. */
  function ChosenBy(choices: seq<Option<nat>>, i: nat): (ks: seq<nat>)
    ensures forall j :: 0 <= j < |ks| ==> ks[j] < |choices| && choices[ks[j]] == Some(i)
    ensures forall j, k :: 0 <= j < k < |ks| ==> ks[j] < ks[k]
    ensures forall k :: 0 <= k < |choices| && choices[k] == Some(i) ==> k in ks
  {
    if choices == [] then []
    else
      var n := |choices| - 1;
      ChosenBy(choices[..n], i) + (if choices[n] == Some(i) then [n] else [])
  }

  function Picked<T>(xs: seq<T>, ks: seq<nat>): (r: seq<T>)
    requires forall j :: 0 <= j < |ks| ==> ks[j] < |xs|
    ensures |r| == |ks|
  {
    seq(|ks|, j requires 0 <= j < |ks| => xs[ks[j]])
  }

  /** The list of line `i` defined directly: the items of the points matched
      to line `i`, in input order, or a hole when none is. */
  function Group<T>(choices: seq<Option<nat>>, xs: seq<T>, i: nat): Option<seq<T>>
    requires |choices| == |xs|
  {
    var ks := ChosenBy(choices, i);
    if ks == [] then None else Some(Picked(xs, ks))
  }

  /** All the lists defined directly, one per line index up to the largest
      chosen one. */
  function Reference<T>(choices: seq<Option<nat>>, xs: seq<T>): (r: seq<Option<seq<T>>>)
    requires |choices| == |xs|
    ensures |r| == Extent(choices)
  {
    seq(Extent(choices), i requires 0 <= i < Extent(choices) => Group(choices, xs, i))
  }

  lemma ChosenBeyondExtent(choices: seq<Option<nat>>, i: nat)
    requires i >= Extent(choices)
    ensures ChosenBy(choices, i) == []
  {
    var ks := ChosenBy(choices, i);
    if ks != [] {
      ExtentAbove(choices, ks[0]);
    }
  }

  /** One more point changes only the list of the line it is matched to. */
  lemma GroupStep<T>(c: seq<Option<nat>>, ys: seq<T>, o: Option<nat>, x: T, t: nat)
    requires |c| == |ys|
    ensures Group(c + [o], ys + [x], t)
      == if o == Some(t) then Some((if Group(c, ys, t).Some? then Group(c, ys, t).value else []) + [x])
         else Group(c, ys, t)
  {
    var c', ys' := c + [o], ys + [x];
    var n := |c|;
    assert c'[..n] == c;
    var ks := ChosenBy(c, t);
    assert ChosenBy(c', t) == ks + (if o == Some(t) then [n] else []);
    if o == Some(t) {
      assert Picked(ys', ks + [n]) == Picked(ys, ks) + [x];
    } else {
      assert ChosenBy(c', t) == ks;
      if ks != [] {
        assert Picked(ys', ks) == Picked(ys, ks);
      }
    }
  }

  /** A point matched to no line leaves the lists as they were. */
  lemma ReferenceUnmatched<T>(c: seq<Option<nat>>, ys: seq<T>, x: T)
    requires |c| == |ys|
    ensures Reference(c + [None], ys + [x]) == Reference(c, ys)
  {
    assert (c + [None])[..|c|] == c;
    forall t | 0 <= t < Extent(c) ensures Reference(c + [None], ys + [x])[t] == Reference(c, ys)[t] {
      GroupStep(c, ys, None, x, t);
    }
  }

  /** A point matched to line `i` is appended to list `i`. */
  lemma ReferenceMatched<T>(c: seq<Option<nat>>, ys: seq<T>, i: nat, x: T)
    requires |c| == |ys|
    ensures Reference(c + [Some(i)], ys + [x]) == PushAt(Reference(c, ys), i, x)
  {
    assert (c + [Some(i)])[..|c|] == c;
    var r := Reference(c + [Some(i)], ys + [x]);
    var g := PushAt(Reference(c, ys), i, x);
    forall t | 0 <= t < |r| ensures r[t] == g[t] {
      GroupStep(c, ys, Some(i), x, t);
      if t >= Extent(c) {
        ChosenBeyondExtent(c, t);
      }
    }
  }

  /** Pushing point by point builds exactly the directly defined lists. */
  lemma {:induction false} GatherIsReference<T>(choices: seq<Option<nat>>, xs: seq<T>)
    requires |choices| == |xs|
    ensures Gather(choices, xs) == Reference(choices, xs)
  {
    if choices != [] {
      var n := |choices| - 1;
      var c, ys := choices[..n], xs[..n];
      GatherIsReference(c, ys);
      assert choices == c + [choices[n]] && xs == ys + [xs[n]];
      match choices[n]
      case None => ReferenceUnmatched(c, ys, xs[n]);
      case Some(i) => ReferenceMatched(c, ys, i, xs[n]);
    }
  }

  /** One more point: the lists after it are the lists before it, with the
      point pushed to its line's list when it has one. */
  lemma GatherStep<T>(choices: seq<Option<nat>>, xs: seq<T>, k: nat)
    requires |choices| == |xs| && k < |xs|
    ensures Gather(choices[..k + 1], xs[..k + 1])
      == if choices[k].Some? then PushAt(Gather(choices[..k], xs[..k]), choices[k].value, xs[k])
         else Gather(choices[..k], xs[..k])
  {
    assert choices[..k + 1][..k] == choices[..k];
    assert xs[..k + 1][..k] == xs[..k];
  }

  /** The number of items in all lists; a hole holds none. */
  function TotalSize<T>(cl: seq<Option<seq<T>>>): nat {
    if cl == [] then 0
    else
      var n := |cl| - 1;
      TotalSize(cl[..n]) + (if cl[n].Some? then |cl[n].value| else 0)
  }

  lemma {:induction false} TotalSizeHoles<T>(cl: seq<Option<seq<T>>>, m: nat)
    ensures TotalSize(cl + seq(m, _ => None)) == TotalSize(cl)
  {
    if m > 0 {
      var holes: seq<Option<seq<T>>> := seq(m, _ => None);
      assert (cl + holes)[..|cl + holes| - 1] == cl + seq(m - 1, _ => None);
      TotalSizeHoles(cl, m - 1);
    } else {
      assert cl + seq(m, _ => None) == cl;
    }
  }

  lemma {:induction false} TotalSizeUpdate<T>(cl: seq<Option<seq<T>>>, i: nat, v: seq<T>)
    requires i < |cl|
    ensures TotalSize(cl[i := Some(v)]) + (if cl[i].Some? then |cl[i].value| else 0) == TotalSize(cl) + |v|
  {
    var n := |cl| - 1;
    if i < n {
      assert cl[i := Some(v)][..n] == cl[..n][i := Some(v)];
      TotalSizeUpdate(cl[..n], i, v);
    } else {
      assert cl[i := Some(v)][..n] == cl[..n];
    }
  }

  lemma PushAtAddsOne<T>(cl: seq<Option<seq<T>>>, i: nat, x: T)
    ensures TotalSize(PushAt(cl, i, x)) == TotalSize(cl) + 1
  {
    var ext := if i < |cl| then cl else cl + seq(i + 1 - |cl|, _ => None);
    if i >= |cl| {
      TotalSizeHoles(cl, i + 1 - |cl|);
    }
    TotalSizeUpdate(ext, i, (if ext[i].Some? then ext[i].value else []) + [x]);
  }

  /** The number of points that were matched to some line. */
  function MatchedCount(choices: seq<Option<nat>>): nat {
    if choices == [] then 0
    else
      var n := |choices| - 1;
      MatchedCount(choices[..n]) + (if choices[n].Some? then 1 else 0)
  }

  /** Every matched item lands in exactly one list: nothing is lost or doubled. */
  lemma {:induction false} GatherConserves<T>(choices: seq<Option<nat>>, xs: seq<T>)
    requires |choices| == |xs|
    ensures TotalSize(Gather(choices, xs)) == MatchedCount(choices)
  {
    if choices != [] {
      var n := |choices| - 1;
      GatherConserves(choices[..n], xs[..n]);
      if choices[n].Some? {
        PushAtAddsOne(Gather(choices[..n], xs[..n]), choices[n].value, xs[n]);
      }
    }
  }

  lemma {:induction false} AllMatched(choices: seq<Option<nat>>)
    requires forall k :: 0 <= k < |choices| ==> choices[k].Some?
    ensures MatchedCount(choices) == |choices|
  {
    if choices != [] {
      AllMatched(choices[..|choices| - 1]);
    }
  }

  /** One entry of the result: the points of a line as a MultiPoint (or
      `null`), their property records (or `null`) and the line itself. */
  datatype Segment = Segment(address: Option<seq<Point>>, number: Option<seq<Record>>, network: Line)

  /** The result of `distribute` over the surviving `lines`. */
  function Segments(geo: Geometry, lines: seq<Line>, coords: seq<Point>, props: seq<Record>): (segs: seq<Segment>)
    requires |coords| == |props|
    ensures |segs| == Extent(Choices(geo, lines, coords)) <= |lines|
    ensures forall i :: 0 <= i < |segs| ==>
      segs[i] == Segment(Gather(Choices(geo, lines, coords), coords)[i], Gather(Choices(geo, lines, coords), props)[i], lines[i])
  {
    var c := Choices(geo, lines, coords);
    var addr := Gather(c, coords);
    var num := Gather(c, props);
    ChoicesInRange(geo, lines, coords);
    ExtentBound(c, |lines|);
    seq(|addr|, i requires 0 <= i < |addr| => Segment(addr[i], num[i], lines[i]))
  }

  lemma ChoicesInRange(geo: Geometry, lines: seq<Line>, coords: seq<Point>)
    ensures var c := Choices(geo, lines, coords);
      forall k :: 0 <= k < |c| && c[k].Some? ==> c[k].value < |lines|
  {
  }

  /** The shape of the result: one entry per line index up to the largest
      chosen one; entry `i` carries line `i` and, in input order, the points
      matched to line `i` and their records at the same positions, or `null`
      twice when no point chose line `i`. */
  lemma SegmentsAreGroups(geo: Geometry, lines: seq<Line>, coords: seq<Point>, props: seq<Record>)
    requires |coords| == |props|
    ensures var segs := Segments(geo, lines, coords, props);
      var c := Choices(geo, lines, coords);
      && |segs| == Extent(c)
      && (lines == [] ==> segs == [])
      && forall i :: 0 <= i < |segs| ==>
        && i < |lines| && segs[i].network == lines[i]
        && (ChosenBy(c, i) == [] ==> segs[i].address.None? && segs[i].number.None?)
        && (ChosenBy(c, i) != [] ==>
              && segs[i].address == Some(Picked(coords, ChosenBy(c, i)))
              && segs[i].number == Some(Picked(props, ChosenBy(c, i))))
  {
    var c := Choices(geo, lines, coords);
    var segs := Segments(geo, lines, coords, props);
    GatherIsReference(c, coords);
    GatherIsReference(c, props);
    if lines == [] {
      ExtentBound(c, 0);
    }
    forall i | 0 <= i < |segs|
      ensures ChosenBy(c, i) == [] ==> segs[i].address.None? && segs[i].number.None?
      ensures ChosenBy(c, i) != [] ==>
        && segs[i].address == Some(Picked(coords, ChosenBy(c, i)))
        && segs[i].number == Some(Picked(props, ChosenBy(c, i)))
    {
      assert segs[i].address == Reference(c, coords)[i];
      assert segs[i].number == Reference(c, props)[i];
    }
  }

  /** With at least one line, the group sizes add up to the number of points. */
  lemma SegmentsConserve(geo: Geometry, lines: seq<Line>, coords: seq<Point>, props: seq<Record>)
    requires |coords| == |props|
    requires lines != []
    ensures var segs := Segments(geo, lines, coords, props);
      TotalSize(seq(|segs|, i requires 0 <= i < |segs| => segs[i].address)) == |coords|
  {
    var segs := Segments(geo, lines, coords, props);
    var c := Choices(geo, lines, coords);
    assert seq(|segs|, i requires 0 <= i < |segs| => segs[i].address) == Gather(c, coords);
    GatherConserves(c, coords);
    forall k | 0 <= k < |c| ensures c[k].Some? {
      ChoicesAreNearest(geo, lines, coords, k);
    }
    AllMatched(c);
  }

  /** The road network of a cluster, whose `features` `distribute` replaces. */
  class FeatureCollection {
    var features: seq<Line>

    constructor (features: seq<Line>)
      ensures this.features == features
    {
      this.features := features;
    }
  }

  /** The point loop of `distribute`: pushes every point and its record to
      the lists of its nearest line. */
  method Cluster(geo: Geometry, lines: seq<Line>, coords: seq<Point>, props: seq<Record>)
    returns (addressCluster: seq<Option<seq<Point>>>, numberCluster: seq<Option<seq<Record>>>)
    requires |coords| == |props|
    ensures addressCluster == Gather(Choices(geo, lines, coords), coords)
    ensures numberCluster == Gather(Choices(geo, lines, coords), props)
  {
    ghost var c := Choices(geo, lines, coords);
    addressCluster, numberCluster := [], [];
    var it := 0;
    while it < |coords|
      invariant 0 <= it <= |coords|
      invariant addressCluster == Gather(c[..it], coords[..it])
      invariant numberCluster == Gather(c[..it], props[..it])
    {
      var ln := NearestLine(geo, lines, coords[it]);
      GatherStep(c, coords, it);
      GatherStep(c, props, it);
      if ln.Some? {
        addressCluster := PushAt(addressCluster, ln.value, coords[it]);
        numberCluster := PushAt(numberCluster, ln.value, props[it]);
      }
      it := it + 1;
    }
    assert c[..|coords|] == c && coords[..|coords|] == coords && props[..|coords|] == props;
  }

  /** The final loop of `distribute`: one entry per list, carrying its line. */
  method Zip(lines: seq<Line>, addressCluster: seq<Option<seq<Point>>>, numberCluster: seq<Option<seq<Record>>>)
    returns (segs: seq<Segment>)
    requires |addressCluster| == |numberCluster| <= |lines|
    ensures |segs| == |addressCluster|
    ensures forall i :: 0 <= i < |segs| ==> segs[i] == Segment(addressCluster[i], numberCluster[i], lines[i])
  {
    segs := [];
    var k := 0;
    while k < |addressCluster|
      invariant 0 <= k <= |addressCluster|
      invariant |segs| == k
      invariant forall i :: 0 <= i < k ==> segs[i] == Segment(addressCluster[i], numberCluster[i], lines[i])
    {
      segs := segs + [Segment(addressCluster[k], numberCluster[k], lines[k])];
      k := k + 1;
    }
  }

  /** `distribute(network, coords, props)`: drops the lines of length 0.001
      or less from `network` (the caller sees the change), then groups the
      points and records by nearest surviving line. */
  method Distribute(geo: Geometry, network: FeatureCollection, coords: seq<Point>, props: seq<Record>)
    returns (segs: seq<Segment>)
    requires |coords| == |props|
    modifies network
    ensures network.features == LongLines(geo, old(network.features))
    ensures segs == Segments(geo, network.features, coords, props)
  {
    var lines := LongLines(geo, network.features);
    network.features := lines;
    var addressCluster, numberCluster := Cluster(geo, lines, coords, props);
    ghost var expected := Segments(geo, lines, coords, props);
    segs := Zip(lines, addressCluster, numberCluster);
    assert segs == expected;
  }
}
