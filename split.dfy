/** `Split` in lib/map/split.js: its construction from the worker options and
    `split(feat, cb)`, which sorts a cluster's address points, matches them to
    its road lines and turns every group into an interpolation feature. The
    joiner and splitter (`Explode`), `Cluster.break`, the duplicate detector,
    `interpolize` and the post-processing chain are not part of this model;
    they enter as functions supplied by the caller. */
module MapSplit {
  import opened JsSemantics
  import opened SplitFeature
  import opened AddressOrder
  import opened SegmentMatcher

  /** A cluster proposed by `Cluster.break`: its lines and its points, each
      with its property record. */
  datatype Partition = Partition(network: seq<Line>, members: seq<(Point, Record)>)

  /** An interpolation feature: its geometry as `interpolize` built it, and
      the two properties `split` sets, `carmen:text` and
      `carmen:geocoder_stack`. */
  datatype Itp = Itp(geometry: seq<(real, real)>, text: Option<seq<Name>>, geocoderStack: Option<string>)

  /** The collaborators `split` calls:
      `join` is `explode.join` of the cluster's network,
      `explodeSplit` is `explode.split`,
      `hasDup` is `Misc.hasDupAddressWithin(numbers, coords)`,
      `clusterBreak` is `Cluster.break(segs, id)` (`None` when it declines),
      `interpolize` returns `None` for a falsy result, and
      `post` is `opts.post.feat`. */
  datatype Collaborators = Collaborators(
    join: seq<Line> -> seq<Line>,
    explodeSplit: seq<Line> -> seq<Line>,
    hasDup: (seq<string>, seq<Point>) -> bool,
    clusterBreak: (seq<Segment>, int) -> Option<seq<Partition>>,
    interpolize: seq<Segment> -> Option<Itp>,
    post: Itp -> Itp)

  /** The worker options `Split` reads; `None` is an absent option. */
  datatype SplitOptions = SplitOptions(id: int, stdout: Option<bool>, country: Option<string>)

  /** What `split` hands to its callback: nothing, the features written to
      standard output, or the features passed back as the result. */
  datatype SplitResult = Skipped | Written(features: seq<Itp>) | Returned(features: seq<Itp>)

  /** `feat.name.some(name => name.display.trim().length)`. */
  predicate HasDisplayName(names: seq<Name>) {
    exists i :: 0 <= i < |names| && |Trim(names[i].display)| > 0
  }

  /** The guard skips a cluster exactly when every display name is blank. */
  lemma HasDisplayNameIff(names: seq<Name>)
    ensures HasDisplayName(names) <==>
      exists i, j :: 0 <= i < |names| && 0 <= j < |names[i].display| && !IsJsWhitespace(names[i].display[j])
  {
    forall i | 0 <= i < |names| {
      TrimEmptyIff(names[i].display);
    }
  }

  /** `feat.name.filter(name => name.display)`: drops the names whose
      display is the empty string, keeping the order. */
  function FilterNames(names: seq<Name>): (r: seq<Name>)
    ensures |r| <= |names|
    ensures forall i :: 0 <= i < |r| ==> r[i] in names && r[i].display != ""
    ensures forall n :: n in names && n.display != "" ==> n in r
  {
    if names == [] then []
    else
      var k := |names| - 1;
      FilterNames(names[..k]) + (if names[k].display != "" then [names[k]] else [])
  }

  /** The filter keeps the order: it distributes over concatenation. */
  lemma {:induction false} FilterNamesAppend(a: seq<Name>, b: seq<Name>)
    ensures FilterNames(a + b) == FilterNames(a) + FilterNames(b)
  {
    if b == [] {
      assert a + b == a;
    } else {
      var k := |b| - 1;
      assert (a + b)[..|a + b| - 1] == a + b[..k];
      FilterNamesAppend(a, b[..k]);
    }
  }

  /** Filtering twice is filtering once, so re-filtering per feature is harmless. */
  lemma {:induction false} FilterNamesIdempotent(names: seq<Name>)
    ensures FilterNames(FilterNames(names)) == FilterNames(names)
  {
    if names != [] {
      var k := |names| - 1;
      var kept := if names[k].display != "" then [names[k]] else [];
      FilterNamesIdempotent(names[..k]);
      FilterNamesAppend(FilterNames(names[..k]), kept);
      if kept != [] {
        assert kept[..0] == [];
      }
    }
  }

  /** A cluster that passes the guard keeps at least one name: a display
      with a non-blank trim is not empty. */
  lemma KeptNamesNonEmpty(names: seq<Name>)
    requires HasDisplayName(names)
    ensures FilterNames(names) != []
  {
    var i :| 0 <= i < |names| && |Trim(names[i].display)| > 0;
    assert |TrimStart(names[i].display)| > 0;
    assert names[i].display != "";
    assert names[i] in names;
  }

  /** `c.length` of a JavaScript value used as a condition: a country of ""
      is as good as none. */
  predicate Truthy(s: Option<string>) {
    s.Some? && s.value != ""
  }

  /** Sets `carmen:text` to the names and, when the country option is set,
      `carmen:geocoder_stack` to it. */
  function Tag(itp: Itp, names: seq<Name>, country: Option<string>): (r: Itp)
    ensures r.geometry == itp.geometry && r.text == Some(names)
    ensures r.geocoderStack == if Truthy(country) then country else itp.geocoderStack
  {
    itp.(text := Some(names), geocoderStack := if Truthy(country) then country else itp.geocoderStack)
  }

  function PointsOf(members: seq<(Point, Record)>): (r: seq<Point>)
    ensures |r| == |members|
  {
    seq(|members|, i requires 0 <= i < |members| => members[i].0)
  }

  function RecordsOf(members: seq<(Point, Record)>): (r: seq<Record>)
    ensures |r| == |members|
  {
    seq(|members|, i requires 0 <= i < |members| => members[i].1)
  }

  function NumbersOf(props: seq<Record>): seq<string> {
    seq(|props|, i requires 0 <= i < |props| => props[i].number)
  }

  /** The lists of one proposed cluster: its exploded, filtered network
      matched against its own points. */
  function PartSegments(geo: Geometry, c: Collaborators, part: Partition): seq<Segment> {
    Segments(geo, LongLines(geo, c.explodeSplit(part.network)), PointsOf(part.members), RecordsOf(part.members))
  }

  /** The segment lists `split` interpolates, one per cluster: when the
      numbers repeat and `Cluster.break` proposes clusters, one per proposed
      cluster; otherwise a single one over the whole network. On the
      duplicate path the first `distribute` has already dropped the short
      lines from the joined network before it is split again. */
  function Groups(c: Collaborators, geo: Geometry, id: int, network: seq<Line>,
                  coords: seq<Point>, props: seq<Record>): (gs: seq<seq<Segment>>)
    requires |coords| == |props|
    ensures !c.hasDup(NumbersOf(props), coords) ==> |gs| == 1
    ensures c.hasDup(NumbersOf(props), coords) ==>
      var parts := c.clusterBreak(Segments(geo, LongLines(geo, c.join(network)), coords, props), id);
      && (parts.Some? ==> |gs| == |parts.value| && forall i :: 0 <= i < |gs| ==> gs[i] == PartSegments(geo, c, parts.value[i]))
      && (parts.None? ==> |gs| == 1)
  {
    var joined := c.join(network);
    if c.hasDup(NumbersOf(props), coords) then
      var tmp := Segments(geo, LongLines(geo, joined), coords, props);
      match c.clusterBreak(tmp, id)
      case Some(parts) =>
        seq(|parts|, i requires 0 <= i < |parts| => PartSegments(geo, c, parts[i]))
      case None =>
        [Segments(geo, LongLines(geo, c.explodeSplit(LongLines(geo, joined))), coords, props)]
    else
      [Segments(geo, LongLines(geo, c.explodeSplit(joined)), coords, props)]
  }

  /** Every list holds only lines that survived the length filter. */
  lemma SegmentLinesAreLong(geo: Geometry, raw: seq<Line>, coords: seq<Point>, props: seq<Record>)
    requires |coords| == |props|
    ensures forall s :: s in Segments(geo, LongLines(geo, raw), coords, props) ==> IsLong(geo, s.network)
  {
    var segs := Segments(geo, LongLines(geo, raw), coords, props);
    forall s | s in segs ensures IsLong(geo, s.network) {
      var i :| 0 <= i < |segs| && segs[i] == s;
    }
  }

  /** No group of any path carries a line of length 0.001 or less. */
  lemma GroupLinesAreLong(c: Collaborators, geo: Geometry, id: int, network: seq<Line>,
                          coords: seq<Point>, props: seq<Record>)
    requires |coords| == |props|
    ensures forall g, s :: g in Groups(c, geo, id, network, coords, props) && s in g ==> IsLong(geo, s.network)
  {
    var gs := Groups(c, geo, id, network, coords, props);
    var joined := c.join(network);
    forall g, s | g in gs && s in g ensures IsLong(geo, s.network) {
      if c.hasDup(NumbersOf(props), coords) {
        var tmp := Segments(geo, LongLines(geo, joined), coords, props);
        match c.clusterBreak(tmp, id)
        case Some(parts) =>
          var i :| 0 <= i < |parts| && gs[i] == g;
          SegmentLinesAreLong(geo, c.explodeSplit(parts[i].network), PointsOf(parts[i].members), RecordsOf(parts[i].members));
        case None =>
          SegmentLinesAreLong(geo, c.explodeSplit(LongLines(geo, joined)), coords, props);
      } else {
        SegmentLinesAreLong(geo, c.explodeSplit(joined), coords, props);
      }
    }
  }

  /** When the duplicate check reports none, every point of the cluster lands
      in the single list, as long as one line survives. */
  lemma UniqueNumbersKeepAllPoints(c: Collaborators, geo: Geometry, id: int, network: seq<Line>,
                                   coords: seq<Point>, props: seq<Record>)
    requires |coords| == |props|
    requires !c.hasDup(NumbersOf(props), coords)
    requires LongLines(geo, c.explodeSplit(c.join(network))) != []
    ensures var gs := Groups(c, geo, id, network, coords, props);
      && |gs| == 1
      && TotalSize(seq(|gs[0]|, i requires 0 <= i < |gs[0]| => gs[0][i].address)) == |coords|
  {
    SegmentsConserve(geo, LongLines(geo, c.explodeSplit(c.join(network))), coords, props);
  }

  /** True when some list yields an interpolation feature. */
  predicate AnyInterpolated(c: Collaborators, groups: seq<seq<Segment>>) {
    groups != [] && (AnyInterpolated(c, groups[..|groups| - 1]) || c.interpolize(groups[|groups| - 1]).Some?)
  }

  /** Some list yields a feature exactly when one of them is accepted. */
  lemma {:induction false} AnyInterpolatedIff(c: Collaborators, groups: seq<seq<Segment>>)
    ensures AnyInterpolated(c, groups) <==> exists i :: 0 <= i < |groups| && c.interpolize(groups[i]).Some?
  {
    if groups != [] {
      var n := |groups| - 1;
      AnyInterpolatedIff(c, groups[..n]);
      assert forall i :: 0 <= i < n ==> groups[..n][i] == groups[i];
    }
  }

  /** The features before post-processing: one per list that `interpolize`
      accepts, in list order, each tagged with the kept names. */
  function Tagged(c: Collaborators, names: seq<Name>, country: Option<string>, groups: seq<seq<Segment>>): (r: seq<Itp>)
    ensures |r| <= |groups|
  {
    if groups == [] then []
    else
      var n := |groups| - 1;
      Tagged(c, names, country, groups[..n])
        + (match c.interpolize(groups[n])
           case Some(itp) => [Tag(itp, FilterNames(names), country)]
           case None => [])
  }

  /** Every feature names the cluster by its non-empty display names and
      carries the country when one is set. */
  lemma {:induction false} TaggedFeatures(c: Collaborators, names: seq<Name>, country: Option<string>, groups: seq<seq<Segment>>)
    ensures forall t :: t in Tagged(c, names, country, groups) ==>
      && t.text == Some(FilterNames(names))
      && (Truthy(country) ==> t.geocoderStack == country)
    ensures |Tagged(c, names, country, groups)| > 0 <==> AnyInterpolated(c, groups)
  {
    if groups != [] {
      var n := |groups| - 1;
      TaggedFeatures(c, names, country, groups[..n]);
    }
  }

  /** The features `split` hands on: the tagged ones after post-processing. */
  function Finals(c: Collaborators, tagged: seq<Itp>): (r: seq<Itp>)
    ensures |r| == |tagged|
    ensures forall i :: 0 <= i < |r| ==> r[i] == c.post(tagged[i])
  {
    seq(|tagged|, i requires 0 <= i < |tagged| => c.post(tagged[i]))
  }

  /** The property records in point order (`props.push(feat.props[coords[2]])`). */
  function Lookup(coords: seq<Point>, props: map<int, Record>): (r: seq<Record>)
    requires KeysIn(props, coords)
    ensures |r| == |coords|
    ensures forall i :: 0 <= i < |coords| ==> r[i] == props[coords[i].key]
  {
    seq(|coords|, i requires 0 <= i < |coords| => props[coords[i].key])
  }

  class Split {
    const id: int
    /** `opts.stdout`, set to true when the option was absent. */
    const stdout: bool
    const country: Option<string>

    /** `new Split(o)`: output goes to standard output unless the option
        says otherwise. */
    constructor (o: SplitOptions)
      ensures id == o.id && country == o.country
      ensures stdout == (o.stdout.None? || o.stdout.value)
    {
      id := o.id;
      stdout := o.stdout.None? || o.stdout.value;
      country := o.country;
    }

    /** `split(feat, cb)`. A cluster without a non-blank display name is
        skipped and left untouched. Otherwise its points are sorted in place
        (a permutation, in order of house number, then x, then y, where the
        numbers parse), the records are looked up in point order, the points
        are matched to the lines, and every list that `interpolize` accepts
        becomes a feature tagged with the cluster's names; `feat.name` loses
        its empty displays once a feature is made. */
    method SplitCluster(feat: SplitFeat, geo: Geometry, c: Collaborators) returns (r: SplitResult)
      requires HasDisplayName(feat.name) ==> feat.KeysResolve()
      modifies feat, feat.address
      ensures !HasDisplayName(old(feat.name)) ==>
        r == Skipped && feat.name == old(feat.name) && feat.address[..] == old(feat.address[..])
      ensures HasDisplayName(old(feat.name)) ==>
        var nums := ParsedNumbers(feat.props);
        var coords := feat.address[..];
        && multiset(coords) == multiset(old(feat.address[..]))
        && KeysIn(nums, coords)
        && AdjacentOrdered(nums, coords)
        && (NumbersParse(nums, coords) ==> LexOrdered(nums, coords))
        && KeysIn(feat.props, coords)
        && var groups := Groups(c, geo, feat.id, feat.network, coords, Lookup(coords, feat.props));
           var features := Finals(c, Tagged(c, old(feat.name), country, groups));
           && r == (if stdout then Written(features) else Returned(features))
           && feat.name == (if AnyInterpolated(c, groups) then FilterNames(old(feat.name)) else old(feat.name))
    {
      if !HasDisplayName(feat.name) {
        return Skipped;
      }
      ghost var names0 := feat.name;
      var nums := ParsedNumbers(feat.props);
      assert KeysIn(nums, feat.address[..]);
      SortCoordinates(feat.address, nums);
      var props := BuildProps(feat.address, feat.props);
      var coords := feat.address[..];
      assert KeysIn(feat.props, coords);
      assert props == Lookup(coords, feat.props);

      var groups := MatchGroups(geo, c, feat.id, feat.network, coords, props);
      var itpFinal := TagGroups(c, feat, groups, country);
      if stdout {
        r := Written(itpFinal);
      } else {
        r := Returned(itpFinal);
      }
    }
  }

  lemma TagStep(c: Collaborators, names: seq<Name>, country: Option<string>, groups: seq<seq<Segment>>, k: nat)
    requires k < |groups|
    ensures AnyInterpolated(c, groups[..k + 1]) == (AnyInterpolated(c, groups[..k]) || c.interpolize(groups[k]).Some?)
    ensures Tagged(c, names, country, groups[..k + 1])
      == Tagged(c, names, country, groups[..k])
         + (match c.interpolize(groups[k])
            case Some(itp) => [Tag(itp, FilterNames(names), country)]
            case None => [])
  {
    assert groups[..k + 1][..k] == groups[..k];
  }

  /** Filtering names that may already be filtered gives the filtered names. */
  lemma FilterNamesOnce(names0: seq<Name>, names: seq<Name>, filtered: bool)
    requires names == if filtered then FilterNames(names0) else names0
    ensures FilterNames(names) == FilterNames(names0)
  {
    if filtered {
      FilterNamesIdempotent(names0);
    }
  }

  lemma FinalsAppend(c: Collaborators, tagged: seq<Itp>, more: seq<Itp>)
    ensures Finals(c, tagged + more) == Finals(c, tagged) + Finals(c, more)
  {
  }

  /** One more list adds its posted feature when `interpolize` accepts it. */
  lemma FinalsStep(c: Collaborators, names: seq<Name>, country: Option<string>, groups: seq<seq<Segment>>, k: nat)
    requires k < |groups|
    ensures Finals(c, Tagged(c, names, country, groups[..k + 1]))
      == Finals(c, Tagged(c, names, country, groups[..k]))
         + (match c.interpolize(groups[k])
            case Some(itp) => [c.post(Tag(itp, FilterNames(names), country))]
            case None => [])
  {
    TagStep(c, names, country, groups, k);
    var prev := Tagged(c, names, country, groups[..k]);
    match c.interpolize(groups[k])
    case Some(itp) => FinalsAppend(c, prev, [Tag(itp, FilterNames(names), country)]);
    case None => assert prev + [] == prev;
  }

  /** The tagging loop of `split`: every list that `interpolize` accepts
      becomes a feature named by the non-empty displays, and `feat.name` is
      filtered once the first feature is made. */
  method TagGroups(c: Collaborators, feat: SplitFeat, groups: seq<seq<Segment>>, country: Option<string>)
    returns (itpFinal: seq<Itp>)
    modifies feat
    ensures itpFinal == Finals(c, Tagged(c, old(feat.name), country, groups))
    ensures feat.name == if AnyInterpolated(c, groups) then FilterNames(old(feat.name)) else old(feat.name)
  {
    ghost var names0 := feat.name;
    itpFinal := [];
    var k := 0;
    while k < |groups|
      invariant 0 <= k <= |groups|
      invariant feat.name == if AnyInterpolated(c, groups[..k]) then FilterNames(names0) else names0
      invariant itpFinal == Finals(c, Tagged(c, names0, country, groups[..k]))
    {
      ghost var made := AnyInterpolated(c, groups[..k]);
      TagStep(c, names0, country, groups, k);
      FinalsStep(c, names0, country, groups, k);
      var itp := c.interpolize(groups[k]);
      if itp.Some? {
        FilterNamesOnce(names0, feat.name, made);
        feat.name := FilterNames(feat.name);
        var tagged := Tag(itp.value, feat.name, country);
        itpFinal := itpFinal + [c.post(tagged)];
      }
      k := k + 1;
    }
    assert groups[..k] == groups;
  }

  /** The matching part of `split`: joins the network, and on repeated
      numbers lets `Cluster.break` propose clusters to match separately. */
  method MatchGroups(geo: Geometry, c: Collaborators, id: int, network: seq<Line>, coords: seq<Point>, props: seq<Record>)
    returns (groups: seq<seq<Segment>>)
    requires |coords| == |props|
    ensures groups == Groups(c, geo, id, network, coords, props)
  {
    var joined := new FeatureCollection(c.join(network));
    if c.hasDup(NumbersOf(props), coords) {
      var tmp := Distribute(geo, joined, coords, props);
      var parts := c.clusterBreak(tmp, id);
      if parts.Some? {
        groups := BreakGroups(geo, c, parts.value);
      } else {
        var lines := new FeatureCollection(c.explodeSplit(joined.features));
        var segs := Distribute(geo, lines, coords, props);
        groups := [segs];
      }
    } else {
      var lines := new FeatureCollection(c.explodeSplit(joined.features));
      var segs := Distribute(geo, lines, coords, props);
      groups := [segs];
    }
  }

  /** `distribute(explode.split(seg.network), seg.address, seg.number)` for one proposed cluster. */
  method DistributePart(geo: Geometry, c: Collaborators, part: Partition) returns (segs: seq<Segment>)
    ensures segs == PartSegments(geo, c, part)
  {
    var lines := new FeatureCollection(c.explodeSplit(part.network));
    segs := Distribute(geo, lines, PointsOf(part.members), RecordsOf(part.members));
  }

  /** `potentialSegs.map(seg => distribute(explode.split(seg.network), seg.address, seg.number))`. */
  method BreakGroups(geo: Geometry, c: Collaborators, parts: seq<Partition>) returns (groups: seq<seq<Segment>>)
    ensures |groups| == |parts|
    ensures forall i :: 0 <= i < |parts| ==> groups[i] == PartSegments(geo, c, parts[i])
  {
    groups := [];
    var i := 0;
    while i < |parts|
      invariant 0 <= i <= |parts| && |groups| == i
      invariant forall j :: 0 <= j < i ==> groups[j] == PartSegments(geo, c, parts[j])
    {
      var segs := DistributePart(geo, c, parts[i]);
      groups := groups + [segs];
      i := i + 1;
    }
  }
}
