/** The input of one network cluster, as `SplitFeat` in lib/map/split.js holds
    it: display names, property records keyed by point, the road network and
    the address MultiPoint. */
module SplitFeature {
  import opened JsSemantics

  /** A display-name record of the cluster. */
  datatype Name = Name(tokenized: string, tokenless: string, display: string)

  /** One coordinate of the address MultiPoint: x, y and, as third ordinate,
      the key of the point's property record. */
  datatype Point = Point(x: real, y: real, key: int)

  /** A road line: the coordinates of one LineString. */
  datatype Line = Line(vertices: seq<(real, real)>)

  /** `number` as the store delivers it, before the legacy conversion. */
  datatype RawNumber = Text(s: string) | Integer(i: int) | Null | Undefined

  /** A property record as read; `props` is `None` when it is missing or falsy. */
  datatype RawRecord = RawRecord(id: int, number: RawNumber, props: Option<map<string, string>>)

  /** A property record after the legacy conversion. */
  datatype Record = Record(id: int, number: string, props: map<string, string>)

  /** `String(v)` for the values `number` can hold. */
  function NumberText(n: RawNumber): string {
    match n
    case Text(s) => s
    case Integer(i) => IntToString(i)
    case Null => "null"
    case Undefined => "undefined"
  }

  /** The legacy conversion of one record: a missing `props` becomes `{}` and
      `number` becomes a string. */
  function NormalizeRecord(r: RawRecord): (n: Record)
    ensures n.id == r.id
    ensures r.props.Some? ==> n.props == r.props.value
    ensures r.props.None? ==> n.props == map[]
    ensures r.number.Text? ==> n.number == r.number.s
  {
    Record(r.id, NumberText(r.number), if r.props.Some? then r.props.value else map[])
  }

  /** The conversion keeps an integer house number readable: `parseInt` of the
      converted text is the original integer, and `id` and a present `props`
      object are untouched. */
  lemma NormalizeKeepsNumber(r: RawRecord)
    requires r.number.Integer?
    ensures ParseInt(NormalizeRecord(r).number) == Some(r.number.i)
    ensures NormalizeRecord(r).id == r.id
    ensures r.props.Some? ==> NormalizeRecord(r).props == r.props.value
  {
    ParseIntOfIntToString(r.number.i, []);
    assert IntToString(r.number.i) + [] == IntToString(r.number.i);
  }

  /** The four arguments the constructor refuses when they are missing. */
  datatype ArgError = NameRequired | PropsRequired | NetworkRequired | AddressRequired

  function ArgErrorMessage(e: ArgError): string {
    match e
    case NameRequired => "name array required"
    case PropsRequired => "props object required"
    case NetworkRequired => "network geometry required"
    case AddressRequired => "address geometry required"
  }

  /** The constructor's argument checks, in the order it makes them: the
      first missing argument of name, props, network, address is reported. */
  function CheckArgs(name: Option<seq<Name>>, props: Option<map<int, RawRecord>>,
                     network: Option<seq<Line>>, address: Option<seq<Point>>): (r: Option<ArgError>)
    ensures r.None? <==> name.Some? && props.Some? && network.Some? && address.Some?
    ensures r == Some(NameRequired) <==> name.None?
    ensures r == Some(PropsRequired) <==> name.Some? && props.None?
    ensures r == Some(NetworkRequired) <==> name.Some? && props.Some? && network.None?
    ensures r == Some(AddressRequired) <==> name.Some? && props.Some? && network.Some? && address.None?
  {
    if name.None? then Some(NameRequired)
    else if props.None? then Some(PropsRequired)
    else if network.None? then Some(NetworkRequired)
    else if address.None? then Some(AddressRequired)
    else None
  }

  /** The legacy-conversion loop over `keys`, the lookup's `Object.keys`. */
  method NormalizeProps(raw: map<int, RawRecord>, keys: seq<int>) returns (props: map<int, Record>)
    requires forall i :: 0 <= i < |keys| ==> keys[i] in raw
    requires forall k :: k in raw ==> k in keys
    ensures props.Keys == raw.Keys
    ensures forall k :: k in raw ==> props[k] == NormalizeRecord(raw[k])
  {
    props := map[];
    var i := 0;
    while i < |keys|
      invariant 0 <= i <= |keys|
      invariant props.Keys == set j | 0 <= j < i :: keys[j]
      invariant forall k :: k in props ==> props[k] == NormalizeRecord(raw[k])
    {
      props := props[keys[i] := NormalizeRecord(raw[keys[i]])];
      i := i + 1;
    }
    forall k | k in raw ensures k in props {
      var j :| 0 <= j < |keys| && keys[j] == k;
    }
  }

  class SplitFeat {
    const id: int
    var name: seq<Name>
    const props: map<int, Record>
    const network: seq<Line>
    /** The MultiPoint's coordinates, sorted in place by the matcher. */
    const address: array<Point>

    /** Every point's property record is in the lookup. */
    predicate KeysResolve()
      reads this, address
    {
      forall i :: 0 <= i < address.Length ==> address[i].key in props
    }

    constructor (id: int, name: seq<Name>, props: map<int, Record>, network: seq<Line>, coordinates: seq<Point>)
      ensures this.id == id && this.name == name && this.props == props && this.network == network
      ensures fresh(address) && address[..] == coordinates
    {
      this.id := id;
      this.name := name;
      this.props := props;
      this.network := network;
      address := new Point[|coordinates|](i requires 0 <= i < |coordinates| => coordinates[i]);
    }
  }

  /** `new SplitFeat(id, name, props, network, address)`: throws on the first
      missing argument; otherwise converts every property record and keeps
      the lookup's key set. `keys` is the lookup's `Object.keys`. */
  method NewSplitFeat(id: int, name: Option<seq<Name>>, props: Option<map<int, RawRecord>>,
                      network: Option<seq<Line>>, address: Option<seq<Point>>, keys: seq<int>)
    returns (r: Result<SplitFeat, ArgError>)
    requires props.Some? ==> forall i :: 0 <= i < |keys| ==> keys[i] in props.value
    requires props.Some? ==> forall k :: k in props.value ==> k in keys
    ensures r.Err? <==> CheckArgs(name, props, network, address).Some?
    ensures r.Err? ==> Some(r.error) == CheckArgs(name, props, network, address)
    ensures r.Ok? ==> fresh(r.value) && fresh(r.value.address)
    ensures r.Ok? ==> r.value.id == id && r.value.name == name.value && r.value.network == network.value
    ensures r.Ok? ==> r.value.address[..] == address.value
    ensures r.Ok? ==> r.value.props.Keys == props.value.Keys
    ensures r.Ok? ==> forall k :: k in props.value ==> r.value.props[k] == NormalizeRecord(props.value[k])
  {
    var err := CheckArgs(name, props, network, address);
    if err.Some? {
      return Err(err.value);
    }
    var converted := NormalizeProps(props.value, keys);
    var feat := new SplitFeat(id, name.value, converted, network.value, address.value);
    return Ok(feat);
  }
}
