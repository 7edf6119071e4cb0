/** The conflate compare worker in lib/conflate/compare.js. `init` checks and
    completes the options; `split` reads the input file line by line, keeps
    the lines this worker owns in the round robin, strips GeoJSON text
    sequence record separators (RFC 8142, section 2), parses each feature and
    writes a `create` record for every feature the persistent table does not
    know. Parsing (`JSON.parse` and the map module) and the database enter
    as functions supplied by the caller. */
module ConflateCompare {
  import opened JsSemantics

  /** The only option names `init` accepts. */
  const OptionKeys: seq<string> := ["id", "total", "context", "output", "pool", "map", "read", "tokens"]

  /** The first option name, in key order, that `init` refuses. */
  function InvalidKey(keys: seq<string>): (r: Option<string>)
    ensures r.None? <==> forall i :: 0 <= i < |keys| ==> keys[i] in OptionKeys
    ensures r.Some? ==> r.value !in OptionKeys
    ensures r.Some? ==>
      exists i :: 0 <= i < |keys| && keys[i] == r.value && forall j :: 0 <= j < i ==> keys[j] in OptionKeys
  {
    if keys == [] then None
    else if keys[0] !in OptionKeys then Some(keys[0])
    else
      var r := InvalidKey(keys[1..]);
      assert forall i :: 1 <= i < |keys| ==> keys[i] == keys[1..][i - 1];
      r
  }

  function InvalidKeyMessage(key: string): string {
    key + " is not a valid conflate/compare option"
  }

  datatype Output = Stdout | Stream(name: string)

  datatype Context = Context(country: string, region: Option<string>)

  /** The message `init` receives: `keys` is its `Object.keys`, `None` an
      absent option. */
  datatype CompareOptions = CompareOptions(keys: seq<string>, id: int, total: Option<int>, context: Option<Context>,
                                           output: Option<Output>, mapName: Option<string>, read: string, pool: string)

  /** `if (!opts.output) opts.output = process.stdout`. */
  function WithDefaults(o: CompareOptions): (r: CompareOptions)
    ensures r.output.Some?
    ensures o.output.Some? ==> r == o
    ensures o.output.None? ==> r == o.(output := Some(Stdout))
  {
    if o.output.None? then o.(output := Some(Stdout)) else o
  }

  /** `num % opts.total === opts.id` for a line counter `num` of at least 1;
      an absent or zero total gives NaN, which equals nothing. For a
      positive dividend JavaScript's remainder agrees with Dafny's. */
  predicate Owns(num: int, total: Option<int>, id: int)
    requires num >= 1
    ensures Owns(num, total, id) ==> total.Some? && 0 <= id < if total.value < 0 then -total.value else total.value
  {
    total.Some? && total.value != 0 && num % total.value == id
  }

  /** With `total` workers numbered 0 to `total - 1`, every counted line has
      exactly one owner. */
  lemma ExactlyOneOwner(num: int, total: int)
    requires num >= 1 && total > 0
    ensures 0 <= num % total < total && Owns(num, Some(total), num % total)
    ensures forall id :: Owns(num, Some(total), id) ==> id == num % total
  {
  }

  /** The record separator, character 30. */
  const RS: char := 30 as char

  /** `data.replace(RegExp(String.fromCharCode(30), 'g'), '')`. */
  function StripRS(s: string): (r: string)
    ensures |r| <= |s|
    ensures RS !in r
    ensures forall c :: c != RS ==> multiset(r)[c] == multiset(s)[c]
  {
    if s == [] then []
    else
      var n := |s| - 1;
      assert s == s[..n] + [s[n]];
      StripRS(s[..n]) + (if s[n] == RS then [] else [s[n]])
  }

  /** Stripping works character by character: it distributes over concatenation. */
  lemma {:induction false} StripRSAppend(a: string, b: string)
    ensures StripRS(a + b) == StripRS(a) + StripRS(b)
  {
    if b == [] {
      assert a + b == a;
    } else {
      var n := |b| - 1;
      assert (a + b)[..|a + b| - 1] == a + b[..n];
      StripRSAppend(a, b[..n]);
    }
  }

  /** A line without separators passes unchanged, and only such a line does. */
  lemma {:induction false} StripRSUnchangedIff(s: string)
    ensures StripRS(s) == s <==> RS !in s
  {
    if s != [] {
      var n := |s| - 1;
      StripRSUnchangedIff(s[..n]);
      assert s == s[..n] + [s[n]];
      if s[n] != RS && StripRS(s[..n]) != s[..n] {
        // dropping the last character of both sides exposes the difference
        assert StripRS(s)[..|StripRS(s)| - 1] == StripRS(s[..n]);
      }
    }
  }

  /** The street name synonyms of a feature. */
  datatype StreetName = StreetName(display: string)

  /** `feat.properties`: absent members are `None`; `street` is `None` when
      it is not an array. */
  datatype Props = Props(number: Option<string>, display: Option<string>, source: Option<string>, street: Option<seq<StreetName>>)

  /** A parsed input feature; `properties` is `None` when it is missing. */
  datatype Feature = Feature(properties: Option<Props>, geometry: seq<(real, real)>)

  /** What parsing a line gives: a feature, an exception from `JSON.parse`
      or the map module, or an `Error` the map module returned. */
  datatype Parsed = Parsed(feat: Feature) | Unparsable(message: string) | MapError(message: string)

  /** A persistent row matching a feature; `name` is `None` when it is null. */
  datatype Row = Row(name: Option<seq<string>>)

  /** `parse` is `JSON.parse`, followed by `opts.map` when a map is set;
      `query` returns the persistent rows with the same number near the
      feature, or the query's error message. */
  datatype Collaborators = Collaborators(parse: string -> Parsed, query: Feature -> Result<seq<Row>, string>)

  datatype CreateProps = CreateProps(number: Option<string>, street: Option<string>, source: Option<string>)

  /** A record `create` writes. */
  datatype Created = Created(action: string, properties: CreateProps, geometry: seq<(real, real)>)

  /** `create(feat)`: a `create` action carrying the feature's number,
      display name (as `street`), source and geometry. */
  function Create(feat: Feature): (r: Created)
    requires feat.properties.Some?
    ensures r.action == "create"
    ensures r.properties.number == feat.properties.value.number
    ensures r.properties.street == feat.properties.value.display
    ensures r.properties.source == feat.properties.value.source
    ensures r.geometry == feat.geometry
  {
    var p := feat.properties.value;
    Created("create", CreateProps(p.number, p.display, p.source), feat.geometry)
  }

  /** A corollary of `Create`'s contract: a record is determined by exactly
      the number, display, source and geometry of the feature; the street
      synonyms do not enter it. */
  lemma CreateDeterminedBy(f: Feature, g: Feature)
    requires f.properties.Some? && g.properties.Some?
    ensures Create(f) == Create(g) <==>
      && f.properties.value.number == g.properties.value.number
      && f.properties.value.display == g.properties.value.display
      && f.properties.value.source == g.properties.value.source
      && f.geometry == g.geometry
  {
  }

  /** `modify(known, potential)`: hands back the known feature. */
  function Modify<T>(known: T, potential: Feature): (r: T)
    ensures r == known
  {
    known
  }

  /** Why the worker process dies with an uncaught exception. */
  datatype CompareCrash =
    | NotInitialized        // `pool` or `id` is still undefined
    | InvalidOption(message: string) // `init` threw
    | PropertiesMissing     // `feat.properties.number` on a non-feature
    | QueryFailed(message: string) // `cb(err)` rethrows
    | StreetNotArray        // `feat.properties.street.map`
    | RowWithoutName        // `r.name.map`

  /** What one input line leads to. */
  datatype LineResult =
    | Blank                 // empty: ignored and not counted
    | NotMine               // counted, owned by another worker
    | Rejected(message: string) // the map module returned an error
    | Fatal(reason: CompareCrash)
    | Write(record: Created) // no persistent row: a create record
    | Known                 // persistent rows exist: nothing written

  /** One line: the counter after it and what it leads to. */
  function LineStep(num: int, line: string, o: CompareOptions, c: Collaborators): (r: (int, LineResult))
    requires num >= 0
    ensures line == "" ==> r == (num, Blank)
    ensures line != "" ==> r.0 == num + 1 && (r.1 == NotMine <==> !Owns(num + 1, o.total, o.id))
    ensures r.1.Write? ==>
      && c.parse(StripRS(line)).Parsed? && c.parse(StripRS(line)).feat.properties.Some?
      && c.query(c.parse(StripRS(line)).feat) == Ok([])
      && r.1.record == Create(c.parse(StripRS(line)).feat)
    ensures line != "" && Owns(num + 1, o.total, o.id) ==>
      var p := c.parse(StripRS(line));
      && (p.MapError? ==> r.1 == Rejected(p.message + ": " + StripRS(line)))
      && (p.Unparsable? || (p.Parsed? && p.feat.properties.None?) ==> r.1 == Fatal(PropertiesMissing))
      && (p.Parsed? && p.feat.properties.Some? ==>
            match c.query(p.feat)
            case Err(e) => r.1 == Fatal(QueryFailed(e))
            case Ok(rows) =>
              && (rows == [] ==> r.1 == Write(Create(p.feat)))
              && (rows != [] ==> r.1 == Known || r.1 == Fatal(StreetNotArray) || r.1 == Fatal(RowWithoutName)))
  {
    if line == "" then (num, Blank)
    else
      var n := num + 1;
      if !Owns(n, o.total, o.id) then (n, NotMine)
      else
        var data := StripRS(line);
        match c.parse(data)
        case MapError(m) => (n, Rejected(m + ": " + data))
        case Unparsable(_) => (n, Fatal(PropertiesMissing))
        case Parsed(feat) =>
          if feat.properties.None? then (n, Fatal(PropertiesMissing))
          else match c.query(feat)
            case Err(e) => (n, Fatal(QueryFailed(e)))
            case Ok(rows) =>
              if rows == [] then (n, Write(Create(feat)))
              else if feat.properties.value.street.None? then (n, Fatal(StreetNotArray))
              else if exists i :: 0 <= i < |rows| && rows[i].name.None? then (n, Fatal(RowWithoutName))
              else (n, Known)
  }

  /** The number of non-empty lines. */
  function Counted(lines: seq<string>): (k: nat)
    ensures k <= |lines|
  {
    if lines == [] then 0
    else Counted(lines[..|lines| - 1]) + (if lines[|lines| - 1] != "" then 1 else 0)
  }

  /** The lines in order until the first one that kills the worker: the
      counter after them and what each led to. */
  function Run(num: int, lines: seq<string>, o: CompareOptions, c: Collaborators): (r: (int, seq<LineResult>))
    requires num >= 0
    ensures r.0 >= num
    ensures |r.1| <= |lines|
    ensures forall j :: 0 <= j < |r.1| - 1 ==> !r.1[j].Fatal?
    ensures |r.1| < |lines| ==> r.1 != [] && r.1[|r.1| - 1].Fatal?
    decreases |lines|
  {
    if lines == [] then (num, [])
    else
      var (n, res) := LineStep(num, lines[0], o, c);
      if res.Fatal? then (n, [res])
      else
        var (m, rest) := Run(n, lines[1..], o, c);
        (m, [res] + rest)
  }

  /** One more line of a run: the results so far are followed by that
      line's result, and a fatal line ends the run. */
  lemma SplitStep(start: int, lines: seq<string>, k: nat, num: int, results: seq<LineResult>,
                  o: CompareOptions, c: Collaborators)
    requires start >= 0 && num >= 0 && k < |lines|
    requires Run(start, lines, o, c) == (Run(num, lines[k..], o, c).0, results + Run(num, lines[k..], o, c).1)
    ensures var step := LineStep(num, lines[k], o, c);
      && (step.1.Fatal? ==> Run(start, lines, o, c) == (step.0, results + [step.1]))
      && (!step.1.Fatal? ==>
            var rest := Run(step.0, lines[k + 1..], o, c);
            Run(start, lines, o, c) == (rest.0, (results + [step.1]) + rest.1))
  {
    assert lines[k..][1..] == lines[k + 1..];
    assert lines[k..][0] == lines[k];
    var step := LineStep(num, lines[k], o, c);
    if !step.1.Fatal? {
      var rest := Run(step.0, lines[k + 1..], o, c);
      assert results + ([step.1] + rest.1) == (results + [step.1]) + rest.1;
    }
  }

  /** Line `j` of a run is the step of that line taken from the counter
      left by the lines before it. */
  lemma {:induction false} RunAt(num: int, lines: seq<string>, o: CompareOptions, c: Collaborators, j: nat)
    requires num >= 0
    requires j < |Run(num, lines, o, c).1|
    ensures Run(num, lines, o, c).1[j] == LineStep(num + Counted(lines[..j]), lines[j], o, c).1
    decreases |lines|
  {
    var (n, res) := LineStep(num, lines[0], o, c);
    if j > 0 {
      CountedFront(lines[..j]);
      assert lines[1..][..j - 1] == lines[..j][1..];
      RunAt(n, lines[1..], o, c, j - 1);
    }
  }

  /** Line `j` is counted as the `num + Counted(lines[..j + 1])`-th line: the
      counter skips empty lines, and a line belongs to this worker exactly
      when that count is its id modulo the total. A written record is
      `create` of the line's feature, written exactly when the owned line
      parses to a feature with properties and no persistent row matches. */
  lemma RunCounts(num: int, lines: seq<string>, o: CompareOptions, c: Collaborators, j: nat)
    requires num >= 0
    requires j < |Run(num, lines, o, c).1|
    ensures Run(num, lines, o, c).1[j] == Blank <==> lines[j] == ""
    ensures lines[j] != "" ==>
      (Run(num, lines, o, c).1[j] == NotMine <==> !Owns(num + Counted(lines[..j + 1]), o.total, o.id))
    ensures Run(num, lines, o, c).1[j].Write? ==>
      && c.parse(StripRS(lines[j])).Parsed? && c.parse(StripRS(lines[j])).feat.properties.Some?
      && c.query(c.parse(StripRS(lines[j])).feat) == Ok([])
      && Run(num, lines, o, c).1[j].record == Create(c.parse(StripRS(lines[j])).feat)
    ensures lines[j] != "" && Owns(num + Counted(lines[..j + 1]), o.total, o.id) ==>
      var p := c.parse(StripRS(lines[j]));
      p.Parsed? && p.feat.properties.Some? && c.query(p.feat) == Ok([]) ==>
      Run(num, lines, o, c).1[j] == Write(Create(p.feat))
  {
    RunAt(num, lines, o, c, j);
    assert lines[..j + 1][..j] == lines[..j];
  }

  /** After a run without a fatal line, the counter has advanced by the
      number of non-empty lines. */
  lemma {:induction false} RunAdvances(num: int, lines: seq<string>, o: CompareOptions, c: Collaborators)
    requires num >= 0
    requires |Run(num, lines, o, c).1| == |lines|
    requires lines != [] ==> !Run(num, lines, o, c).1[|lines| - 1].Fatal?
    ensures Run(num, lines, o, c).0 == num + Counted(lines)
    decreases |lines|
  {
    if lines != [] {
      var (n, res) := LineStep(num, lines[0], o, c);
      CountedFront(lines);
      RunAdvances(n, lines[1..], o, c);
    }
  }

  /** `Counted`, seen from the front. */
  lemma {:induction false} CountedFront(lines: seq<string>)
    requires lines != []
    ensures Counted(lines) == (if lines[0] != "" then 1 else 0) + Counted(lines[1..])
  {
    var n := |lines| - 1;
    if n > 0 {
      assert lines[1..][..n - 1] == lines[..n][1..];
      CountedFront(lines[..n]);
    }
  }

  /** A worker whose total is absent or zero owns nothing: it writes nothing. */
  lemma {:induction false} NoTotalWritesNothing(num: int, lines: seq<string>, o: CompareOptions, c: Collaborators)
    requires num >= 0
    requires o.total.None? || o.total == Some(0)
    ensures forall j :: 0 <= j < |Run(num, lines, o, c).1| ==>
      Run(num, lines, o, c).1[j] == Blank || Run(num, lines, o, c).1[j] == NotMine
    decreases |lines|
  {
    if lines != [] {
      var (n, res) := LineStep(num, lines[0], o, c);
      NoTotalWritesNothing(n, lines[1..], o, c);
    }
  }

  datatype CompareReply = Ready(id: int) | End(id: int)

  datatype PoolState = NoPool | Open(config: string) | Ended(config: string)

  class CompareWorker {
    var opts: Option<CompareOptions>
    var pool: PoolState
    /** The number of non-empty lines seen, across every `split`. */
    var num: nat
    /** The implicit global `id`, set after a successful `init`. */
    var id: Option<int>

    /** Once `init` has succeeded, the options and `id` are set. */
    predicate Valid()
      reads this
    {
      !pool.NoPool? ==> opts.Some? && id.Some?
    }

    constructor ()
      ensures Valid() && opts.None? && pool == NoPool && num == 0 && id.None?
    {
      opts := None;
      pool := NoPool;
      num := 0;
      id := None;
    }

    /** `init(o)`: records the options, then throws on the first unknown
        option name; otherwise defaults the output and opens the pool. */
    method Init(o: CompareOptions) returns (err: Option<string>)
      modifies this
      ensures num == old(num) && id == old(id)
      ensures err.Some? <==> InvalidKey(o.keys).Some?
      ensures err.Some? ==> err == Some(InvalidKeyMessage(InvalidKey(o.keys).value)) && opts == Some(o) && pool == old(pool)
      ensures err.None? ==> opts == Some(WithDefaults(o)) && pool == Open(o.pool)
    {
      opts := Some(o);
      var bad := InvalidKey(o.keys);
      if bad.Some? {
        return Some(InvalidKeyMessage(bad.value));
      }
      opts := Some(WithDefaults(o));
      pool := Open(o.pool);
      return None;
    }

    /** `split(cb)` over the lines of the input file: runs the lines as
        `Run` states, advancing the shared counter. */
    method Split(lines: seq<string>, c: Collaborators) returns (results: seq<LineResult>)
      requires opts.Some?
      modifies this
      ensures opts == old(opts) && pool == old(pool) && id == old(id)
      ensures (num as int, results) == Run(old(num), lines, opts.value, c)
    {
      var o := opts.value;
      results := [];
      var k := 0;
      ghost var start := num;
      assert lines[0..] == lines;
      assert Run(start, lines, o, c).1 == [] + Run(start, lines, o, c).1;
      while k < |lines|
        invariant 0 <= k <= |lines|
        invariant opts == old(opts) && pool == old(pool) && id == old(id)
        invariant |results| == k
        invariant Run(start, lines, o, c) == (Run(num, lines[k..], o, c).0, results + Run(num, lines[k..], o, c).1)
      {
        var step := LineStep(num, lines[k], o, c);
        SplitStep(start, lines, k, num, results, o, c);
        num := step.0;
        if step.1.Fatal? {
          results := results + [step.1];
          return;
        }
        results := results + [step.1];
        k := k + 1;
      }
      assert results + [] == results;
    }

    /** `process.on('message', ...)`. `end` closes the pool, or kills the
        worker when none was opened. Any other message initialises the
        worker, replies `ready`, runs the input lines and replies `end`;
        an invalid option or a fatal line kills the worker. A message with a
        `type` other than `end` carries the key `type`, which `init` refuses. */
    method Handle(kind: Option<string>, o: CompareOptions, lines: seq<string>, c: Collaborators)
      returns (replies: seq<CompareReply>, results: seq<LineResult>, crash: Option<CompareCrash>)
      requires Valid()
      requires kind.Some? ==> "type" in o.keys
      modifies this
      ensures Valid()
      ensures kind.Some? && kind != Some("end") ==>
        crash.Some? && crash.value.InvalidOption? && replies == [] && results == []
      ensures kind == Some("end") ==>
        && results == [] && opts == old(opts) && num == old(num)
        && (old(pool).NoPool? ==> crash == Some(NotInitialized) && replies == [] && pool == NoPool)
        && (!old(pool).NoPool? ==> crash.None? && pool == Ended(old(pool).config) && replies == [End(old(id).value)])
      ensures kind != Some("end") && InvalidKey(o.keys).Some? ==>
        && crash == Some(InvalidOption(InvalidKeyMessage(InvalidKey(o.keys).value)))
        && replies == [] && results == [] && opts == Some(o) && pool == old(pool) && num == old(num)
      ensures kind != Some("end") && InvalidKey(o.keys).None? ==>
        var run := Run(old(num), lines, WithDefaults(o), c);
        && opts == Some(WithDefaults(o)) && pool == Open(o.pool) && id == Some(o.id)
        && num == run.0 && results == run.1
        && (crash.Some? <==> results != [] && results[|results| - 1].Fatal?)
        && (crash.Some? ==> crash == Some(results[|results| - 1].reason) && replies == [Ready(o.id)])
        && (crash.None? ==> replies == [Ready(o.id), End(o.id)])
    {
      replies, results, crash := [], [], None;
      if kind == Some("end") {
        if pool.NoPool? {
          crash := Some(NotInitialized);
          return;
        }
        pool := Ended(pool.config);
        replies := [End(id.value)];
        return;
      }
      if kind.Some? {
        assert "type" !in OptionKeys;
      }
      var err := Init(o);
      if err.Some? {
        crash := Some(InvalidOption(err.value));
        return;
      }
      id := Some(o.id);
      replies := [Ready(o.id)];
      results := Split(lines, c);
      if results != [] && results[|results| - 1].Fatal? {
        crash := Some(results[|results| - 1].reason);
        return;
      }
      replies := replies + [End(o.id)];
    }
  }
}
