/** `conflate` and `compare` in native/src/conflate/mod.rs. `conflate` reads
    its arguments from JavaScript, requires both input files, defaults the
    context, and for every address of the input stream collects the
    persistent addresses with the same number nearby and asks `compare`
    what to do with it. The argument deserialiser, the context conversion,
    the address stream and the database query enter as functions supplied
    by the caller. */
module ConflateNative {
  import opened JsSemantics

  /** The context as the JavaScript caller gives it. */
  datatype InputContext = InputContext(country: string, region: Option<string>, tokens: map<string, string>)

  /** The context the address stream normalises with. */
  datatype Context = Context(country: string, region: Option<string>, tokens: map<string, string>)

  datatype ConflateArgs = ConflateArgs(
    db: string,
    context: Option<InputContext>,
    inAddress: Option<string>,
    inPersistent: Option<string>,
    errorAddress: Option<string>,
    errorPersistent: Option<string>,
    output: Option<string>)

  /** `ConflateArgs::new()`: the `dedupe` database and nothing else. */
  function NewArgs(): (a: ConflateArgs)
    ensures a.db == "dedupe"
    ensures a.context.None? && a.inAddress.None? && a.inPersistent.None?
    ensures a.errorAddress.None? && a.errorPersistent.None? && a.output.None?
  {
    ConflateArgs("dedupe", None, None, None, None, None, None)
  }

  /** `cx.argument_opt(0)`: missing, `undefined`, `null`, or a value. */
  datatype Argument<V> = Absent | Undefined | Null | Given(value: V)

  /** The arguments `conflate` works with, or the error `neon_serde`
      raised, which is thrown back to JavaScript. */
  function ResolveArgs<V>(arg: Argument<V>, decode: V -> Result<ConflateArgs, string>): (r: Result<ConflateArgs, string>)
    ensures !arg.Given? ==> r == Ok(NewArgs())
    ensures arg.Given? ==> r == decode(arg.value)
  {
    match arg
    case Given(v) => decode(v)
    case _ => Ok(NewArgs())
  }

  datatype Panic = InPersistentRequired | InAddressRequired

  function PanicMessage(p: Panic): string {
    match p
    case InPersistentRequired => "in_persistent argument is required"
    case InAddressRequired => "in_address argument is required"
  }

  /** The required-argument checks: `in_persistent` first, then `in_address`. */
  function CheckRequired(args: ConflateArgs): (r: Option<Panic>)
    ensures r.None? <==> args.inPersistent.Some? && args.inAddress.Some?
    ensures r == Some(InPersistentRequired) <==> args.inPersistent.None?
    ensures r == Some(InAddressRequired) <==> args.inPersistent.Some? && args.inAddress.None?
  {
    if args.inPersistent.None? then Some(InPersistentRequired)
    else if args.inAddress.None? then Some(InAddressRequired)
    else None
  }

  /** The default context: no country, no region, no tokens. */
  function DefaultContext(): Context {
    Context("", None, map[])
  }

  /** The context `conflate` uses: the converted argument, or the default. */
  function ContextOf(args: ConflateArgs, fromInput: InputContext -> Context): (ctx: Context)
    ensures args.context.None? ==> ctx.country == "" && ctx.region.None? && ctx.tokens == map[]
    ensures args.context.Some? ==> ctx == fromInput(args.context.value)
  {
    match args.context
    case Some(input) => fromInput(input)
    case None => DefaultContext()
  }

  /** One address: number, street names, source, output and interpolation
      flags, and its longitude and latitude. */
  datatype Address = Address(id: Option<int>, number: string, names: seq<string>, source: Option<string>,
                             output: bool, interpolate: bool, geom: (real, real))

  /** `hecate::Action`, of which `compare` uses two. */
  datatype Action = Create | NoAction

  /** `fromInput` is `Context::from`; `addresses` is the address stream read
      from a file with a context; `lookup` is the query for persistent
      addresses with the same number within 0.02 degrees. */
  datatype Environment<!V> = Environment(
    decode: V -> Result<ConflateArgs, string>,
    fromInput: InputContext -> Context,
    addresses: (string, Context) -> seq<Address>,
    lookup: Address -> seq<Address>)

  datatype ConflateOutcome = Thrown(message: string) | Panicked(panic: Panic) | Finished(context: Context, actions: seq<Action>)

  /** A `Vec<Address>`. */
  class AddressVec {
    var items: seq<Address>

    constructor ()
      ensures items == []
    {
      items := [];
    }

    method Push(a: Address)
      modifies this
      ensures items == old(items) + [a]
    {
      items := items + [a];
    }
  }

  /** `compare(potential, persistents)`: create the address exactly when no
      persistent address matches it. It may not change the vector: it has
      no licence to modify anything. */
  method Compare(potential: Address, persistents: AddressVec) returns (action: Action)
    ensures action == Create <==> |persistents.items| == 0
    ensures action == NoAction <==> |persistents.items| > 0
  {
    if |persistents.items| == 0 {
      return Create;
    }
    return NoAction;
  }

  /** What `compare` decides for every address of the stream. */
  function Decisions(addresses: seq<Address>, lookup: Address -> seq<Address>): (r: seq<Action>)
    ensures |r| == |addresses|
    ensures forall i :: 0 <= i < |addresses| ==> (r[i] == Create <==> lookup(addresses[i]) == [])
  {
    seq(|addresses|, i requires 0 <= i < |addresses| => if lookup(addresses[i]) == [] then Create else NoAction)
  }

  /** What `conflate` ends with for an argument. */
  function ConflateOutcomeOf<V>(arg: Argument<V>, env: Environment<V>): (r: ConflateOutcome)
    ensures r.Thrown? <==> ResolveArgs(arg, env.decode).Err?
    ensures r.Panicked? <==> ResolveArgs(arg, env.decode).Ok? && CheckRequired(ResolveArgs(arg, env.decode).value).Some?
    ensures r.Finished? ==>
      var args := ResolveArgs(arg, env.decode).value;
      && args.inPersistent.Some? && args.inAddress.Some?
      && |r.actions| == |env.addresses(args.inAddress.value, r.context)|
  {
    match ResolveArgs(arg, env.decode)
    case Err(e) => Thrown(e)
    case Ok(args) =>
      match CheckRequired(args)
      case Some(p) => Panicked(p)
      case None =>
        var ctx := ContextOf(args, env.fromInput);
        Finished(ctx, Decisions(env.addresses(args.inAddress.value, ctx), env.lookup))
  }

  /** Called without an argument (or with `undefined` or `null`), `conflate`
      panics for the missing `in_persistent`. */
  lemma NoArgumentPanics<V>(arg: Argument<V>, env: Environment<V>)
    requires !arg.Given?
    ensures ConflateOutcomeOf(arg, env) == Panicked(InPersistentRequired)
    ensures PanicMessage(ConflateOutcomeOf(arg, env).panic) == "in_persistent argument is required"
  {
  }

  /** A finished run decides for each input address, in order, and creates
      exactly the addresses without a persistent match. */
  lemma FinishedDecides<V>(arg: Argument<V>, env: Environment<V>)
    requires ConflateOutcomeOf(arg, env).Finished?
    ensures var args := ResolveArgs(arg, env.decode).value;
      var addrs := env.addresses(args.inAddress.value, ContextOf(args, env.fromInput));
      var actions := ConflateOutcomeOf(arg, env).actions;
      && args.inPersistent.Some? && args.inAddress.Some?
      && |actions| == |addrs|
      && forall i :: 0 <= i < |addrs| ==> (actions[i] == Create <==> env.lookup(addrs[i]) == [])
  {
  }

  /** `conflate(cx)`: resolves and checks the arguments, then collects each
      address's persistent matches into a fresh vector and compares. The
      persistent table's import and the database connection are not part
      of this model. */
  method Conflate<V>(arg: Argument<V>, env: Environment<V>) returns (out: ConflateOutcome)
    ensures out == ConflateOutcomeOf(arg, env)
  {
    var resolved := ResolveArgs(arg, env.decode);
    if resolved.Err? {
      return Thrown(resolved.error);
    }
    var args := resolved.value;
    if args.inPersistent.None? {
      return Panicked(InPersistentRequired);
    } else if args.inAddress.None? {
      return Panicked(InAddressRequired);
    }
    var context := ContextOf(args, env.fromInput);
    var addrs := env.addresses(args.inAddress.value, context);
    var actions: seq<Action> := [];
    var k := 0;
    while k < |addrs|
      invariant 0 <= k <= |addrs|
      invariant actions == Decisions(addrs[..k], env.lookup)
    {
      var rows := env.lookup(addrs[k]);
      var persistents := new AddressVec();
      var j := 0;
      while j < |rows|
        invariant 0 <= j <= |rows|
        invariant persistents.items == rows[..j]
      {
        persistents.Push(rows[j]);
        j := j + 1;
      }
      assert rows[..j] == rows;
      var action := Compare(addrs[k], persistents);
      assert addrs[..k + 1][..k] == addrs[..k];
      actions := actions + [action];
      k := k + 1;
    }
    assert addrs[..k] == addrs;
    return Finished(context, actions);
  }
}
