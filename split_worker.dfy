/** The message handler of the split worker in lib/map/split.js. An
    initialising message opens the database pool and builds the `Split`; an
    array message is a batch of network cluster ids, each read from the
    database into a `SplitFeat` and split; an `end` message closes the pool.
    The database enters as a function from cluster id to the row `from_id`
    reads, and the reply is returned instead of sent to the parent process. */
module SplitWorker {
  import opened JsSemantics
  import opened SplitFeature
  import opened SegmentMatcher
  import opened MapSplit

  /** The row `from_id` reads for one network cluster; `address_props` is
      `json_agg`, which is null when the cluster has no address. */
  datatype FeatRow = FeatRow(name: Option<seq<Name>>, addressProps: Option<seq<RawRecord>>,
                             network: Option<seq<Line>>, address: Option<seq<Point>>)

  /** `query` is the row for a cluster id (`None` when there is none) or the
      query's error message; `afterEnd` is the error an ended pool reports. */
  datatype Database = Database(query: int -> Result<Option<FeatRow>, string>, afterEnd: string)

  datatype PoolState = NoPool | Open(config: string) | Ended(config: string)

  /** An array message holds the cluster ids (`None` for null); any other
      message has a `type` (absent as `None`), the worker options and the
      pool configuration. */
  datatype Message = Batch(ids: seq<Option<int>>) | Control(kind: Option<string>, options: SplitOptions, pool: string)

  /** `{ id, error, jobs }` after a batch (`error: false` as `None`), and
      `{ type, id, jobs: 0 }` after any other message (`type: false` as `None`). */
  datatype Reply = BatchReply(id: int, error: Option<string>, jobs: nat) | ControlReply(kind: Option<string>, id: int, jobs: nat)

  /** Why the worker process dies with an uncaught exception. */
  datatype Crash =
    | NotInitialized      // `split` or `pool` is still undefined
    | NoRow               // `res.rows[0]` is undefined
    | PropsNotIterable    // `for (let prop of null)`
    | Thrown(message: string) // the `SplitFeat` constructor threw
    | MissingRecord       // a point whose id has no property record

  datatype Outcome = Replied(reply: Reply) | Crashed(reason: Crash)

  datatype JobStatus = Done | Failed(message: string) | Died(reason: Crash)

  /** `if (!nid) continue`: null and 0 are not processed. */
  predicate IsTruthy(id: Option<int>) {
    id.Some? && id.value != 0
  }

  /** The ids a batch processes, in message order. */
  function ProcessedIds(ids: seq<Option<int>>): (r: seq<int>)
    ensures |r| <= |ids|
    ensures forall k :: 0 <= k < |r| ==> r[k] != 0 && Some(r[k]) in ids
    ensures forall k :: 0 <= k < |ids| && IsTruthy(ids[k]) ==> ids[k].value in r
  {
    if ids == [] then []
    else
      var n := |ids| - 1;
      ProcessedIds(ids[..n]) + (if IsTruthy(ids[n]) then [ids[n].value] else [])
  }

  /** The `lookup` object of `from_id`: a record per id, later records
      replacing earlier ones with the same id. */
  function LookupOf(records: seq<RawRecord>): (m: map<int, RawRecord>)
    ensures forall k :: k in m <==> exists i :: 0 <= i < |records| && records[i].id == k
    ensures forall k :: k in m ==> m[k].id == k
    ensures records != [] ==> m[records[|records| - 1].id] == records[|records| - 1]
  {
    if records == [] then map[]
    else
      var n := |records| - 1;
      var m := LookupOf(records[..n]);
      assert forall i :: 0 <= i < n ==> records[..n][i] == records[i];
      m[records[n].id := records[n]]
  }

  /** A record no later record shares its id with is the one the lookup
      keeps: later records replace earlier ones. */
  lemma {:induction false} LookupLastWins(records: seq<RawRecord>, i: nat)
    requires i < |records|
    requires forall j :: i < j < |records| ==> records[j].id != records[i].id
    ensures LookupOf(records)[records[i].id] == records[i]
  {
    var n := |records| - 1;
    if i < n {
      assert records[..n][i] == records[i];
      LookupLastWins(records[..n], i);
    }
  }

  /** `Object.keys(lookup)`, with repeats. */
  function IdsOf(records: seq<RawRecord>): (r: seq<int>)
    ensures |r| == |records|
    ensures forall i :: 0 <= i < |records| ==> r[i] == records[i].id
  {
    seq(|records|, i requires 0 <= i < |records| => records[i].id)
  }

  /** What happens to one cluster once the worker is initialised. */
  function JobStatusOf(pool: PoolState, db: Database, nid: int): (s: JobStatus)
    requires !pool.NoPool?
    ensures pool.Ended? ==> s == Failed(db.afterEnd)
    ensures s.Failed? && !pool.Ended? ==> db.query(nid) == Err(s.message)
    ensures s == Done ==> !pool.Ended? && db.query(nid).Ok? && db.query(nid).value.Some?
  {
    if pool.Ended? then Failed(db.afterEnd)
    else match db.query(nid)
      case Err(e) => Failed(e)
      case Ok(None) => Died(NoRow)
      case Ok(Some(row)) => RowStatus(row)
  }

  /** A row becomes a `SplitFeat` and is split, or the process dies. A
      cluster without a display name is skipped before any record is read,
      so a point without a record only kills the worker otherwise. */
  function RowStatus(row: FeatRow): (s: JobStatus)
    ensures !s.Failed?
    ensures s == Done <==>
      && row.addressProps.Some? && row.name.Some? && row.network.Some? && row.address.Some?
      && (HasDisplayName(row.name.value) ==>
            forall i :: 0 <= i < |row.address.value| ==> row.address.value[i].key in LookupOf(row.addressProps.value))
  {
    if row.addressProps.None? then Died(PropsNotIterable)
    else
      var lookup := LookupOf(row.addressProps.value);
      match CheckArgs(row.name, Some(lookup), row.network, row.address)
      case Some(e) => Died(Thrown(ArgErrorMessage(e)))
      case None =>
        if !HasDisplayName(row.name.value) then Done
        else if forall i :: 0 <= i < |row.address.value| ==> row.address.value[i].key in lookup then Done
        else Died(MissingRecord)
  }

  /** A complete row whose displays are all blank finishes without reading
      its records, even when a point has none. */
  lemma UnnamedClusterFinishes(row: FeatRow)
    requires row.addressProps.Some? && row.name.Some? && row.network.Some? && row.address.Some?
    requires !HasDisplayName(row.name.value)
    ensures RowStatus(row) == Done
  {
    var lookup := LookupOf(row.addressProps.value);
    assert CheckArgs(row.name, Some(lookup), row.network, row.address).None?;
  }

  /** The first job, in message order, whose cluster kills the worker. */
  function FirstCrash(pool: PoolState, db: Database, nids: seq<int>): (r: Option<Crash>)
    requires !pool.NoPool?
    ensures r.None? <==> forall k :: 0 <= k < |nids| ==> !JobStatusOf(pool, db, nids[k]).Died?
    ensures r.Some? ==> exists k :: 0 <= k < |nids| && JobStatusOf(pool, db, nids[k]) == Died(r.value)
  {
    if nids == [] then None
    else match JobStatusOf(pool, db, nids[0])
      case Died(c) => Some(c)
      case _ =>
        var r := FirstCrash(pool, db, nids[1..]);
        assert forall k :: 1 <= k < |nids| ==> nids[k] == nids[1..][k - 1];
        r
  }

  /** The error the batch reports: the message of the first failed job. */
  function FirstFailure(pool: PoolState, db: Database, nids: seq<int>): (r: Option<string>)
    requires !pool.NoPool?
    ensures r.None? <==> forall k :: 0 <= k < |nids| ==> !JobStatusOf(pool, db, nids[k]).Failed?
    ensures r.Some? ==> exists k :: 0 <= k < |nids| && JobStatusOf(pool, db, nids[k]) == Failed(r.value)
  {
    if nids == [] then None
    else match JobStatusOf(pool, db, nids[0])
      case Failed(e) => Some(e)
      case _ =>
        var r := FirstFailure(pool, db, nids[1..]);
        assert forall k :: 1 <= k < |nids| ==> nids[k] == nids[1..][k - 1];
        r
  }

  /** The outcome of a batch: death before initialisation or on a cluster
      that kills the worker; otherwise a reply counting every entry of the
      message, nulls included. */
  function BatchOutcome(splitId: Option<int>, pool: PoolState, db: Database, ids: seq<Option<int>>): (out: Outcome)
    requires splitId.None? <==> pool.NoPool?
    ensures splitId.None? ==> out == Crashed(NotInitialized)
    ensures out.Replied? ==> out.reply.BatchReply? && out.reply.id == splitId.value && out.reply.jobs == |ids|
  {
    if splitId.None? then Crashed(NotInitialized)
    else
      var nids := ProcessedIds(ids);
      match FirstCrash(pool, db, nids)
      case Some(c) => Crashed(c)
      case None => Replied(BatchReply(splitId.value, FirstFailure(pool, db, nids), |ids|))
  }

  /** The reply's `error` is `false` exactly when no processed job failed,
      and otherwise the message of a job that did. */
  lemma BatchError(splitId: Option<int>, pool: PoolState, db: Database, ids: seq<Option<int>>)
    requires splitId.Some? && !pool.NoPool?
    requires BatchOutcome(splitId, pool, db, ids).Replied?
    ensures var e := BatchOutcome(splitId, pool, db, ids).reply.error;
      && (e.None? <==> forall k :: 0 <= k < |ids| && IsTruthy(ids[k]) ==> !JobStatusOf(pool, db, ids[k].value).Failed?)
      && (e.Some? ==> exists k :: 0 <= k < |ids| && IsTruthy(ids[k]) && JobStatusOf(pool, db, ids[k].value) == Failed(e.value))
  {
    var nids := ProcessedIds(ids);
    forall k | 0 <= k < |nids| ensures exists j :: 0 <= j < |ids| && IsTruthy(ids[j]) && ids[j].value == nids[k] {
      var j :| 0 <= j < |ids| && ids[j] == Some(nids[k]);
    }
    forall k | 0 <= k < |ids| && IsTruthy(ids[k]) ensures exists j :: 0 <= j < |nids| && nids[j] == ids[k].value {
      assert ids[k].value in nids;
    }
  }

  /** Once the pool is ended, a batch with an id to process reports the
      ended pool's error. */
  lemma EndedPoolFailsBatches(splitId: int, config: string, db: Database, ids: seq<Option<int>>, k: nat)
    requires k < |ids| && IsTruthy(ids[k])
    ensures BatchOutcome(Some(splitId), Ended(config), db, ids) == Replied(BatchReply(splitId, Some(db.afterEnd), |ids|))
  {
    var nids := ProcessedIds(ids);
    assert ids[k].value in nids;
  }

  /** `message.type || false`. */
  function ReplyKind(kind: Option<string>): (r: Option<string>)
    ensures r.Some? <==> kind.Some? && kind.value != ""
    ensures r.Some? ==> r == kind
  {
    if kind.Some? && kind.value != "" then kind else None
  }

  /** The lookup loop and `new SplitFeat` of `from_id` for a row that was
      found: the worker dies exactly as `RowStatus` says, and otherwise the
      new cluster has a record for every point whenever it has a display
      name. */
  method FeatOfRow(nid: int, row: FeatRow) returns (r: Result<SplitFeat, Crash>)
    ensures r.Err? <==> RowStatus(row).Died?
    ensures r.Err? ==> RowStatus(row) == Died(r.error)
    ensures r.Ok? ==> RowStatus(row) == Done
    ensures r.Ok? ==> fresh(r.value) && fresh(r.value.address) && r.value.id == nid
    ensures r.Ok? ==> HasDisplayName(r.value.name) ==> r.value.KeysResolve()
    ensures r.Ok? ==>
      && r.value.name == row.name.value && r.value.network == row.network.value
      && r.value.address[..] == row.address.value
      && r.value.props.Keys == LookupOf(row.addressProps.value).Keys
      && forall k :: k in r.value.props ==> r.value.props[k] == NormalizeRecord(LookupOf(row.addressProps.value)[k])
  {
    if row.addressProps.None? {
      return Err(PropsNotIterable);
    }
    var lookup := LookupOf(row.addressProps.value);
    var keys := IdsOf(row.addressProps.value);
    var made := NewSplitFeat(nid, row.name, Some(lookup), row.network, row.address, keys);
    if made.Err? {
      return Err(Thrown(ArgErrorMessage(made.error)));
    }
    var feat := made.value;
    if HasDisplayName(feat.name) && !feat.KeysResolve() {
      return Err(MissingRecord);
    }
    return Ok(feat);
  }

  /** What `split` gives for a found row: nothing for a cluster without a
      display name, otherwise the features written or returned. */
  predicate SplitOutputOf(stdout: bool, row: FeatRow, r: SplitResult)
    requires row.name.Some?
  {
    if !HasDisplayName(row.name.value) then r == Skipped
    else if stdout then r.Written? else r.Returned?
  }

  /** `from_id` followed by `split.split`: the status `JobStatusOf` states,
      and for a finished job what `split` produced: a cluster without a
      display name is skipped, any other is written or returned as the
      `stdout` option says. */
  method RunJob(split: Split, pool: PoolState, db: Database, geo: Geometry, c: Collaborators, nid: int)
    returns (status: JobStatus, output: Option<SplitResult>)
    requires !pool.NoPool?
    ensures status == JobStatusOf(pool, db, nid)
    ensures output.Some? <==> status == Done
    ensures status == Done ==> SplitOutputOf(split.stdout, db.query(nid).value.value, output.value)
  {
    output := None;
    if pool.Ended? {
      return Failed(db.afterEnd), None;
    }
    var q := db.query(nid);
    if q.Err? {
      return Failed(q.error), None;
    }
    if q.value.None? {
      return Died(NoRow), None;
    }
    var made := FeatOfRow(nid, q.value.value);
    if made.Err? {
      return Died(made.error), None;
    }
    var feat := made.value;
    var r := split.SplitCluster(feat, geo, c);
    return Done, Some(r);
  }

  class Worker {
    var split: Split?
    var pool: PoolState

    /** `split` and `pool` are set together by the first initialising message. */
    predicate Valid()
      reads this
    {
      split == null <==> pool.NoPool?
    }

    function SplitId(): Option<int>
      reads this, split
    {
      if split == null then None else Some(split.id)
    }

    /** The worker before any message: nothing initialised. */
    constructor ()
      ensures Valid() && split == null && pool == NoPool
    {
      split := null;
      pool := NoPool;
    }

    /** `process.on('message', ...)`. A batch leaves the state alone and
        replies as `BatchOutcome` states. `end` closes the pool, or kills
        the worker when it was never initialised. Any other message opens
        a pool and builds a new `Split` from the options. */
    method Handle(message: Message, db: Database, geo: Geometry, c: Collaborators) returns (out: Outcome)
      requires Valid()
      modifies this
      ensures Valid()
      ensures message.Batch? ==>
        && out == BatchOutcome(old(SplitId()), old(pool), db, message.ids)
        && split == old(split) && pool == old(pool)
      ensures message.Control? && message.kind == Some("end") ==>
        && split == old(split)
        && (old(pool).NoPool? ==> out == Crashed(NotInitialized) && pool == NoPool)
        && (!old(pool).NoPool? ==>
              && pool == Ended(old(pool).config)
              && out == Replied(ControlReply(Some("end"), old(split).id, 0)))
      ensures message.Control? && message.kind != Some("end") ==>
        && split != null && fresh(split)
        && split.id == message.options.id && split.country == message.options.country
        && split.stdout == (message.options.stdout.None? || message.options.stdout.value)
        && pool == Open(message.pool)
        && out == Replied(ControlReply(ReplyKind(message.kind), message.options.id, 0))
    {
      match message
      case Batch(ids) =>
        out := HandleBatch(ids, db, geo, c);
      case Control(kind, options, config) =>
        if kind == Some("end") {
          if pool.NoPool? {
            return Crashed(NotInitialized);
          }
          pool := Ended(pool.config);
          out := Replied(ControlReply(ReplyKind(kind), split.id, 0));
        } else {
          pool := Open(config);
          split := new Split(options);
          out := Replied(ControlReply(ReplyKind(kind), split.id, 0));
        }
    }

    /** The array branch: runs every truthy id in message order and replies
        with the count of entries and the first failure. */
    method HandleBatch(ids: seq<Option<int>>, db: Database, geo: Geometry, c: Collaborators) returns (out: Outcome)
      requires Valid()
      ensures out == BatchOutcome(SplitId(), pool, db, ids)
    {
      if split == null {
        return Crashed(NotInitialized);
      }
      var s, p := split, pool;
      var error: Option<string> := None;
      var k := 0;
      ghost var done: seq<int> := [];
      while k < |ids|
        invariant 0 <= k <= |ids|
        invariant done == ProcessedIds(ids[..k])
        invariant FirstCrash(p, db, done).None?
        invariant error == FirstFailure(p, db, done)
      {
        ProcessedStep(ids, k);
        if IsTruthy(ids[k]) {
          var status, _ := RunJob(s, p, db, geo, c, ids[k].value);
          BatchStep(p, db, done, ids[k].value, error);
          if status.Died? {
            CrashPrefix(p, db, done + [ids[k].value], ids, k + 1);
            return Crashed(status.reason);
          }
          if error.None? && status.Failed? {
            error := Some(status.message);
          }
          done := done + [ids[k].value];
        }
        k := k + 1;
      }
      assert ids[..k] == ids;
      out := Replied(BatchReply(s.id, error, |ids|));
    }
  }

  /** Appending a job extends the first-crash and first-failure scans. */
  lemma {:induction false} FirstAppend(pool: PoolState, db: Database, nids: seq<int>, nid: int)
    requires !pool.NoPool?
    ensures FirstCrash(pool, db, nids + [nid])
      == if FirstCrash(pool, db, nids).Some? then FirstCrash(pool, db, nids)
         else if JobStatusOf(pool, db, nid).Died? then Some(JobStatusOf(pool, db, nid).reason) else None
    ensures FirstFailure(pool, db, nids + [nid])
      == if FirstFailure(pool, db, nids).Some? then FirstFailure(pool, db, nids)
         else if JobStatusOf(pool, db, nid).Failed? then Some(JobStatusOf(pool, db, nid).message) else None
  {
    if nids != [] {
      assert (nids + [nid])[1..] == nids[1..] + [nid];
      FirstAppend(pool, db, nids[1..], nid);
    }
  }

  /** One more job of a batch without a crash so far: it either is the
      batch's first crash, or extends the first failure. */
  lemma BatchStep(pool: PoolState, db: Database, done: seq<int>, nid: int, error: Option<string>)
    requires !pool.NoPool?
    requires FirstCrash(pool, db, done).None? && error == FirstFailure(pool, db, done)
    ensures var s := JobStatusOf(pool, db, nid);
      && (s.Died? ==> FirstCrash(pool, db, done + [nid]) == Some(s.reason))
      && (!s.Died? ==> FirstCrash(pool, db, done + [nid]).None?)
      && FirstFailure(pool, db, done + [nid]) == (if error.None? && s.Failed? then Some(s.message) else error)
  {
    FirstAppend(pool, db, done, nid);
  }

  /** A crash among the first jobs is the crash of the whole batch. */
  lemma {:induction false} CrashPrefix(pool: PoolState, db: Database, done: seq<int>, ids: seq<Option<int>>, k: nat)
    requires !pool.NoPool?
    requires k <= |ids| && done == ProcessedIds(ids[..k])
    requires FirstCrash(pool, db, done).Some?
    ensures FirstCrash(pool, db, ProcessedIds(ids)) == FirstCrash(pool, db, done)
    decreases |ids| - k
  {
    if k < |ids| {
      var next := ProcessedIds(ids[..k + 1]);
      ProcessedStep(ids, k);
      CrashKept(pool, db, done, if IsTruthy(ids[k]) then [ids[k].value] else []);
      CrashPrefix(pool, db, next, ids, k + 1);
    } else {
      assert ids[..k] == ids;
    }
  }

  /** Jobs after the first crash do not change it. */
  lemma {:induction false} CrashKept(pool: PoolState, db: Database, done: seq<int>, more: seq<int>)
    requires !pool.NoPool?
    requires FirstCrash(pool, db, done).Some?
    ensures FirstCrash(pool, db, done + more) == FirstCrash(pool, db, done)
  {
    assert (done + more)[0] == done[0];
    if !JobStatusOf(pool, db, done[0]).Died? {
      assert (done + more)[1..] == done[1..] + more;
      CrashKept(pool, db, done[1..], more);
    }
  }

  /** One more id extends the processed list by that id when it is truthy. */
  lemma ProcessedStep(ids: seq<Option<int>>, k: nat)
    requires k < |ids|
    ensures ProcessedIds(ids[..k + 1])
      == ProcessedIds(ids[..k]) + (if IsTruthy(ids[k]) then [ids[k].value] else [])
  {
    assert ids[..k + 1][..k] == ids[..k];
  }
}
