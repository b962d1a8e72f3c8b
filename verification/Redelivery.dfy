/** The ingress loop over the deliveries that one envelope makes, and what happens when the envelope comes again. */
module Redelivery {
  import opened Text
  import opened IdentityKeys
  import opened ArchiveFanOut
  import opened RuntimeStore
  import opened StoreHistory

  datatype Ingested = Ingested(t: Tables, accepted: nat, duplicates: nat, failed: bool)

  /** The first k deliveries; an error ends the loop. */
  ghost function Ingest(t: Tables, ds: seq<Delivery>, now: Time, k: nat): Ingested
    requires k <= |ds|
  {
    if k == 0 then Ingested(t, 0, 0, false)
    else
      var before := Ingest(t, ds, now, k - 1);
      if before.failed then before
      else
        var r := Accept(before.t, ds[k - 1], now);
        Counted(before, r.0, r.1)
  }

  function Counted(before: Ingested, t: Tables, r: Acceptance): Ingested {
    match r
    case Accepted(_) => before.(t := t, accepted := before.accepted + 1)
    case Duplicate(_) => before.(t := t, duplicates := before.duplicates + 1)
    case Refused => before.(t := t, failed := true)
  }

  lemma IngestOneMore(t: Tables, ds: seq<Delivery>, now: Time, k: nat, before: Ingested, after: Tables, r: Acceptance)
    requires k < |ds| && Ingest(t, ds, now, k) == before && !before.failed
    requires (after, r) == Accept(before.t, ds[k], now)
    ensures Ingest(t, ds, now, k + 1) == Counted(before, after, r)
  {
  }

  /** One turn of the loop, continuing a count. */
  method AcceptOne(store: Store, ghost t0: Tables, ds: seq<Delivery>, now: Time, k: nat, accepted: nat, duplicates: nat)
    returns (accepted': nat, duplicates': nat, failed: bool)
    requires k < |ds| && Unique(store.Contents())
    requires Ingest(t0, ds, now, k) == Ingested(store.Contents(), accepted, duplicates, false)
    modifies store
    ensures Unique(store.Contents())
    ensures Ingest(t0, ds, now, k + 1) == Ingested(store.Contents(), accepted', duplicates', failed)
  {
    ghost var before := Ingested(store.Contents(), accepted, duplicates, false);
    AcceptUnique(store.Contents(), ds[k], now);
    var r := store.AcceptInboundEvent(ds[k], now);
    IngestOneMore(t0, ds, now, k, before, store.Contents(), r);
    match r {
      case Accepted(_) => return accepted + 1, duplicates, false;
      case Duplicate(_) => return accepted, duplicates + 1, false;
      case Refused => return accepted, duplicates, true;
    }
  }

  /** The counting loop of accept. */
  method AcceptDeliveries(store: Store, ds: seq<Delivery>, now: Time)
    returns (accepted: nat, duplicates: nat, failed: bool)
    requires Unique(store.Contents())
    modifies store
    ensures Ingested(store.Contents(), accepted, duplicates, failed) == Ingest(old(store.Contents()), ds, now, |ds|)
  {
    accepted, duplicates, failed := 0, 0, false;
    for k := 0 to |ds|
      invariant Unique(store.Contents())
      invariant Ingested(store.Contents(), accepted, duplicates, false) == Ingest(old(store.Contents()), ds, now, k)
    {
      accepted, duplicates, failed := AcceptOne(store, old(store.Contents()), ds, now, k, accepted, duplicates);
      if failed {
        IngestStops(old(store.Contents()), ds, now, k + 1);
        return;
      }
    }
    failed := false;
  }

  lemma {:induction false} IngestStops(t: Tables, ds: seq<Delivery>, now: Time, k: nat)
    requires k <= |ds| && Ingest(t, ds, now, k).failed
    ensures Ingest(t, ds, now, |ds|) == Ingest(t, ds, now, k)
    decreases |ds| - k
  {
    if k < |ds| {
      IngestStops(t, ds, now, k + 1);
    }
  }

  predicate KeyedAs(t: Tables, d: Delivery) {
    HasExecution(t, d.execution.workspace, d.execution.key)
  }

  lemma AcceptLeavesKey(t: Tables, d: Delivery, now: Time)
    requires !Accept(t, d, now).1.Refused?
    ensures KeyedAs(Accept(t, d, now).0, d)
  {
    var t' := Accept(t, d, now).0;
    if Accept(t, d, now).1.Accepted? {
      assert Keyed(t'.executions[d.executionId], d.execution.workspace, d.execution.key);
    }
  }

  lemma KeysPersist(t: Tables, t': Tables, d: Delivery)
    requires Persist(t, t') && KeyedAs(t, d)
    ensures KeyedAs(t', d)
  {
    var id :| id in t.executions && Keyed(t.executions[id], d.execution.workspace, d.execution.key);
    assert Keyed(t'.executions[id], d.execution.workspace, d.execution.key);
  }

  /** A loop that got through has an execution for every delivery, counted as new or as duplicate. */
  lemma {:induction false} IngestedAll(t: Tables, ds: seq<Delivery>, now: Time, k: nat)
    requires k <= |ds| && !Ingest(t, ds, now, k).failed
    ensures var s := Ingest(t, ds, now, k);
      s.accepted + s.duplicates == k && forall i | 0 <= i < k :: KeyedAs(s.t, ds[i])
  {
    if k > 0 {
      IngestedAll(t, ds, now, k - 1);
      var before := Ingest(t, ds, now, k - 1).t;
      AcceptLeavesKey(before, ds[k - 1], now);
      PerformPersists(before, AcceptOp(ds[k - 1], now));
      forall i | 0 <= i < k - 1
        ensures KeyedAs(Ingest(t, ds, now, k).t, ds[i])
      {
        KeysPersist(before, Ingest(t, ds, now, k).t, ds[i]);
      }
    }
  }

  /** The second time every delivery gets identifiers of its own. */
  predicate FreshIds(t: Tables, ds: seq<Delivery>) {
    && (forall i | 0 <= i < |ds| :: ds[i].eventId !in t.events && ds[i].executionId !in t.executions)
    && (forall i, j | 0 <= i < j < |ds| :: ds[i].eventId != ds[j].eventId)
  }

  /** Only duplicates so far, and only events written. */
  predicate OnlyDuplicates(t: Tables, ds: seq<Delivery>, k: nat, s: Ingested) {
    && !s.failed && s.accepted == 0 && s.duplicates == k
    && s.t.executions == t.executions && s.t.jobs == t.jobs
    && (forall i | k <= i < |ds| :: ds[i].eventId !in s.t.events)
  }

  lemma OneMoreDuplicate(t: Tables, ds: seq<Delivery>, k: nat, before: Ingested, after: Tables, r: Acceptance)
    requires k < |ds| && FreshIds(t, ds) && OnlyDuplicates(t, ds, k, before)
    requires r.Duplicate? && after.executions == before.t.executions && after.jobs == before.t.jobs
    requires forall id | id in after.events :: id in before.t.events || id == ds[k].eventId
    ensures OnlyDuplicates(t, ds, k + 1, Counted(before, after, r))
  {
  }

  lemma {:induction false} AllDuplicates(t: Tables, ds: seq<Delivery>, now: Time, k: nat)
    requires k <= |ds| && FreshIds(t, ds)
    requires forall i | 0 <= i < |ds| :: InScope(ds[i]) && KeyedAs(t, ds[i])
    ensures OnlyDuplicates(t, ds, k, Ingest(t, ds, now, k))
  {
    if k > 0 {
      AllDuplicates(t, ds, now, k - 1);
      NextDuplicate(t, ds, now, k - 1, Ingest(t, ds, now, k - 1));
    }
  }

  lemma NextDuplicate(t: Tables, ds: seq<Delivery>, now: Time, k: nat, before: Ingested)
    requires k < |ds| && FreshIds(t, ds) && InScope(ds[k]) && KeyedAs(t, ds[k])
    requires before == Ingest(t, ds, now, k) && OnlyDuplicates(t, ds, k, before)
    ensures OnlyDuplicates(t, ds, k + 1, Ingest(t, ds, now, k + 1))
  {
    KeyedElsewhere(t, before.t, ds[k]);
    KeyedIsDuplicate(before.t, ds[k], now);
    var r := Accept(before.t, ds[k], now);
    IngestOneMore(t, ds, now, k, before, r.0, r.1);
    OneMoreDuplicate(t, ds, k, before, r.0, r.1);
  }

  lemma KeyedElsewhere(t: Tables, t': Tables, d: Delivery)
    requires KeyedAs(t, d) && t'.executions == t.executions
    ensures KeyedAs(t', d)
  {
  }

  lemma KeyedIsDuplicate(t: Tables, d: Delivery, now: Time)
    requires InScope(d) && KeyedAs(t, d) && d.eventId !in t.events && d.executionId !in t.executions
    ensures var r := Accept(t, d, now);
      && r.1.Duplicate? && r.0.executions == t.executions && r.0.jobs == t.jobs
      && forall id | id in r.0.events :: id in t.events || id == d.eventId
  {
  }

  /** The keys of the first time, and as many. */
  predicate SameKeys(ds: seq<Delivery>, again: seq<Delivery>) {
    |ds| == |again| && forall i | 0 <= i < |again| :: KeyIn(ds, again[i])
  }

  predicate KeyIn(ds: seq<Delivery>, d: Delivery) {
    exists j :: 0 <= j < |ds|
      && ds[j].execution.workspace == d.execution.workspace && ds[j].execution.key == d.execution.key
  }

  /** Delivering the same keys again, whatever has happened to the store since, accepts nothing, reports every
      earlier accepted or duplicate item as a duplicate, and queues no job. */
  lemma RedeliveryAcceptsNothing(
    t: Tables, ds: seq<Delivery>, now: Time, between: seq<Op>, again: seq<Delivery>, later: Time)
    requires !Ingest(t, ds, now, |ds|).failed && SameKeys(ds, again)
    requires FreshIds(After(Ingest(t, ds, now, |ds|).t, between), again)
    requires forall i | 0 <= i < |again| :: InScope(again[i])
    ensures var first := Ingest(t, ds, now, |ds|);
      var t' := After(first.t, between);
      var second := Ingest(t', again, later, |again|);
      && !second.failed && second.accepted == 0
      && second.duplicates == first.accepted + first.duplicates
      && second.t.executions == t'.executions && second.t.jobs == t'.jobs
  {
    var first := Ingest(t, ds, now, |ds|);
    IngestedAll(t, ds, now, |ds|);
    HistoryPersists(first.t, between);
    forall i | 0 <= i < |again|
      ensures KeyedAs(After(first.t, between), again[i])
    {
      var j :| 0 <= j < |ds| && ds[j].execution.workspace == again[i].execution.workspace
        && ds[j].execution.key == again[i].execution.key;
      KeysPersist(first.t, After(first.t, between), ds[j]);
    }
    AllDuplicates(After(first.t, between), again, later, |again|);
  }

  // ---------- From routes and envelope to deliveries ----------

  /** What one payload of an envelope contributes: its action, its delivery identifier and its body. */
  datatype Payload = Payload(action: IdentityKeys.Action, delivery: string, body: string)

  /** The identifiers made up for one item. */
  datatype Ids = Ids(event: Id, execution: Id, job: Id)

  /** The event, execution and job that accept builds for a route and a payload. */
  function DeliveryOf(hash: string -> string, route: RouteParts, payload: Payload, ids: Ids): Delivery {
    Delivery(
      ids.event,
      Event(EventKey(route.workspace, route.sourceInstance, route.sourceProject, route.behavior, route.behaviorVersion,
                     payload.delivery), route.connection, payload.body),
      ids.execution,
      Execution(route.workspace, route.connection, route.flow, route.version, "",
                IdempotencyKey(hash, route, Identity(payload.action)), Queued, NoAttention, None),
      ids.job, route.workspace, FLOW_EXECUTE, ids.execution)
  }

  function RouteDeliveries(
    hash: string -> string, route: RouteParts, payloads: seq<Payload>, ids: nat -> Ids): (ds: seq<Delivery>)
    ensures |ds| == |payloads|
  {
    if payloads == [] then []
    else
      var k := |payloads| - 1;
      RouteDeliveries(hash, route, payloads[..k], ids) + [DeliveryOf(hash, route, payloads[k], ids(k))]
  }

  /** The items of an envelope in the order of the two loops: every payload for every route. */
  function Items(
    hash: string -> string, routes: seq<RouteParts>, payloads: seq<Payload>, ids: (nat, nat) -> Ids): seq<Delivery>
  {
    if routes == [] then []
    else
      var k := |routes| - 1;
      Items(hash, routes[..k], payloads, ids) + RouteDeliveries(hash, routes[k], payloads, (i: nat) => ids(k, i))
  }

  // ---------- What the items hold ----------

  /** The event, the execution and the job of one item, field by field. */
  predicate Builds(hash: string -> string, route: RouteParts, payload: Payload, ids: Ids, d: Delivery) {
    && d.eventId == ids.event && d.executionId == ids.execution && d.jobId == ids.job
    && d.event.key.workspace == route.workspace && d.event.key.instance == route.sourceInstance
    && d.event.key.project == route.sourceProject && d.event.key.behavior == route.behavior
    && d.event.key.behaviorVersion == route.behaviorVersion && d.event.key.delivery == payload.delivery
    && d.event.connection == route.connection && d.event.payload == payload.body
    && d.execution.workspace == route.workspace && d.execution.connection == route.connection
    && d.execution.flow == route.flow && d.execution.version == route.version
    && d.execution.key == hash(Encode(KeyValues(route, Identity(payload.action))))
    && d.execution.status == ExecutionStatus.Queued && d.execution.attention == NoAttention
    && d.jobWorkspace == route.workspace && d.kind == "flow.execute" && d.jobExecution == ids.execution
  }

  lemma {:induction false} RouteDeliveryAt(
    hash: string -> string, route: RouteParts, payloads: seq<Payload>, ids: nat -> Ids, p: nat)
    requires p < |payloads|
    ensures Builds(hash, route, payloads[p], ids(p), RouteDeliveries(hash, route, payloads, ids)[p])
  {
    if p < |payloads| - 1 {
      RouteDeliveryAt(hash, route, payloads[..|payloads| - 1], ids, p);
    }
  }

  /** The place where the items of the route at k begin. */
  function Offset(payloads: seq<Payload>, k: nat): nat {
    if k == 0 then 0 else Offset(payloads, k - 1) + |payloads|
  }

  lemma {:induction false} ItemCount(
    hash: string -> string, routes: seq<RouteParts>, payloads: seq<Payload>, ids: (nat, nat) -> Ids)
    ensures |Items(hash, routes, payloads, ids)| == Offset(payloads, |routes|)
  {
    if routes != [] {
      ItemCount(hash, routes[..|routes| - 1], payloads, ids);
    }
  }

  /** Later routes only add items. */
  lemma {:induction false} ItemsGrow(
    hash: string -> string, routes: seq<RouteParts>, payloads: seq<Payload>, ids: (nat, nat) -> Ids, k: nat)
    requires k <= |routes|
    ensures Items(hash, routes[..k], payloads, ids) <= Items(hash, routes, payloads, ids)
  {
    if k < |routes| {
      assert routes[..|routes| - 1][..k] == routes[..k];
      ItemsGrow(hash, routes[..|routes| - 1], payloads, ids, k);
    } else {
      assert routes[..k] == routes;
    }
  }

  lemma ItemOfLast(
    hash: string -> string, routes: seq<RouteParts>, payloads: seq<Payload>, ids: (nat, nat) -> Ids, p: nat)
    requires routes != [] && p < |payloads|
    ensures var r, items := |routes| - 1, Items(hash, routes, payloads, ids);
      && |items| == Offset(payloads, r) + |payloads|
      && Builds(hash, routes[r], payloads[p], ids(r, p), items[Offset(payloads, r) + p])
  {
    hide Builds;
    var r := |routes| - 1;
    ItemCount(hash, routes[..r], payloads, ids);
    RouteDeliveryAt(hash, routes[r], payloads, (i: nat) => ids(r, i), p);
  }

  /** The items are every payload for every route, route by route. */
  lemma ItemAt(
    hash: string -> string, routes: seq<RouteParts>, payloads: seq<Payload>, ids: (nat, nat) -> Ids, r: nat, p: nat)
    requires r < |routes| && p < |payloads|
    ensures var items := Items(hash, routes, payloads, ids);
      && |items| == Offset(payloads, |routes|) && Offset(payloads, r) + p < |items|
      && Builds(hash, routes[r], payloads[p], ids(r, p), items[Offset(payloads, r) + p])
  {
    hide Builds, Items;
    ItemCount(hash, routes, payloads, ids);
    ItemOfLast(hash, routes[..r + 1], payloads, ids, p);
    ItemsGrow(hash, routes, payloads, ids, r + 1);
  }

  predicate KeyOfPayload(hash: string -> string, route: RouteParts, payloads: seq<Payload>, d: Delivery) {
    && InScope(d)
    && exists x | x in payloads ::
         d.execution.workspace == route.workspace && d.execution.key == IdempotencyKey(hash, route, Identity(x.action))
  }

  lemma {:induction false} RouteKeys(
    hash: string -> string, route: RouteParts, payloads: seq<Payload>, ids: nat -> Ids, d: Delivery)
    requires route.workspace != "" && d in RouteDeliveries(hash, route, payloads, ids)
    ensures KeyOfPayload(hash, route, payloads, d)
  {
    var k := |payloads| - 1;
    if d in RouteDeliveries(hash, route, payloads[..k], ids) {
      RouteKeys(hash, route, payloads[..k], ids, d);
    } else {
      assert payloads[k] in payloads;
    }
  }

  lemma {:induction false} RouteHasKey(
    hash: string -> string, route: RouteParts, payloads: seq<Payload>, ids: nat -> Ids, k: nat)
    requires k < |payloads|
    ensures DeliveryOf(hash, route, payloads[k], ids(k)) in RouteDeliveries(hash, route, payloads, ids)
  {
    if k < |payloads| - 1 {
      RouteHasKey(hash, route, payloads[..|payloads| - 1], ids, k);
    }
  }

  lemma KeyInMember(ds: seq<Delivery>, d: Delivery, x: Delivery)
    requires x in ds && x.execution.workspace == d.execution.workspace && x.execution.key == d.execution.key
    ensures KeyIn(ds, d)
  {
  }

  /** The same routes and payloads make the same keys, whatever identifiers are made up for the items and in whatever
      order the payloads come. */
  lemma {:induction false} SameItemKeys(
    hash: string -> string, routes: seq<RouteParts>, payloads: seq<Payload>, again: seq<Payload>,
    ids: (nat, nat) -> Ids, ids': (nat, nat) -> Ids)
    requires forall r | r in routes :: r.workspace != ""
    requires |payloads| == |again| && forall x | x in again :: x in payloads
    ensures SameKeys(Items(hash, routes, payloads, ids), Items(hash, routes, again, ids'))
    ensures forall d | d in Items(hash, routes, again, ids') :: InScope(d)
  {
    if routes != [] {
      var k := |routes| - 1;
      SameItemKeys(hash, routes[..k], payloads, again, ids, ids');
      var first, second := Items(hash, routes[..k], payloads, ids), Items(hash, routes[..k], again, ids');
      var ds := RouteDeliveries(hash, routes[k], payloads, (i: nat) => ids(k, i));
      var ds' := RouteDeliveries(hash, routes[k], again, (i: nat) => ids'(k, i));
      forall d | d in second + ds'
        ensures KeyIn(first + ds, d) && InScope(d)
      {
        ItemKey(hash, routes[k], payloads, again, (i: nat) => ids(k, i), (i: nat) => ids'(k, i), first, second, d);
      }
    }
  }

  lemma ItemKey(
    hash: string -> string, route: RouteParts, payloads: seq<Payload>, again: seq<Payload>, ids: nat -> Ids,
    ids': nat -> Ids,
    first: seq<Delivery>, second: seq<Delivery>, d: Delivery)
    requires route.workspace != "" && forall x | x in again :: x in payloads
    requires SameKeys(first, second) && forall x | x in second :: InScope(x)
    requires d in second + RouteDeliveries(hash, route, again, ids')
    ensures KeyIn(first + RouteDeliveries(hash, route, payloads, ids), d) && InScope(d)
  {
    var ds := RouteDeliveries(hash, route, payloads, ids);
    if d in second {
      var i :| 0 <= i < |second| && second[i] == d;
      assert KeyIn(first, second[i]);
      var j :| 0 <= j < |first| && first[j].execution.workspace == d.execution.workspace
        && first[j].execution.key == d.execution.key;
      KeyInMember(first + ds, d, first[j]);
    } else {
      RouteKeys(hash, route, again, ids', d);
      var x :| x in again && d.execution.key == IdempotencyKey(hash, route, Identity(x.action));
      var k :| 0 <= k < |payloads| && payloads[k] == x;
      RouteHasKey(hash, route, payloads, ids, k);
      KeyInMember(first + ds, d, DeliveryOf(hash, route, x, ids(k)));
    }
  }

  /** Redelivering an envelope with unchanged routes, whatever has happened to the store since, accepts nothing,
      reports every earlier accepted or duplicate item as a duplicate, and queues no job. */
  lemma EnvelopeRedelivered(
    t: Tables, hash: string -> string, routes: seq<RouteParts>, payloads: seq<Payload>, again: seq<Payload>,
    ids: (nat, nat) -> Ids, ids': (nat, nat) -> Ids, now: Time, between: seq<Op>, later: Time)
    requires forall r | r in routes :: r.workspace != ""
    requires |payloads| == |again| && forall x | x in again :: x in payloads
    requires var ds, ds' := Items(hash, routes, payloads, ids), Items(hash, routes, again, ids');
      !Ingest(t, ds, now, |ds|).failed && FreshIds(After(Ingest(t, ds, now, |ds|).t, between), ds')
    ensures var ds, ds' := Items(hash, routes, payloads, ids), Items(hash, routes, again, ids');
      var first := Ingest(t, ds, now, |ds|);
      var t' := After(first.t, between);
      var second := Ingest(t', ds', later, |ds'|);
      && !second.failed && second.accepted == 0
      && second.duplicates == first.accepted + first.duplicates
      && second.t.executions == t'.executions && second.t.jobs == t'.jobs
  {
    var ds, ds' := Items(hash, routes, payloads, ids), Items(hash, routes, again, ids');
    SameItemKeys(hash, routes, payloads, again, ids, ids');
    RedeliveryAcceptsNothing(t, ds, now, between, ds', later);
  }

  // ---------- The payloads of a push ----------

  function PushPayload(delivery: string, body: Trailer -> string, t: Trailer): Payload {
    Payload(PayloadAction(delivery, t), ArchiveDelivery(delivery, t.change), body(t))
  }

  function PushPayloads(delivery: string, body: Trailer -> string, trailers: seq<Trailer>): (ps: seq<Payload>)
    ensures |ps| == |trailers|
    ensures forall k | 0 <= k < |trailers| :: ps[k] == PushPayload(delivery, body, trailers[k])
  {
    seq(|trailers|, k requires 0 <= k < |trailers| => PushPayload(delivery, body, trailers[k]))
  }

  /** Each payload of a push carries its trailer's change, in its action as in its delivery identifier. */
  lemma PushPayloadAt(delivery: string, body: Trailer -> string, trailers: seq<Trailer>, k: nat)
    requires k < |trailers| && trailers[k].event == ARCHIVED && trailers[k].change != ""
    ensures var x, change := PushPayloads(delivery, body, trailers)[k], trailers[k].change;
      && Identity(x.action) == "lifecycle:archived:" + change
      && x.delivery == delivery + ":archived:" + change
      && x.body == body(trailers[k])
  {
    ArchiveTexts(delivery, trailers[k]);
  }

  lemma {:induction false} DistinctNoLonger(a: seq<Trailer>, b: seq<Trailer>)
    requires DistinctKeys(a) && forall t | t in a :: t in b
    ensures |a| <= |b|
  {
    if a != [] {
      var last, front := a[|a| - 1], a[..|a| - 1];
      assert last in b;
      var k :| 0 <= k < |b| && b[k] == last;
      var rest := b[..k] + b[k + 1..];
      forall t | t in front
        ensures t in rest
      {
        var i :| 0 <= i < |front| && front[i] == t;
        assert a[i] == t && !SameKey(a[i], a[|a| - 1]);
        assert t in b && t != b[k];
      }
      DistinctNoLonger(front, rest);
    }
  }

  /** The fan-out of a push is the same every time it is delivered. */
  lemma PushFansOutAlike(
    said: seq<Option<Trailer>>, first: seq<Trailer>, second: seq<Trailer>, delivery: string, body: Trailer -> string)
    requires FansOut(said, first) && FansOut(said, second)
    ensures var ps, qs := PushPayloads(delivery, body, first), PushPayloads(delivery, body, second);
      |ps| == |qs| && forall x | x in qs :: x in ps
  {
    DistinctNoLonger(first, second);
    DistinctNoLonger(second, first);
    var ps, qs := PushPayloads(delivery, body, first), PushPayloads(delivery, body, second);
    forall x | x in qs
      ensures x in ps
    {
      var i :| 0 <= i < |qs| && qs[i] == x;
      assert second[i] in first;
      var j :| 0 <= j < |first| && first[j] == second[i];
      assert ps[j] == x;
    }
  }
}
