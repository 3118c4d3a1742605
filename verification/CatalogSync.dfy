/**
 * The catalog of services and its synchronisation with a provider: a full upsert of the rows the
 * provider sent, and withdrawal of everything it no longer lists.
 */
module CatalogSync {
  import opened Results
  import opened Sums
  import opened SyncNormalize

  /** What tells services apart: which provider sells it, and under what id there. */
  datatype ServiceKey = ServiceKey(provider: string, external: string)

  datatype Service = Service(
    name: string,
    externalName: Option<string>,
    externalCategory: string,
    serviceType: ServiceType,
    rate: int,
    minQty: int,
    maxQty: int,
    active: bool,
    refillable: bool,
    cancelable: bool,
    removed: bool,
    syncedAt: int
  )

  datatype SyncStatus = SyncOk | SyncAborted | SyncError

  datatype Report = Report(
    status: SyncStatus,
    added: int,
    updated: int,
    removed: int,
    restored: int,
    settled: int,
    skippedInvalid: int,
    unsupportedNew: int
  )

  /** What the sync is told about the provider. */
  datatype Provider = Provider(id: string, fx: real, autoActivate: bool)

  /** A missing conversion rate counts as one. */
  function FxOf(p: Provider): real {
    if p.fx == 0.0 then 1.0 else p.fx
  }

  // ---------------------------------------------------------------- the provider's rows

  /** The valid rows by id; of several with one id, only the last counts. */
  function RowsOf(upstream: seq<UpstreamRow>, fx: real): map<string, Row> {
    if upstream == [] then map[]
    else
      var before := RowsOf(upstream[..|upstream| - 1], fx);
      match NormalizeService(upstream[|upstream| - 1], fx)
      case None => before
      case Some(n) => before[n.externalId := n]
  }

  function InvalidIn(fx: real): UpstreamRow -> int {
    (u: UpstreamRow) => if NormalizeService(u, fx).None? then 1 else 0
  }

  /** Row `j` is the last valid one for its id. */
  predicate LastFor(upstream: seq<UpstreamRow>, fx: real, j: nat, id: string)
    requires j < |upstream|
  {
    && NormalizeService(upstream[j], fx).Some? && upstream[j].externalId == id
    && forall k | j < k < |upstream| && upstream[k].externalId == id :: NormalizeService(upstream[k], fx).None?
  }

  lemma NormalizedId(u: UpstreamRow, fx: real)
    ensures NormalizeService(u, fx).Some? ==> NormalizeService(u, fx).value.externalId == u.externalId
  {
  }

  /** The rows taken over are exactly the last valid rows of their ids. */
  lemma {:induction false} RowsAreLastValid(upstream: seq<UpstreamRow>, fx: real, id: string)
    ensures id in RowsOf(upstream, fx) <==> exists j | 0 <= j < |upstream| :: LastFor(upstream, fx, j, id)
    ensures forall j | 0 <= j < |upstream| && LastFor(upstream, fx, j, id) ::
              id in RowsOf(upstream, fx) && NormalizeService(upstream[j], fx) == Some(RowsOf(upstream, fx)[id])
  {
    hide NormalizeService;
    if upstream != [] {
      var n := |upstream| - 1;
      RowsAreLastValid(upstream[..n], fx, id);
      NormalizedId(upstream[n], fx);
      LastForNext(upstream, fx, id);
      hide LastFor;
      if id in RowsOf(upstream, fx) && !LastFor(upstream, fx, n, id) {
        var j :| 0 <= j < n && LastFor(upstream[..n], fx, j, id);
        assert LastFor(upstream, fx, j, id);
      }
    }
  }

  lemma LastForNext(upstream: seq<UpstreamRow>, fx: real, id: string)
    requires upstream != []
    ensures var n := |upstream| - 1;
            && (LastFor(upstream, fx, n, id) <==>
                 NormalizeService(upstream[n], fx).Some? && upstream[n].externalId == id)
            && (forall j | 0 <= j < n :: LastFor(upstream, fx, j, id) <==>
                 !LastFor(upstream, fx, n, id) && LastFor(upstream[..n], fx, j, id))
  {
    hide NormalizeService;
    var n := |upstream| - 1;
    forall j | 0 <= j < n
      ensures LastFor(upstream, fx, j, id) <==> !LastFor(upstream, fx, n, id) && LastFor(upstream[..n], fx, j, id)
    {
      forall k | j < k < n ensures upstream[..n][k] == upstream[k] {}
      if LastFor(upstream, fx, j, id) {
        forall k | j < k < n && upstream[..n][k].externalId == id ensures NormalizeService(upstream[..n][k], fx).None? {
          assert upstream[k].externalId == id;
        }
      }
    }
  }

  // ---------------------------------------------------------------- one service

  /** A service seen for the first time; it may start active only if it can be rendered. */
  function NewService(n: Row, autoActivate: bool, now: int): Service {
    Service(n.name, Some(n.name), n.category, n.serviceType, n.rate, n.minQty, n.maxQty,
            autoActivate && Supported(n.serviceType), n.refill, n.cancel, false, now)
  }

  /** Something the buyer sees differs from the provider's row. */
  predicate Differs(svc: Service, n: Row) {
    || svc.removed || svc.rate != n.rate || svc.minQty != n.minQty || svc.maxQty != n.maxQty
    || svc.refillable != n.refill || svc.cancelable != n.cancel
    || svc.serviceType != n.serviceType || svc.externalName != Some(n.name)
  }

  /** A known service takes over the row; a name the operator edited stays. */
  function Refreshed(svc: Service, n: Row, now: int): Service {
    var name :=
      if svc.externalName != Some(n.name) && (svc.externalName.None? || svc.name == svc.externalName.value) then n.name
      else svc.name;
    var active := if svc.serviceType != n.serviceType && !Supported(n.serviceType) then false else svc.active;
    Service(name, Some(n.name), n.category, n.serviceType, n.rate, n.minQty, n.maxQty,
            active, n.refill, n.cancel, false, now)
  }

  function Withdrawn(svc: Service): Service {
    if svc.removed then svc else svc.(removed := true, active := false)
  }

  // ---------------------------------------------------------------- the whole catalog

  type Services = map<ServiceKey, Service>

  function Live(services: Services, provider: string): set<ServiceKey> {
    set k | k in services && k.provider == provider && !services[k].removed
  }

  function Imported(p: Provider, rows: map<string, Row>): set<ServiceKey> {
    set id | id in rows :: ServiceKey(p.id, id)
  }

  /** The catalog after a sync that is not aborted, service by service. */
  function Synced(services: Services, p: Provider, rows: map<string, Row>, now: int): Services {
    map k | k in services.Keys + Imported(p, rows) ::
      if k.provider != p.id then services[k]
      else if k.external !in rows then Withdrawn(services[k])
      else if k in services then Refreshed(services[k], rows[k.external], now)
      else NewService(rows[k.external], p.autoActivate, now)
  }

  /** The services that disappear from the provider's list. */
  function Leaving(services: Services, p: Provider, rows: map<string, Row>): set<ServiceKey> {
    set k | k in services && k.provider == p.id && k.external !in rows && !services[k].removed
  }

  function Joining(services: Services, p: Provider, rows: map<string, Row>): set<string> {
    set id | id in rows && ServiceKey(p.id, id) !in services
  }

  function Returning(services: Services, p: Provider, rows: map<string, Row>): set<string> {
    set id | id in rows && ServiceKey(p.id, id) in services && services[ServiceKey(p.id, id)].removed
  }

  function Changing(services: Services, p: Provider, rows: map<string, Row>): set<string> {
    set id | id in rows && ServiceKey(p.id, id) in services && Differs(services[ServiceKey(p.id, id)], rows[id])
  }

  function Settled(services: Services, p: Provider, rows: map<string, Row>): set<string> {
    set id | id in rows && ServiceKey(p.id, id) in services && !Differs(services[ServiceKey(p.id, id)], rows[id])
  }

  function Unrenderable(services: Services, p: Provider, rows: map<string, Row>): set<string> {
    set id | id in rows && ServiceKey(p.id, id) !in services && !Supported(rows[id].serviceType)
  }

  /** The outcome of one sync; without an answer the request failed. */
  function Sync(services: Services, p: Provider, answer: Option<seq<UpstreamRow>>, now: int): (Services, Report) {
    if answer.None? then (services, Report(SyncError, 0, 0, 0, 0, 0, 0, 0))
    else
      var rows := RowsOf(answer.value, FxOf(p));
      var invalid := Sum(answer.value, InvalidIn(FxOf(p)));
      if LooksMalformed(|Live(services, p.id)|, |rows|, invalid) then
        (services, Report(SyncAborted, 0, 0, 0, 0, 0, invalid, 0))
      else
        (Synced(services, p, rows, now),
         Report(SyncOk, |Joining(services, p, rows)|, |Changing(services, p, rows)|, |Leaving(services, p, rows)|,
                |Returning(services, p, rows)|, |Settled(services, p, rows)|, invalid,
                  |Unrenderable(services, p, rows)|))
  }

  // ---------------------------------------------------------------- what a sync guarantees

  /** The service offers exactly what the provider's row says. */
  predicate Matches(svc: Service, n: Row) {
    && !svc.removed && svc.rate == n.rate && svc.minQty == n.minQty && svc.maxQty == n.maxQty
    && svc.refillable == n.refill && svc.cancelable == n.cancel && svc.serviceType == n.serviceType
    && svc.externalName == Some(n.name) && svc.externalCategory == n.category
  }

  predicate Sellable(svc: Service) {
    svc.active
  }

  /** What can be sold can be rendered, and the provider still lists it. */
  predicate SafeToSell(svc: Service) {
    Sellable(svc) ==> Supported(svc.serviceType) && !svc.removed
  }

  ghost predicate AllSafe(services: Services) {
    forall k | k in services :: SafeToSell(services[k])
  }

  /** The catalog agrees with the provider's rows, and with nothing else of that provider. */
  ghost predicate Agrees(services: Services, p: Provider, rows: map<string, Row>) {
    && (forall id | id in rows :: ServiceKey(p.id, id) in services && Matches(services[ServiceKey(p.id, id)], rows[id]))
    && (forall k | k in services && k.provider == p.id && k.external !in rows :: services[k].removed)
  }

  lemma SyncedAgrees(services: Services, p: Provider, rows: map<string, Row>, now: int)
    ensures Agrees(Synced(services, p, rows, now), p, rows)
    ensures forall k | k in services :: k in Synced(services, p, rows, now)
    ensures forall k | k in services && k.provider != p.id :: Synced(services, p, rows, now)[k] == services[k]
    ensures forall k | k in Synced(services, p, rows, now) && k !in services :: k.provider == p.id && k.external in rows
  {
    var after := Synced(services, p, rows, now);
    forall id | id in rows ensures ServiceKey(p.id, id) in after && Matches(after[ServiceKey(p.id, id)], rows[id]) {
      assert ServiceKey(p.id, id) in Imported(p, rows);
    }
  }

  /**
   * After a full sync, every row the provider sent has a listed service with its price, limits,
   * capabilities, type and name; every other service of the provider is marked removed; services
   * of other providers are untouched; and nothing is added that the provider did not send.
   */
  lemma SyncAgreesWithUpstream(services: Services, p: Provider, answer: Option<seq<UpstreamRow>>, now: int)
    requires Sync(services, p, answer, now).1.status == SyncOk
    ensures answer.Some? && Agrees(Sync(services, p, answer, now).0, p, RowsOf(answer.value, FxOf(p)))
    ensures forall k | k in services :: k in Sync(services, p, answer, now).0
    ensures forall k | k in services && k.provider != p.id :: Sync(services, p, answer, now).0[k] == services[k]
    ensures forall k | k in Sync(services, p, answer, now).0 && k !in services ::
            k.provider == p.id && k.external in RowsOf(answer.value, FxOf(p))
  {
    hide RowsOf, Synced, Agrees, LooksMalformed, Sum;
    SyncedAgrees(services, p, RowsOf(answer.value, FxOf(p)), now);
  }

  /** A sync never makes a known service sellable, keeps edited names, and only a full one changes anything. */
  lemma SyncNeverActivates(services: Services, p: Provider, answer: Option<seq<UpstreamRow>>, now: int, k: ServiceKey)
    requires k in services
    ensures var (after, report) := Sync(services, p, answer, now);
            && k in after
            && (after[k].active ==> services[k].active)
            && (services[k].externalName.Some? && services[k].name != services[k].externalName.value ==>
                 after[k].name == services[k].name)
            && (report.status != SyncOk ==> after == services)
  {
  }

  lemma ImportedSize(p: Provider, rows: map<string, Row>)
    ensures |Imported(p, rows)| == |rows|
  {
    KeysOf(p, rows.Keys);
    assert Imported(p, rows) == set id | id in rows.Keys :: ServiceKey(p.id, id);
  }

  lemma {:induction false} KeysOf(p: Provider, ids: set<string>)
    ensures |set id | id in ids :: ServiceKey(p.id, id)| == |ids|
    decreases ids
  {
    if ids != {} {
      var id :| id in ids;
      KeysOf(p, ids - {id});
      assert (set x | x in ids :: ServiceKey(p.id, x)) == (set x | x in ids - {id} :: ServiceKey(p.id, x))
        + {ServiceKey(p.id, id)};
    }
  }

  /** The same services, last synchronised at another time. */
  predicate SameButTime(svc: Service, svc': Service) {
    svc' == svc.(syncedAt := svc'.syncedAt)
  }

  /**
   * Synchronising twice with the same provider answer is synchronising once: the second run is
   * not judged malformed, reports no change of any kind, and moves nothing but the timestamps.
   */
  lemma SyncIsIdempotent(services: Services, p: Provider, upstream: seq<UpstreamRow>, now: int, later: int)
    requires Sync(services, p, Some(upstream), now).1.status == SyncOk
    ensures var (once, first) := Sync(services, p, Some(upstream), now);
            var (twice, second) := Sync(once, p, Some(upstream), later);
            && second == Report(SyncOk, 0, 0, 0, 0, |RowsOf(upstream, FxOf(p))|, first.skippedInvalid, 0)
            && twice.Keys == once.Keys
            && forall k | k in once :: SameButTime(once[k], twice[k])
  {
    hide RowsOf, Synced, Agrees, Sum, SameButTime, Joining, Changing, Leaving, Returning, Settled, Unrenderable, Live,
      FxOf;
    var rows := RowsOf(upstream, FxOf(p));
    var once := Sync(services, p, Some(upstream), now).0;
    SyncAgreesWithUpstream(services, p, Some(upstream), now);
    assert once == Synced(services, p, rows, now);
    LiveAfterSync(services, p, rows, now);
    SecondSyncChangesNothing(once, p, rows, later);
  }

  lemma LiveAfterSync(services: Services, p: Provider, rows: map<string, Row>, now: int)
    ensures |Live(Synced(services, p, rows, now), p.id)| == |rows|
  {
    SyncedAgrees(services, p, rows, now);
    hide Synced;
    ImportedSize(p, rows);
    forall id | id in rows ensures ServiceKey(p.id, id) in Imported(p, rows) {}
    assert Live(Synced(services, p, rows, now), p.id) == Imported(p, rows);
  }

  lemma SecondSyncChangesNothing(services: Services, p: Provider, rows: map<string, Row>, later: int)
    requires Agrees(services, p, rows)
    ensures Joining(services, p, rows) == {} && Changing(services, p, rows) == {} && Leaving(services, p, rows) == {}
    ensures Returning(services, p, rows) == {} && Unrenderable(services, p, rows) == {}
    ensures |Settled(services, p, rows)| == |rows|
    ensures Synced(services, p, rows, later).Keys == services.Keys
    ensures forall k | k in services :: SameButTime(services[k], Synced(services, p, rows, later)[k])
  {
    NothingChanges(services, p, rows);
    hide Joining, Changing, Leaving, Returning, Unrenderable, Settled;
    assert Imported(p, rows) <= services.Keys;
    assert Synced(services, p, rows, later).Keys == services.Keys;
    forall k | k in services ensures SameButTime(services[k], Synced(services, p, rows, later)[k]) {
      RefreshedSame(services, p, rows, later, k);
    }
  }

  lemma NothingChanges(services: Services, p: Provider, rows: map<string, Row>)
    requires Agrees(services, p, rows)
    ensures Joining(services, p, rows) == {} && Changing(services, p, rows) == {} && Leaving(services, p, rows) == {}
    ensures Returning(services, p, rows) == {} && Unrenderable(services, p, rows) == {}
    ensures |Settled(services, p, rows)| == |rows|
  {
    assert Settled(services, p, rows) == rows.Keys;
  }

  lemma RefreshedSame(services: Services, p: Provider, rows: map<string, Row>, later: int, k: ServiceKey)
    requires Agrees(services, p, rows) && k in services
    ensures k in Synced(services, p, rows, later)
    ensures SameButTime(services[k], Synced(services, p, rows, later)[k])
  {
    assert k.provider == p.id && k.external in rows ==> k == ServiceKey(p.id, k.external);
  }

  // ---------------------------------------------------------------- every run of syncs and operator toggles

  /** An operator may sell only what is supported and still listed. */
  function Toggled(services: Services, chosen: set<ServiceKey>, active: bool): Services {
    map k | k in services ::
      if k !in chosen || (active && (!Supported(services[k].serviceType) || services[k].removed)) then services[k]
      else services[k].(active := active)
  }

  datatype CatalogCall =
    | SyncCall(provider: Provider, answer: Option<seq<UpstreamRow>>, now: int)
    | ToggleCall(chosen: set<ServiceKey>, active: bool)

  function Perform(services: Services, c: CatalogCall): Services {
    match c
    case SyncCall(p, answer, now) => Sync(services, p, answer, now).0
    case ToggleCall(chosen, active) => Toggled(services, chosen, active)
  }

  function PerformAll(services: Services, calls: seq<CatalogCall>): Services {
    if calls == [] then services else Perform(PerformAll(services, calls[..|calls| - 1]), calls[|calls| - 1])
  }

  lemma CallKeepsSafe(services: Services, c: CatalogCall)
    requires AllSafe(services)
    ensures AllSafe(Perform(services, c))
  {
    forall k | k in Perform(services, c) ensures SafeToSell(Perform(services, c)[k]) {
      assert k in services ==> SafeToSell(services[k]);
    }
  }

  /** Whatever providers answer and operators toggle, nothing becomes sellable that should not be. */
  lemma {:induction false} RunsKeepSafe(services: Services, calls: seq<CatalogCall>)
    requires AllSafe(services)
    ensures AllSafe(PerformAll(services, calls))
  {
    if calls != [] {
      RunsKeepSafe(services, calls[..|calls| - 1]);
      CallKeepsSafe(PerformAll(services, calls[..|calls| - 1]), calls[|calls| - 1]);
    }
  }

  // ---------------------------------------------------------------- the catalog object

  /** The ids of the rows, in the order they were first seen. */
  ghost predicate Lists(ids: seq<string>, rows: map<string, Row>) {
    && (forall i, j | 0 <= i < j < |ids| :: ids[i] != ids[j])
    && (forall i | 0 <= i < |ids| :: ids[i] in rows)
    && (forall id | id in rows :: id in ids)
  }

  class Catalog {
    var services: Services

    constructor ()
      ensures services == map[]
    {
      services := map[];
    }

    /** Keeps the last valid row of each id and counts the invalid ones. */
    static method Normalize(upstream: seq<UpstreamRow>, fx: real)
        returns (rows: map<string, Row>, ids: seq<string>, invalid: int)
      ensures rows == RowsOf(upstream, fx) && invalid == Sum(upstream, InvalidIn(fx)) && Lists(ids, rows)
    {
      rows, ids, invalid := map[], [], 0;
      var i := 0;
      while i < |upstream|
        invariant 0 <= i <= |upstream|
        invariant rows == RowsOf(upstream[..i], fx) && invalid == Sum(upstream[..i], InvalidIn(fx)) && Lists(ids, rows)
      {
        assert upstream[..i + 1][..i] == upstream[..i];
        var n := NormalizeService(upstream[i], fx);
        if n.None? {
          invalid := invalid + 1;
        } else {
          if n.value.externalId !in rows {
            ids := ids + [n.value.externalId];
          }
          rows := rows[n.value.externalId := n.value];
        }
        i := i + 1;
      }
      assert upstream[..|upstream|] == upstream;
    }

    /** Takes over price, limits and capabilities, noticing what changed. */
    static method RefreshTerms(known: Service, n: Row) returns (svc: Service, restored: bool, changed: bool)
      ensures svc == known.(removed := false, rate := n.rate, minQty := n.minQty, maxQty := n.maxQty,
                            refillable := n.refill, cancelable := n.cancel)
      ensures restored == known.removed
      ensures changed == (svc != known)
    {
      svc, restored, changed := known, false, false;
      if svc.removed {
        svc := svc.(removed := false);
        restored, changed := true, true;
      }
      if svc.rate != n.rate {
        svc := svc.(rate := n.rate);
        changed := true;
      }
      if svc.minQty != n.minQty || svc.maxQty != n.maxQty {
        svc := svc.(minQty := n.minQty, maxQty := n.maxQty);
        changed := true;
      }
      if svc.refillable != n.refill || svc.cancelable != n.cancel {
        svc := svc.(refillable := n.refill, cancelable := n.cancel);
        changed := true;
      }
    }

    /** Brings a known service up to date, field by field, and says what happened. */
    static method Refresh(known: Service, n: Row, now: int) returns (svc: Service, restored: bool, changed: bool)
      ensures svc == Refreshed(known, n, now) && restored == known.removed && changed == Differs(known, n)
    {
      svc, restored, changed := RefreshTerms(known, n);
      if svc.serviceType != n.serviceType {
        svc := svc.(serviceType := n.serviceType);
        changed := true;
        if !Supported(n.serviceType) && svc.active {
          svc := svc.(active := false);
        }
      }
      if svc.externalName != Some(n.name) {
        if svc.externalName.None? || svc.name == svc.externalName.value {
          svc := svc.(name := n.name);
        }
        svc := svc.(externalName := Some(n.name));
        changed := true;
      }
      svc := svc.(externalCategory := n.category, syncedAt := now);
    }

    /** The upsert loop: every row the provider sent, in order. */
    method UpsertAll(p: Provider, rows: map<string, Row>, ids: seq<string>, now: int)
      returns (added: int, updated: int, restored: int, settled: int, unsupportedNew: int)
      requires Lists(ids, rows)
      modifies this
      ensures Upserted(old(services), p, rows, now, ids, services)
      ensures added == Sum(ids, JoiningIn(old(services), p)) && updated == Sum(ids, ChangingIn(old(services), p, rows))
      ensures restored == Sum(ids, ReturningIn(old(services), p))
              && settled == Sum(ids, SettledIn(old(services), p, rows))
      ensures unsupportedNew == Sum(ids, UnrenderableIn(old(services), p, rows))
    {
      hide Refreshed, NewService, Differs, Upserted, Lists, Sum, Supported;
      ghost var before := services;
      added, updated, restored, settled, unsupportedNew := 0, 0, 0, 0, 0;
      UpsertedNone(before, p, rows, now);
      TalliesNone(before, p, rows);
      var i := 0;
      while i < |ids|
        invariant 0 <= i <= |ids|
        invariant Upserted(before, p, rows, now, ids[..i], services)
        invariant added == Sum(ids[..i], JoiningIn(before, p)) && updated == Sum(ids[..i], ChangingIn(before, p, rows))
        invariant restored == Sum(ids[..i], ReturningIn(before, p))
                  && settled == Sum(ids[..i], SettledIn(before, p, rows))
        invariant unsupportedNew == Sum(ids[..i], UnrenderableIn(before, p, rows))
      {
        ListedRow(ids, rows, i);
        var id := ids[i];
        var k, n := ServiceKey(p.id, id), rows[id];
        UpsertedNext(before, p, rows, now, ids, i, services);
        TalliesNext(before, p, rows, ids, i);
        if k !in services {
          services := services[k := NewService(n, p.autoActivate, now)];
          added := added + 1;
          if !Supported(n.serviceType) {
            unsupportedNew := unsupportedNew + 1;
          }
        } else {
          var svc, isRestored, isChanged := Refresh(services[k], n, now);
          services := services[k := svc];
          restored := restored + if isRestored then 1 else 0;
          if isChanged {
            updated := updated + 1;
          } else {
            settled := settled + 1;
          }
        }
        i := i + 1;
      }
      assert ids[..|ids|] == ids;
    }

    /** The removal loop: withdraws what the provider no longer lists. */
    method WithdrawMissing(p: Provider, rows: map<string, Row>, known: set<ServiceKey>) returns (removed: int)
      requires known <= services.Keys && Leaving(services, p, rows) <= known && forall k | k in known ::
               k.provider == p.id
      modifies this
      ensures WithdrawnFrom(old(services), p, rows, {}, services)
      ensures removed == |Leaving(old(services), p, rows)|
    {
      hide WithdrawnFrom, Leaving, Withdrawn;
      removed := 0;
      ghost var before := services;
      ghost var left: set<ServiceKey> := {};
      var todo := known;
      WithdrawnNone(before, p, rows, todo);
      while todo != {}
        invariant todo <= known && WithdrawnFrom(before, p, rows, todo, services)
        invariant left == Leaving(before, p, rows) - todo && removed == |left|
        decreases todo
      {
        var k :| k in todo;
        WithdrawnNext(before, p, rows, todo, services, k);
        var svc := services[k];
        if k.external !in rows && !svc.removed {
          services := services[k := svc.(removed := true, active := false)];
          removed := removed + 1;
          left := left + {k};
        }
        todo := todo - {k};
      }
      assert Leaving(before, p, rows) - todo == Leaving(before, p, rows);
    }

    /** Synchronises the catalog with a provider. */
    method SyncProvider(p: Provider, answer: Option<seq<UpstreamRow>>, now: int) returns (report: Report)
      modifies this
      ensures (services, report) == Sync(old(services), p, answer, now)
    {
      hide RowsOf, Synced, Upserted, WithdrawnFrom, Joining, Changing, Returning, Settled, Unrenderable, Lists,
        LooksMalformed;
      if answer.None? {
        return Report(SyncError, 0, 0, 0, 0, 0, 0, 0);
      }
      var rows, ids, invalid := Normalize(answer.value, FxOf(p));
      var previousLive := |Live(services, p.id)|;
      if LooksMalformed(previousLive, |rows|, invalid) {
        return Report(SyncAborted, 0, 0, 0, 0, 0, invalid, 0);
      }
      var known := set k | k in services && k.provider == p.id;
      ghost var before := services;
      var added, updated, restored, settled, unsupportedNew := UpsertAll(p, rows, ids, now);
      UpsertLeaves(before, p, rows, now, ids, services);
      ghost var upserted := services;
      var removed := WithdrawMissing(p, rows, known);
      BothLoopsSync(before, p, rows, now, ids, upserted, services);
      TalliesAreSizes(before, p, rows, ids);
      report := Report(SyncOk, added, updated, removed, restored, settled, invalid, unsupportedNew);
    }

    /** Sells or hides the chosen services. */
    method Toggle(chosen: set<ServiceKey>, active: bool)
      modifies this
      ensures services == Toggled(old(services), chosen, active)
    {
      ghost var before := services;
      var todo := chosen;
      while todo != {}
        invariant todo <= chosen && services.Keys == before.Keys
        invariant forall k | k in services ::
                  services[k] == if k in todo then before[k] else Toggled(before, chosen, active)[k]
        decreases todo
      {
        var k :| k in todo;
        if k in services && !(active && (!Supported(services[k].serviceType) || services[k].removed)) {
          services := services[k := services[k].(active := active)];
        }
        todo := todo - {k};
      }
    }
  }

  function JoiningIn(services: Services, p: Provider): string -> int {
    (id: string) => if ServiceKey(p.id, id) !in services then 1 else 0
  }

  function UnrenderableIn(services: Services, p: Provider, rows: map<string, Row>): string -> int {
    (id: string) => if id in rows && ServiceKey(p.id, id) !in services && !Supported(rows[id].serviceType) then 1 else 0
  }

  function ReturningIn(services: Services, p: Provider): string -> int {
    (id: string) => if ServiceKey(p.id, id) in services && services[ServiceKey(p.id, id)].removed then 1 else 0
  }

  function ChangingIn(services: Services, p: Provider, rows: map<string, Row>): string -> int {
    (id: string) =>
      if id in rows && ServiceKey(p.id, id) in services && Differs(services[ServiceKey(p.id, id)], rows[id]) then 1
        else 0
  }

  function SettledIn(services: Services, p: Provider, rows: map<string, Row>): string -> int {
    (id: string) =>
      if id in rows && ServiceKey(p.id, id) in services && !Differs(services[ServiceKey(p.id, id)], rows[id]) then 1
        else 0
  }

  lemma ListedRow(ids: seq<string>, rows: map<string, Row>, i: nat)
    requires Lists(ids, rows) && i < |ids|
    ensures ids[i] in rows
  {
  }

  lemma TalliesNone(services: Services, p: Provider, rows: map<string, Row>)
    ensures Sum([], JoiningIn(services, p)) == Sum([], ReturningIn(services, p))
            == Sum([], ChangingIn(services, p, rows)) == 0
    ensures Sum([], SettledIn(services, p, rows)) == Sum([], UnrenderableIn(services, p, rows)) == 0
  {
  }

  /** Each counter moves by what the next row is. */
  lemma TalliesNext(services: Services, p: Provider, rows: map<string, Row>, ids: seq<string>, i: nat)
    requires i < |ids|
    ensures Sum(ids[..i + 1], JoiningIn(services, p)) == Sum(ids[..i], JoiningIn(services, p))
            + JoiningIn(services, p)(ids[i])
    ensures Sum(ids[..i + 1], ReturningIn(services, p)) == Sum(ids[..i], ReturningIn(services, p))
            + ReturningIn(services, p)(ids[i])
    ensures Sum(ids[..i + 1], ChangingIn(services, p, rows)) == Sum(ids[..i], ChangingIn(services, p, rows))
            + ChangingIn(services, p, rows)(ids[i])
    ensures Sum(ids[..i + 1], SettledIn(services, p, rows)) == Sum(ids[..i], SettledIn(services, p, rows))
            + SettledIn(services, p, rows)(ids[i])
    ensures Sum(ids[..i + 1], UnrenderableIn(services, p, rows))
         == Sum(ids[..i], UnrenderableIn(services, p, rows)) + UnrenderableIn(services, p, rows)(ids[i])
  {
    hide Differs, JoiningIn, ReturningIn, ChangingIn, SettledIn, UnrenderableIn;
    assert ids[..i + 1][..i] == ids[..i];
  }

  /** Counting one per listed id is the size of the set that is counted. */
  lemma {:induction false} TallyIsSize(ids: seq<string>, f: string -> int, counted: set<string>)
    requires forall i, j | 0 <= i < j < |ids| :: ids[i] != ids[j]
    requires forall id | id in counted :: id in ids
    requires forall i | 0 <= i < |ids| :: f(ids[i]) == if ids[i] in counted then 1 else 0
    ensures Sum(ids, f) == |counted|
  {
    if ids == [] {
      assert counted == {};
    } else {
      var n := |ids| - 1;
      assert ids[n] !in ids[..n];
      TallyIsSize(ids[..n], f, counted - {ids[n]});
    }
  }

  lemma TalliesAreSizes(services: Services, p: Provider, rows: map<string, Row>, ids: seq<string>)
    requires Lists(ids, rows)
    ensures Sum(ids, JoiningIn(services, p)) == |Joining(services, p, rows)|
    ensures Sum(ids, UnrenderableIn(services, p, rows)) == |Unrenderable(services, p, rows)|
    ensures Sum(ids, ReturningIn(services, p)) == |Returning(services, p, rows)|
    ensures Sum(ids, ChangingIn(services, p, rows)) == |Changing(services, p, rows)|
    ensures Sum(ids, SettledIn(services, p, rows)) == |Settled(services, p, rows)|
  {
    hide Sum, Differs;
    TallyIsSize(ids, JoiningIn(services, p), Joining(services, p, rows));
    TallyIsSize(ids, UnrenderableIn(services, p, rows), Unrenderable(services, p, rows));
    TallyIsSize(ids, ReturningIn(services, p), Returning(services, p, rows));
    TallyIsSize(ids, ChangingIn(services, p, rows), Changing(services, p, rows));
    TallyIsSize(ids, SettledIn(services, p, rows), Settled(services, p, rows));
  }

  /** The catalog once the listed rows were taken over. */
  ghost predicate Upserted(before: Services, p: Provider, rows: map<string, Row>, now: int, done: seq<string>,
      after: Services) {
    && (forall id | id in done :: id in rows && ServiceKey(p.id, id) in after)
    && (forall k | k in before :: k in after)
    && forall k | k in after ::
         if k.provider == p.id && k.external in done then
           k.external in rows && after[k] == (if k in before then Refreshed(before[k], rows[k.external], now)
                                              else NewService(rows[k.external], p.autoActivate, now))
         else k in before && after[k] == before[k]
  }

  lemma UpsertedNone(before: Services, p: Provider, rows: map<string, Row>, now: int)
    ensures Upserted(before, p, rows, now, [], before)
  {
  }

  /** The next row in line was not touched yet; taking it over extends the list. */
  lemma UpsertedNext(before: Services, p: Provider, rows: map<string, Row>, now: int, ids: seq<string>, i: nat,
      services: Services)
    requires Lists(ids, rows) && i < |ids| && Upserted(before, p, rows, now, ids[..i], services)
    ensures var k := ServiceKey(p.id, ids[i]);
            && (k in services <==> k in before)
            && (k in before ==> services[k] == before[k])
            && Upserted(before, p, rows, now, ids[..i + 1],
                        services[k := if k in before then Refreshed(before[k], rows[ids[i]], now)
                                      else NewService(rows[ids[i]], p.autoActivate, now)])
  {
    hide Refreshed, NewService;
    var id := ids[i];
    assert id in rows && id !in ids[..i];
    assert ids[..i + 1] == ids[..i] + [id];
    hide Lists;
    UpsertedOne(before, p, rows, now, ids[..i], id, services);
  }

  lemma UpsertedOne(before: Services, p: Provider, rows: map<string, Row>, now: int, done: seq<string>, id: string,
      services: Services)
    requires Upserted(before, p, rows, now, done, services) && id in rows && id !in done
    ensures var k := ServiceKey(p.id, id);
            && (k in services <==> k in before)
            && (k in before ==> services[k] == before[k])
            && Upserted(before, p, rows, now, done + [id],
                        services[k := if k in before then Refreshed(before[k], rows[id], now)
                                      else NewService(rows[id], p.autoActivate, now)])
  {
    hide Refreshed, NewService;
  }

  /** The catalog once every missing service outside `todo` was withdrawn. */
  ghost predicate WithdrawnFrom(before: Services, p: Provider, rows: map<string, Row>, todo: set<ServiceKey>,
      after: Services) {
    && after.Keys == before.Keys
    && forall k | k in after ::
         after[k] == if k in Leaving(before, p, rows) && k !in todo then Withdrawn(before[k]) else before[k]
  }

  lemma WithdrawnNone(before: Services, p: Provider, rows: map<string, Row>, known: set<ServiceKey>)
    requires Leaving(before, p, rows) <= known
    ensures WithdrawnFrom(before, p, rows, known, before) && Leaving(before, p, rows) - known == {}
  {
  }

  /** The next service in line is as it was; withdrawing it when it is missing shortens the list. */
  lemma WithdrawnNext(before: Services, p: Provider, rows: map<string, Row>, todo: set<ServiceKey>, services: Services,
      k: ServiceKey)
    requires WithdrawnFrom(before, p, rows, todo, services) && k in todo && k in before && k.provider == p.id
    ensures k in services && (k in Leaving(before, p, rows) <==> k.external !in rows && !services[k].removed)
    ensures WithdrawnFrom(before, p, rows, todo - {k},
                          if k in Leaving(before, p, rows)
                            then services[k := services[k].(removed := true, active := false)] else services)
  {
  }

  lemma UpsertLeaves(before: Services, p: Provider, rows: map<string, Row>, now: int, ids: seq<string>,
      services: Services)
    requires Lists(ids, rows) && Upserted(before, p, rows, now, ids, services)
    ensures Leaving(services, p, rows) == Leaving(before, p, rows)
    ensures forall k | k in before :: k in services
  {
    hide Refreshed, NewService;
  }

  /** Upserting what was sent and withdrawing what was not is the whole sync. */
  lemma BothLoopsSync(
    before: Services, p: Provider, rows: map<string, Row>, now: int, ids: seq<string>, upserted: Services,
    after: Services
  )
    requires Lists(ids, rows) && Upserted(before, p, rows, now, ids, upserted)
    requires WithdrawnFrom(upserted, p, rows, {}, after)
    requires Leaving(upserted, p, rows) == Leaving(before, p, rows)
    ensures after == Synced(before, p, rows, now)
  {
    SyncedKeys(before, p, rows, now, ids, upserted);
    hide Refreshed, NewService, Imported;
    forall k | k in after ensures after[k] == Synced(before, p, rows, now)[k] {
      ListedIds(ids, rows, k.external);
    }
  }

  lemma ListedIds(ids: seq<string>, rows: map<string, Row>, id: string)
    requires Lists(ids, rows)
    ensures id in ids <==> id in rows
  {
  }

  lemma SyncedKeys(before: Services, p: Provider, rows: map<string, Row>, now: int, ids: seq<string>,
      upserted: Services)
    requires Lists(ids, rows) && Upserted(before, p, rows, now, ids, upserted)
    ensures upserted.Keys == Synced(before, p, rows, now).Keys
  {
    hide Refreshed, NewService;
    forall k ensures k in upserted <==> k in before.Keys + Imported(p, rows) {
      if k in Imported(p, rows) { assert k.external in ids; }
    }
  }
}
