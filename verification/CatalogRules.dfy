/**
 * What a catalog sync does, stated apart from how it goes through the rows: which rows are
 * accepted, when the whole answer is refused, and what becomes of each service and counter.
 */
module CatalogRules {
  import opened Results
  import opened Rounding
  import opened Sums
  import opened SyncNormalize
  import opened CatalogSync

  // ---------------------------------------------------------------- rows

  /** The character, read in lower case and with an underscore as a space. */
  predicate ReadsAs(c: char, d: char) {
    if 'A' <= c <= 'Z' then d as int == c as int + 32 else if c == '_' then d == ' ' else d == c
  }

  predicate Reads(raw: string, text: string) {
    |raw| == |text| && forall i | 0 <= i < |raw| :: ReadsAs(raw[i], text[i])
  }

  lemma {:induction false} LabelReads(raw: string, text: string)
    ensures Label(raw) == text <==> Reads(raw, text)
  {
    LabelLength(raw);
    if raw != [] && |text| == |raw| {
      var n := |raw| - 1;
      LabelReads(raw[..n], text[..n]);
      ReadsLast(raw, text);
      hide Reads;
      assert Label(raw)[..n] == Label(raw[..n]);
      assert text == text[..n] + [text[n]];
    }
  }

  lemma {:induction false} LabelLength(raw: string)
    ensures |Label(raw)| == |raw|
  {
    if raw != [] { LabelLength(raw[..|raw| - 1]); }
  }

  lemma ReadsLast(raw: string, text: string)
    requires raw != [] && |raw| == |text|
    ensures var n := |raw| - 1; Reads(raw, text) <==> Reads(raw[..n], text[..n]) && ReadsAs(raw[n], text[n])
  {
    var n := |raw| - 1;
    if Reads(raw[..n], text[..n]) && ReadsAs(raw[n], text[n]) {
      forall i | 0 <= i < |raw| ensures ReadsAs(raw[i], text[i]) {
        if i < n { assert ReadsAs(raw[..n][i], text[..n][i]); }
      }
    }
  }

  /** The five panel types that can be rendered, in any case and with spaces or underscores. */
  lemma TypesAre(raw: string)
    ensures MapServiceType(raw) == DefaultType <==> raw == "" || Reads(raw, "default")
    ensures MapServiceType(raw) == CommentsType <==> Reads(raw, "custom comments")
    ensures MapServiceType(raw) == MentionsType <==>
            Reads(raw, "mentions custom list") || Reads(raw, "custom mentions")
    ensures MapServiceType(raw) == Unsupported <==> !Supported(MapServiceType(raw))
  {
    LabelLength(raw);
    LabelReads(raw, "default");
    LabelReads(raw, "custom comments");
    LabelReads(raw, "mentions custom list");
    LabelReads(raw, "custom mentions");
    hide Reads, Label;
    assert |Label(raw)| == |raw|;
  }

  /** The whole part of a quantity that is at least one. */
  lemma WholePart(x: real)
    ensures Truncate(x) >= 1 <==> x >= 1.0
    ensures x >= 1.0 ==> Truncate(x) == x.Floor
  {
  }

  /** An id of 1 to 24 letters, digits, underscores, dots and dashes. */
  predicate GoodId(id: string) {
    && 1 <= |id| <= 24
    && forall i | 0 <= i < |id| ::
         'A' <= id[i] <= 'Z' || 'a' <= id[i] <= 'z' || '0' <= id[i] <= '9' || id[i] in {'_', '.', '-'}
  }

  /** A row that can be taken over. */
  predicate Acceptable(u: UpstreamRow, fx: real) {
    && GoodId(u.externalId) && u.name != ""
    && 0.0 < fx <= 10000.0
    && u.rate.Some? && 0.0 <= u.rate.value <= 10000000.0 && u.rate.value * fx * 100.0 > 0.5
    && u.minQty.Some? && u.maxQty.Some? && u.minQty.value >= 1.0
    && u.minQty.value.Floor <= u.maxQty.value.Floor <= 1000000000
  }

  /** A provider row is accepted exactly when it is acceptable, and then taken over as it reads. */
  lemma RowAnswers(u: UpstreamRow, fx: real)
    ensures NormalizeService(u, fx).Some? <==> Acceptable(u, fx)
    ensures NormalizeService(u, fx).Some? ==> TakesOver(u, fx, NormalizeService(u, fx).value)
  {
    assert ValidId(u.externalId) <==> GoodId(u.externalId);
    hide ValidId, GoodId, Truncate, MapServiceType, RoundHalfEven;
    if u.minQty.Some? { WholePart(u.minQty.value); }
    if u.maxQty.Some? { WholePart(u.maxQty.value); }
    if u.rate.Some? {
      RoundsToNearestEven(u.rate.value * fx * 100.0, RoundHalfEven(u.rate.value * fx * 100.0));
      PositiveWhenRounded(u.rate.value * fx * 100.0);
    }
    hide NearestEven;
  }

  lemma PositiveWhenRounded(x: real)
    ensures RoundHalfEven(x) > 0 <==> x > 0.5
  {
  }

  predicate TakesOver(u: UpstreamRow, fx: real, n: Row)
    requires u.rate.Some? && u.minQty.Some? && u.maxQty.Some?
  {
    && n.externalId == u.externalId && n.name == u.name
    && n.category == (if u.category == "" then "Other" else u.category)
    && n.minQty == u.minQty.value.Floor && n.maxQty == u.maxQty.value.Floor
    && NearestEven(u.rate.value * fx * 100.0, n.rate)
    && n.serviceType == MapServiceType(u.rawType) && n.refill == u.refill && n.cancel == u.cancel
  }

  // ---------------------------------------------------------------- refusing an answer

  function ValidIds(upstream: seq<UpstreamRow>, fx: real): set<string> {
    set j | 0 <= j < |upstream| && Acceptable(upstream[j], fx) :: upstream[j].externalId
  }

  function InvalidRows(upstream: seq<UpstreamRow>, fx: real): set<nat> {
    set j: nat | j < |upstream| && !Acceptable(upstream[j], fx)
  }

  lemma {:induction false} RowsAreValidIds(upstream: seq<UpstreamRow>, fx: real)
    ensures RowsOf(upstream, fx).Keys == ValidIds(upstream, fx)
  {
    if upstream == [] {
      assert ValidIds(upstream, fx) == {};
    } else {
      var n := |upstream| - 1;
      RowsAreValidIds(upstream[..n], fx);
      RowAnswers(upstream[n], fx);
      hide NormalizeService, Acceptable;
      ValidIdsNext(upstream, fx);
    }
  }

  lemma ValidIdsNext(upstream: seq<UpstreamRow>, fx: real)
    requires upstream != []
    ensures var n := |upstream| - 1;
            ValidIds(upstream, fx)
            == ValidIds(upstream[..n], fx) + if Acceptable(upstream[n], fx) then {upstream[n].externalId} else {}
  {
    hide Acceptable;
    var n := |upstream| - 1;
    forall id | id in ValidIds(upstream, fx)
      ensures id in ValidIds(upstream[..n], fx) || (Acceptable(upstream[n], fx) && id == upstream[n].externalId)
    {
      var j :| 0 <= j < |upstream| && Acceptable(upstream[j], fx) && upstream[j].externalId == id;
      if j < n { assert upstream[..n][j] == upstream[j]; }
    }
    forall id | id in ValidIds(upstream[..n], fx) ensures id in ValidIds(upstream, fx) {
      var j :| 0 <= j < n && Acceptable(upstream[..n][j], fx) && upstream[..n][j].externalId == id;
      assert upstream[j] == upstream[..n][j];
    }
  }

  lemma {:induction false} InvalidAreCounted(upstream: seq<UpstreamRow>, fx: real)
    ensures Sum(upstream, InvalidIn(fx)) == |InvalidRows(upstream, fx)|
  {
    if upstream == [] {
      assert InvalidRows(upstream, fx) == {};
    } else {
      var n := |upstream| - 1;
      InvalidAreCounted(upstream[..n], fx);
      RowAnswers(upstream[n], fx);
      hide NormalizeService, Acceptable;
      assert InvalidRows(upstream, fx)
        == InvalidRows(upstream[..n], fx) + if Acceptable(upstream[n], fx) then {} else {n};
    }
  }

  /** A provider without a conversion rate is priced in the shop's own currency. */
  function ConversionRate(p: Provider): real {
    if p.fx == 0.0 then 1.0 else p.fx
  }

  /** The services of a provider that are not marked removed. */
  function Listed(services: Services, provider: string): set<ServiceKey> {
    set k | k in services && k.provider == provider && !services[k].removed
  }

  /** No row is valid, or more than 30% of at least 10 are not, or fewer than half of at least 20 services are left. */
  predicate Odd(services: Services, p: Provider, upstream: seq<UpstreamRow>) {
    var valid, invalid := |ValidIds(upstream, ConversionRate(p))|, |InvalidRows(upstream, ConversionRate(p))|;
    || (forall j | 0 <= j < |upstream| :: !Acceptable(upstream[j], ConversionRate(p)))
    || (valid + invalid >= 10 && 100 * invalid > 30 * (valid + invalid))
    || (|Listed(services, p.id)| >= 20 && 2 * valid < |Listed(services, p.id)|)
  }

  lemma NoneValid(upstream: seq<UpstreamRow>, fx: real)
    ensures |ValidIds(upstream, fx)| == 0 <==> forall j | 0 <= j < |upstream| :: !Acceptable(upstream[j], fx)
  {
    hide Acceptable;
    if j: nat :| j < |upstream| && Acceptable(upstream[j], fx) {
      assert upstream[j].externalId in ValidIds(upstream, fx);
    }
  }

  /**
   * A sync fails exactly when the provider did not answer, and is aborted exactly when its answer
   * is odd; either way every service stays as it was. Only otherwise is it taken over.
   */
  lemma SyncAnswers(services: Services, p: Provider, answer: Option<seq<UpstreamRow>>, now: int)
    ensures var (after, report) := Sync(services, p, answer, now);
            && (report.status == SyncError <==> answer.None?)
            && (report.status == SyncAborted <==> answer.Some? && Odd(services, p, answer.value))
            && (report.status != SyncOk ==> after == services)
            && (answer.Some? ==> report.skippedInvalid == |InvalidRows(answer.value, ConversionRate(p))|)
  {
    if answer.Some? {
      RowsAreValidIds(answer.value, ConversionRate(p));
      InvalidAreCounted(answer.value, ConversionRate(p));
      NoneValid(answer.value, ConversionRate(p));
      var rows := RowsOf(answer.value, ConversionRate(p));
      assert |rows| == |rows.Keys|;
      assert Live(services, p.id) == Listed(services, p.id);
      hide RowsOf, ValidIds, InvalidRows, Acceptable, Live, Listed, Synced, Joining, Changing, Leaving, Returning,
        Settled, Unrenderable;
    }
  }

  /** A sync that goes through never loses more than half of a catalog of twenty services or more. */
  lemma OkSyncKeepsHalf(services: Services, p: Provider, answer: Option<seq<UpstreamRow>>, now: int)
    requires Sync(services, p, answer, now).1.status == SyncOk && |Listed(services, p.id)| >= 20
    ensures 2 * |Listed(Sync(services, p, answer, now).0, p.id)| >= |Listed(services, p.id)|
  {
    SyncAnswers(services, p, answer, now);
    RowsAreValidIds(answer.value, ConversionRate(p));
    var rows := RowsOf(answer.value, ConversionRate(p));
    assert |rows| == |rows.Keys|;
    assert Sync(services, p, answer, now).0 == Synced(services, p, rows, now);
    LiveAfterSync(services, p, rows, now);
    assert Live(Synced(services, p, rows, now), p.id) == Listed(Synced(services, p, rows, now), p.id);
    hide RowsOf, ValidIds, InvalidRows, Acceptable, Live, Synced, Sync;
  }

  // ---------------------------------------------------------------- what becomes of a service

  /** A listed service keeps a name the operator edited, and its place on sale unless it can no longer be rendered. */
  predicate Updates(before: Service, row: Row, now: int, after: Service) {
    && after.name == (if before.externalName.Some? && before.name != before.externalName.value then before.name
                      else if before.externalName == Some(row.name) then before.name else row.name)
    && (after.active <==> before.active && (row.serviceType == before.serviceType || row.serviceType != Unsupported))
    && Matches(after, row) && after.syncedAt == now
  }

  /**
   * A new service has the row's name and is on sale only if the provider's services start so and it can be
   * rendered.
   */
  predicate StartsAs(row: Row, autoActivate: bool, now: int, after: Service) {
    && after.name == row.name && (after.active <==> autoActivate && row.serviceType != Unsupported)
    && Matches(after, row) && after.syncedAt == now
  }

  lemma RefreshedUpdates(svc: Service, row: Row, now: int)
    ensures Updates(svc, row, now, Refreshed(svc, row, now))
  {
  }

  lemma NewStarts(row: Row, autoActivate: bool, now: int)
    ensures StartsAs(row, autoActivate, now, NewService(row, autoActivate, now))
  {
  }

  /** What a sync that goes through leaves of one service. */
  ghost predicate FollowsRow(services: Services, p: Provider, rows: map<string, Row>, now: int, after: Services,
      k: ServiceKey) {
    && (k in after <==> k in services || (k.provider == p.id && k.external in rows))
    && (k in after ==>
          if k.provider != p.id then after[k] == services[k]
          else if k.external in rows && k in services then Updates(services[k], rows[k.external], now, after[k])
          else if k.external in rows then StartsAs(rows[k.external], p.autoActivate, now, after[k])
          else if services[k].removed then after[k] == services[k]
          else after[k] == services[k].(removed := true, active := false))
  }

  lemma SyncedFollows(services: Services, p: Provider, rows: map<string, Row>, now: int, k: ServiceKey)
    ensures FollowsRow(services, p, rows, now, Synced(services, p, rows, now), k)
  {
    assert k in Imported(p, rows) <==> k.provider == p.id && k.external in rows by {
      if k.provider == p.id && k.external in rows { assert k == ServiceKey(p.id, k.external); }
    }
    if k.provider == p.id && k.external in rows {
      if k in services { RefreshedUpdates(services[k], rows[k.external], now); }
      NewStarts(rows[k.external], p.autoActivate, now);
    }
    hide Refreshed, NewService, Updates, StartsAs, Imported;
  }

  /** Every service after a sync that went through: its provider's row decides it, or that there is none. */
  lemma ServicesFollowRows(services: Services, p: Provider, answer: Option<seq<UpstreamRow>>, now: int, k: ServiceKey)
    requires Sync(services, p, answer, now).1.status == SyncOk
    ensures answer.Some?
    ensures FollowsRow(services, p, RowsOf(answer.value, ConversionRate(p)), now, Sync(services, p, answer, now).0, k)
  {
    hide RowsOf, LooksMalformed, Joining, Changing, Leaving, Returning, Settled, Unrenderable, Synced, FollowsRow;
    SyncedFollows(services, p, RowsOf(answer.value, ConversionRate(p)), now, k);
  }

  // ---------------------------------------------------------------- the report

  /** Nothing but the category and the time of the sync is different. */
  predicate AsBefore(before: Service, after: Service) {
    after == before.(externalCategory := after.externalCategory, syncedAt := after.syncedAt)
  }

  /**
   * The counters of a sync that went through, read off the catalog before and after it: services
   * that are new, that left, that came back, that were known before and are unchanged, all other
   * known ones that are listed, and new ones that cannot be rendered.
   */
  ghost predicate ReadsOff(services: Services, p: Provider, after: Services, report: Report) {
    var mine := Mine(p, after);
    && report.added == |set k | k in mine && k !in services|
    && report.removed == |set k | k in services && k in after && !services[k].removed && after[k].removed|
    && report.restored == |set k | k in mine && k in services && services[k].removed|
    && report.settled == |set k | k in mine && k in services && AsBefore(services[k], after[k])|
    && report.updated == |set k | k in mine && k in services && !AsBefore(services[k], after[k])|
    && report.unsupportedNew == |set k | k in mine && k !in services && after[k].serviceType == Unsupported|
  }

  lemma ReportCounts(services: Services, p: Provider, answer: Option<seq<UpstreamRow>>, now: int)
    requires Sync(services, p, answer, now).1.status == SyncOk
    ensures ReadsOff(services, p, Sync(services, p, answer, now).0, Sync(services, p, answer, now).1)
  {
    hide RowsOf, LooksMalformed, Follows, Synced, Joining, Changing, Leaving, Returning, Settled, Unrenderable,
      ReadsOff;
    var rows := RowsOf(answer.value, ConversionRate(p));
    SyncedFollowsAll(services, p, rows, now);
    CountsRead(services, p, rows, Synced(services, p, rows, now), Sync(services, p, answer, now).1.skippedInvalid);
  }

  lemma CountsRead(services: Services, p: Provider, rows: map<string, Row>, after: Services, invalid: int)
    requires Follows(services, p, rows, after)
    ensures ReadsOff(services, p, after,
            Report(SyncOk, |Joining(services, p, rows)|, |Changing(services, p, rows)|, |Leaving(services, p, rows)|,
              |Returning(services, p, rows)|, |Settled(services, p, rows)|, invalid, |Unrenderable(services, p, rows)|))
  {
    hide Follows, Joining, Changing, Leaving, Returning, Settled, Unrenderable, AsBefore;
    NewCount(services, p, rows, after);
    ReturnedCount(services, p, rows, after);
    ChangedCount(services, p, rows, after);
  }

  /** The keys of these ids, as many as there are ids. */
  function KeysFor(p: Provider, ids: set<string>): set<ServiceKey> {
    set id | id in ids :: ServiceKey(p.id, id)
  }

  lemma SameCount(p: Provider, ids: set<string>, keys: set<ServiceKey>)
    requires forall id | id in ids :: ServiceKey(p.id, id) in keys
    requires forall k | k in keys :: k.provider == p.id && k.external in ids
    ensures |ids| == |keys|
  {
    KeysOf(p, ids);
    forall k | k in keys ensures k in KeysFor(p, ids) { assert k == ServiceKey(p.id, k.external); }
    assert KeysFor(p, ids) == keys;
  }

  /** What the counters depend on: which services are listed, new, changed or removed. */
  ghost predicate Follows(services: Services, p: Provider, rows: map<string, Row>, after: Services) {
    && (forall k :: k in after <==> k in services || (k.provider == p.id && k.external in rows))
    && (forall k | k in after && k.provider != p.id :: after[k] == services[k])
    && (forall k | k in after && k.provider == p.id :: after[k].removed <==> k.external !in rows)
    && (forall k | k in services && k.provider == p.id && k.external in rows ::
          AsBefore(services[k], after[k]) <==> !Differs(services[k], rows[k.external]))
    && (forall k | k in after && k !in services :: after[k].serviceType == rows[k.external].serviceType)
  }

  lemma UpdateDiffers(svc: Service, row: Row, now: int, after: Service)
    requires Updates(svc, row, now, after)
    ensures AsBefore(svc, after) <==> !Differs(svc, row)
  {
  }

  lemma SyncedFollowsAll(services: Services, p: Provider, rows: map<string, Row>, now: int)
    ensures Follows(services, p, rows, Synced(services, p, rows, now))
  {
    hide Synced, AsBefore, Differs, Updates;
    var after := Synced(services, p, rows, now);
    forall k ensures FollowsRow(services, p, rows, now, after, k) { SyncedFollows(services, p, rows, now, k); }
    forall k | k in services && k.provider == p.id && k.external in rows
      ensures k in after && (AsBefore(services[k], after[k]) <==> !Differs(services[k], rows[k.external]))
      ensures !after[k].removed
    {
      assert FollowsRow(services, p, rows, now, after, k);
      UpdateDiffers(services[k], rows[k.external], now, after[k]);
      UpdatedIsListed(services[k], rows[k.external], now, after[k]);
    }
    forall k | k in after && k.provider == p.id
      ensures after[k].removed <==> k.external !in rows
    {
      assert FollowsRow(services, p, rows, now, after, k);
    }
    forall k | k in after && k !in services
      ensures k.external in rows && after[k].serviceType == rows[k.external].serviceType
    {
      assert FollowsRow(services, p, rows, now, after, k);
    }
    forall k ensures k in after <==> k in services || (k.provider == p.id && k.external in rows) {
      assert FollowsRow(services, p, rows, now, after, k);
    }
    forall k | k in after && k.provider != p.id ensures after[k] == services[k] {
      assert FollowsRow(services, p, rows, now, after, k);
    }
  }

  lemma UpdatedIsListed(svc: Service, row: Row, now: int, after: Service)
    requires Updates(svc, row, now, after)
    ensures !after.removed
  {
  }

  function Mine(p: Provider, after: Services): set<ServiceKey> {
    set k | k in after && k.provider == p.id && !after[k].removed
  }

  lemma NewCount(services: Services, p: Provider, rows: map<string, Row>, after: Services)
    requires Follows(services, p, rows, after)
    ensures |Joining(services, p, rows)| == |set k | k in Mine(p, after) && k !in services|
    ensures |Unrenderable(services, p, rows)|
         == |set k | k in Mine(p, after) && k !in services && after[k].serviceType == Unsupported|
  {
    hide AsBefore, Differs;
    SameCount(p, Joining(services, p, rows), set k | k in Mine(p, after) && k !in services);
    SameCount(p, Unrenderable(services, p, rows),
      set k | k in Mine(p, after) && k !in services && after[k].serviceType == Unsupported);
  }

  lemma ReturnedCount(services: Services, p: Provider, rows: map<string, Row>, after: Services)
    requires Follows(services, p, rows, after)
    ensures |Returning(services, p, rows)| == |set k | k in Mine(p, after) && k in services && services[k].removed|
    ensures |Leaving(services, p, rows)|
         == |set k | k in services && k in after && !services[k].removed && after[k].removed|
  {
    hide AsBefore, Differs;
    SameCount(p, Returning(services, p, rows), set k | k in Mine(p, after) && k in services && services[k].removed);
    assert Leaving(services, p, rows) == set k | k in services && k in after && !services[k].removed
      && after[k].removed;
  }

  lemma ChangedCount(services: Services, p: Provider, rows: map<string, Row>, after: Services)
    requires Follows(services, p, rows, after)
    ensures |Settled(services, p, rows)|
         == |set k | k in Mine(p, after) && k in services && AsBefore(services[k], after[k])|
    ensures |Changing(services, p, rows)|
         == |set k | k in Mine(p, after) && k in services && !AsBefore(services[k], after[k])|
  {
    hide AsBefore, Differs;
    SameCount(p, Settled(services, p, rows),
      set k | k in Mine(p, after) && k in services && AsBefore(services[k], after[k]));
    SameCount(p, Changing(services, p, rows),
      set k | k in Mine(p, after) && k in services && !AsBefore(services[k], after[k]));
  }

  // ---------------------------------------------------------------- the operator

  /** A toggle hides whatever is chosen, and shows of it what can be rendered and is still listed. */
  lemma ToggleAnswers(services: Services, chosen: set<ServiceKey>, active: bool, k: ServiceKey)
    requires k in services
    ensures var svc, after := services[k], Toggled(services, chosen, active);
            && after.Keys == services.Keys
            && after[k] == svc.(active :=
                 if k !in chosen then svc.active
                 else if active && (svc.serviceType == Unsupported || svc.removed) then svc.active
                 else active)
  {
  }
}
