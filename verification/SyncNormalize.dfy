/** Validation and normalisation of provider service rows, whose texts are already cleaned. */
module SyncNormalize {
  import opened Results
  import opened Rounding

  const MAX_RATE_PER_1000 := 10000000.0
  const MAX_EXTERNAL_ID_LEN := 24

  datatype ServiceType = DefaultType | CommentsType | MentionsType | Unsupported

  predicate Supported(t: ServiceType) {
    t != Unsupported
  }

  /** A row as the provider sent it; a number that is missing, malformed or not finite is `None`. */
  datatype UpstreamRow = UpstreamRow(
    externalId: string,
    name: string,
    category: string,
    rate: Option<real>,
    minQty: Option<real>,
    maxQty: Option<real>,
    rawType: string,
    refill: bool,
    cancel: bool
  )

  datatype Row = Row(
    externalId: string,
    name: string,
    category: string,
    rate: int,
    minQty: int,
    maxQty: int,
    serviceType: ServiceType,
    refill: bool,
    cancel: bool
  )

  predicate IdChar(c: char) {
    'A' <= c <= 'Z' || 'a' <= c <= 'z' || '0' <= c <= '9' || c in {'_', '.', '-'}
  }

  predicate ValidId(id: string) {
    0 < |id| <= MAX_EXTERNAL_ID_LEN && forall i | 0 <= i < |id| :: IdChar(id[i])
  }

  /** Lower case, with underscores read as spaces. */
  function Label(text: string): string {
    if text == [] then []
    else
      var c := text[|text| - 1];
      Label(text[..|text| - 1]) + [if 'A' <= c <= 'Z' then (c as int + 32) as char else if c == '_' then ' ' else c]
  }

  function MapServiceType(raw: string): ServiceType {
    var words := Label(raw);
    if words in {"", "default"} then DefaultType
    else if words == "custom comments" then CommentsType
    else if words in {"mentions custom list", "custom mentions"} then MentionsType
    else Unsupported
  }

  /** A clean row, or nothing when the provider's row must be rejected. */
  function NormalizeService(u: UpstreamRow, fx: real): Option<Row> {
    if !ValidId(u.externalId) || u.name == "" then None
    else if u.rate.None? || u.minQty.None? || u.maxQty.None? then None
    else
      var lo, hi := Truncate(u.minQty.value), Truncate(u.maxQty.value);
      if u.rate.value < 0.0 || u.rate.value > MAX_RATE_PER_1000 || fx <= 0.0 || fx > 10000.0 then None
      else if lo < 1 || hi < lo || hi > 1000000000 then None
      else
        var paise := RoundHalfEven(u.rate.value * fx * 100.0);
        if paise <= 0 then None
        else
          Some(Row(u.externalId, u.name, if u.category == "" then "Other" else u.category, paise, lo, hi,
                   MapServiceType(u.rawType), u.refill, u.cancel))
  }

  /** An answer too odd to be taken over: the services stay as they were. */
  predicate LooksMalformed(previous: int, valid: int, invalid: int) {
    var total := valid + invalid;
    || valid == 0
    || (total >= 10 && 10 * invalid > 3 * total)
    || (previous >= 20 && 2 * valid < previous)
  }

  /**
   * An accepted row is safe to sell: bounded quantities, a positive price within half a paisa of
   * the converted rate, and so no free or absurdly priced service.
   */
  lemma AcceptedRowIsSane(u: UpstreamRow, fx: real)
    requires NormalizeService(u, fx).Some?
    ensures var n := NormalizeService(u, fx).value;
            && ValidId(n.externalId) && n.name != "" && n.category != ""
            && 1 <= n.minQty <= n.maxQty <= 1000000000
            && 1 <= n.rate <= 10000000000000
            && u.rate.value * fx * 100.0 - 0.5 <= n.rate as real <= u.rate.value * fx * 100.0 + 0.5
  {
    RoundsToNearest(u.rate.value * fx * 100.0);
    RateBound(u.rate.value, fx);
  }

  lemma {:induction false} RateBound(rate: real, fx: real)
    requires 0.0 <= rate <= MAX_RATE_PER_1000 && 0.0 < fx <= 10000.0
    ensures rate * fx * 100.0 <= 10000000000000.0
  {
    assert rate * fx <= MAX_RATE_PER_1000 * fx <= MAX_RATE_PER_1000 * 10000.0;
  }
}
