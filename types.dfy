/**
 * The wire records of pkg/types/types.go and the presence rules their
 * `json:"...,omitempty"` tags impose. Each Encode function gives the object
 * encoding/json writes for a record (a map from key to value); the Decode
 * functions read such an object back the way encoding/json fills a zero
 * record, and the round-trip lemmas say exactly what the encoding forgets.
 */
module Types {
  import opened Wrappers
  import opened Wire

  /** Credentials and key-material paths, fixed once the transport client exists. */
  datatype Config = Config(
    rootCAPath: string,
    certPath: string,
    keyPath: string,
    user: string,
    password: string,
    appKey: string)

  datatype TimeRange = TimeRange(from: string, to: string)

  const ZeroTimeRange := TimeRange("", "")

  datatype PriceProjection = PriceProjection(priceData: Slice<string>)

  /** Market selection criteria. The named string types MarketBettingType and OrderStatus are plain strings here. */
  datatype MarketFilter = MarketFilter(
    textQuery: string,
    eventTypeIds: Slice<string>,
    eventIds: Slice<string>,
    competitionIds: Slice<string>,
    marketIds: Slice<string>,
    venues: Slice<string>,
    bspOnly: bool,
    turnInPlayEnabled: bool,
    inPlayOnly: bool,
    marketBettingTypes: Slice<string>,
    marketTypeCodes: Slice<string>,
    marketStartTime: Option<TimeRange>,
    marketCountries: Slice<string>,
    withOrders: Slice<string>,
    raceTypes: Slice<string>)

  const ZeroFilter := MarketFilter("", None, None, None, None, None, false, false, false, None, None, None, None, None, None)

  /** The string fields of an order; its sizes and prices are floats and are not modelled. */
  datatype LimitOrder = LimitOrder(persistanceType: string, timeInForce: string, betTargetType: string)

  /** One order instruction; its handicap is a float and is not modelled. */
  datatype PlaceInstruction = PlaceInstruction(orderType: string, selectionId: int, side: string, order: LimitOrder)

  /** The operation-specific bag of the list and book calls. */
  datatype MarketFilterParams = MarketFilterParams(
    granularity: string,
    maxResults: int,
    marketId: string,
    marketIds: Slice<string>,
    selectionId: int,
    marketProjection: Slice<string>,
    priceProjection: Option<PriceProjection>,
    orderProjection: string,
    matchProjection: string,
    dateRange: Option<TimeRange>)

  const ZeroMarketFilterParams := MarketFilterParams("", 0, "", None, 0, None, None, "", "", None)

  /** The bag of the place-order call (only its uses in the transport and facade fix its fields). */
  datatype PlaceInstructionParams = PlaceInstructionParams(
    marketID: string,
    customerRef: string,
    customerStrategyRef: string,
    instructions: Slice<PlaceInstruction>)

  /** The `params` member of a request: the declared fields plus those the transport assigns. */
  datatype Params = Params(
    filter: Option<MarketFilter>,
    granularity: Option<string>,
    maxResults: int,
    marketId: string,
    marketIds: Slice<string>,
    selectionId: int,
    priceProjection: Option<PriceProjection>,
    orderProjection: string,
    matchProjection: string,
    marketProjection: Slice<string>,
    locale: string,
    dateRange: TimeRange,
    customerRef: string,
    customerStrategyRef: string,
    instructions: Slice<PlaceInstruction>)

  const ZeroParams := Params(None, None, 0, "", None, 0, None, "", "", None, "", ZeroTimeRange, "", "", None)

  datatype JsonError = JsonError(code: int, message: string)

  /** The request envelope. */
  datatype JsonRPC = JsonRPC(jsonrpc: string, methodName: string, params: Params, id: int)

  /** The response envelope; `result` decodes into a `[]interface{}`, so it is nil or a list of values. */
  datatype JsonRPCResponse = JsonRPCResponse(jsonrpc: string, result: Slice<Json>, error: Option<JsonError>, id: int)

  /** The body of a successful login, and the session the transport keeps. */
  datatype Authenticate = Authenticate(sessionToken: string, loginStatus: string)

  const NoSession := Authenticate("", "")

  // Result records the facade decodes into (float-valued fields are not modelled).

  datatype Detail = Detail(id: string, name: string, countryCode: string, timeZone: string, openDate: string)
  datatype EventTypeWrapper = EventTypeWrapper(eventType: Option<Detail>, marketCount: int)
  datatype CompetitionWrapper = CompetitionWrapper(competition: Option<Detail>, marketCount: int, region: string)
  datatype RangeWrapper = RangeWrapper(range: Option<TimeRange>, marketCount: int)
  datatype EventWrapper = EventWrapper(event: Option<Detail>, marketCount: int)
  datatype MarketTypeWrapper = MarketTypeWrapper(marketType: string, marketCount: int)
  datatype CountryWrapper = CountryWrapper(country: string, marketCount: int)
  datatype VenueWrapper = VenueWrapper(venue: string, marketCount: int)
  datatype Selection = Selection(selectionId: int, name: string, ranking: int, metadata: map<string, string>)
  datatype MarketCatalogueWrapper = MarketCatalogueWrapper(marketId: string, marketName: string, selections: Slice<Selection>)
  datatype Runner = Runner(selectionID: int, status: string)
  datatype MarketBookWrapper = MarketBookWrapper(
    marketId: string,
    isMarketDataDelayed: bool,
    status: string,
    betDelay: int,
    bspReconciled: bool,
    complete: bool,
    inplay: bool,
    numberOfWinners: int,
    numberOfRunners: int,
    lastMatchTime: string,
    crossMatching: bool,
    runnersVoidable: bool,
    version: int,
    runners: Slice<Runner>)
  /** Declared nowhere in types.go; kept as the raw decoded payload. */
  datatype CurrentOrdersWrapper = CurrentOrdersWrapper(payload: Json)
  /** Declared nowhere in types.go; kept as the raw decoded payload. */
  datatype PlaceExecutionReport = PlaceExecutionReport(payload: Json)

  // ---------------------------------------------------------------------
  // Encoding. For each record, a member function says, key by key, whether
  // encoding/json writes that member and with what value: this is what the
  // struct tags of types.go mean. The encoder is the object holding exactly
  // those members.

  /** `from` and `to` are both `omitempty`. */
  function TimeRangeMember(t: TimeRange, key: string): (v: Option<Json>) {
    match key
    case "from" => When(t.from != "", JStr(t.from))
    case "to" => When(t.to != "", JStr(t.to))
    case _ => None
  }

  function EncodeTimeRange(t: TimeRange): (m: map<string, Json>)
    ensures "from" in m <==> t.from != ""
    ensures "to" in m <==> t.to != ""
    ensures m.Keys <= {"from", "to"}
  {
    map key | key in {"from", "to"} && TimeRangeMember(t, key).Some? :: TimeRangeMember(t, key).value
  }

  lemma {:induction false} TimeRangeMemberAt(t: TimeRange, key: string)
    ensures Member(EncodeTimeRange(t), key) == TimeRangeMember(t, key)
  {
  }

  function DecodeTimeRange(m: map<string, Json>): (t: TimeRange) {
    TimeRange(ReadStr(Member(m, "from")), ReadStr(Member(m, "to")))
  }

  /** The zero range is written as an object with no members. */
  lemma {:induction false} ZeroTimeRangeHasNoMembers()
    ensures EncodeTimeRange(ZeroTimeRange) == map[]
  {
    forall key | key in EncodeTimeRange(ZeroTimeRange) ensures false {
      TimeRangeMemberAt(ZeroTimeRange, key);
    }
  }

  /** `priceData` has no `omitempty`: it is always written, as `null` when nil. */
  function EncodePriceProjection(p: PriceProjection): (m: map<string, Json>)
    ensures m.Keys == {"priceData"}
    ensures p.priceData.None? <==> m["priceData"] == JNull
  {
    map["priceData" := NullableStrings(p.priceData)]
  }

  function DecodePriceProjection(m: map<string, Json>): (p: PriceProjection) {
    PriceProjection(ReadStrings(Member(m, "priceData")))
  }

  /** Every filter member is `omitempty` except `marketCountries`, which is always written. */
  function FilterMember(f: MarketFilter, key: string): (v: Option<Json>) {
    match key
    case "textQuery" => When(f.textQuery != "", JStr(f.textQuery))
    case "eventTypeIds" => When(NonEmpty(f.eventTypeIds), NullableStrings(f.eventTypeIds))
    case "eventIds" => When(NonEmpty(f.eventIds), NullableStrings(f.eventIds))
    case "competitionIds" => When(NonEmpty(f.competitionIds), NullableStrings(f.competitionIds))
    case "marketIds" => When(NonEmpty(f.marketIds), NullableStrings(f.marketIds))
    case "venues" => When(NonEmpty(f.venues), NullableStrings(f.venues))
    case "bspOnly" => When(f.bspOnly, JBool(true))
    case "turnInPlayEnabled" => When(f.turnInPlayEnabled, JBool(true))
    case "inPlayOnly" => When(f.inPlayOnly, JBool(true))
    case "marketBettingTypes" => When(NonEmpty(f.marketBettingTypes), NullableStrings(f.marketBettingTypes))
    case "marketTypeCodes" => When(NonEmpty(f.marketTypeCodes), NullableStrings(f.marketTypeCodes))
    case "marketStartTime" =>
      if f.marketStartTime.Some? then Some(JObj(EncodeTimeRange(f.marketStartTime.value))) else None
    case "marketCountries" => Some(NullableStrings(f.marketCountries))
    case "withOrders" => When(NonEmpty(f.withOrders), NullableStrings(f.withOrders))
    case "raceTypes" => When(NonEmpty(f.raceTypes), NullableStrings(f.raceTypes))
    case _ => None
  }

  const FilterKeys: set<string> := {
    "textQuery", "eventTypeIds", "eventIds", "competitionIds", "marketIds", "venues",
    "bspOnly", "turnInPlayEnabled", "inPlayOnly", "marketBettingTypes", "marketTypeCodes",
    "marketStartTime", "marketCountries", "withOrders", "raceTypes"}

  function EncodeFilter(f: MarketFilter): (m: map<string, Json>)
    ensures "marketCountries" in m
    ensures f.marketCountries.None? <==> m["marketCountries"] == JNull
    ensures "marketStartTime" in m <==> f.marketStartTime.Some?
    ensures m.Keys <= FilterKeys
  {
    map key | key in FilterKeys && FilterMember(f, key).Some? :: FilterMember(f, key).value
  }

  lemma {:induction false} FilterMemberAt(f: MarketFilter, key: string)
    ensures Member(EncodeFilter(f), key) == FilterMember(f, key)
  {
  }

  /** The zero filter is written with its `marketCountries` member alone, as `null`. */
  lemma {:induction false} ZeroFilterOnWire()
    ensures EncodeFilter(ZeroFilter) == map["marketCountries" := JNull]
  {
    var m := EncodeFilter(ZeroFilter);
    forall key | key in m ensures key == "marketCountries" {
      FilterMemberAt(ZeroFilter, key);
    }
  }

  function DecodeFilter(m: map<string, Json>): (f: MarketFilter) {
    MarketFilter(
      ReadStr(Member(m, "textQuery")),
      ReadStrings(Member(m, "eventTypeIds")),
      ReadStrings(Member(m, "eventIds")),
      ReadStrings(Member(m, "competitionIds")),
      ReadStrings(Member(m, "marketIds")),
      ReadStrings(Member(m, "venues")),
      ReadBool(Member(m, "bspOnly")),
      ReadBool(Member(m, "turnInPlayEnabled")),
      ReadBool(Member(m, "inPlayOnly")),
      ReadStrings(Member(m, "marketBettingTypes")),
      ReadStrings(Member(m, "marketTypeCodes")),
      ReadTimeRange(Member(m, "marketStartTime")),
      ReadStrings(Member(m, "marketCountries")),
      ReadStrings(Member(m, "withOrders")),
      ReadStrings(Member(m, "raceTypes")))
  }

  /** A `*TimeRange` member: `null` or absent reads as nil. */
  function ReadTimeRange(v: Option<Json>): (t: Option<TimeRange>) {
    if v.Some? && v.value.JObj? then Some(DecodeTimeRange(v.value.fields)) else None
  }

  /** The filter as the wire sees it: an empty `omitempty` slice is the same as a nil one. */
  function CanonicalFilter(f: MarketFilter): (c: MarketFilter) {
    f.(eventTypeIds := DropEmpty(f.eventTypeIds),
       eventIds := DropEmpty(f.eventIds),
       competitionIds := DropEmpty(f.competitionIds),
       marketIds := DropEmpty(f.marketIds),
       venues := DropEmpty(f.venues),
       marketBettingTypes := DropEmpty(f.marketBettingTypes),
       marketTypeCodes := DropEmpty(f.marketTypeCodes),
       withOrders := DropEmpty(f.withOrders),
       raceTypes := DropEmpty(f.raceTypes))
  }

  /**
   * An order instruction has no `omitempty` tag, so every modelled member is
   * written; the embedded LimitOrder has no tags, so its members carry the Go
   * field names.
   */
  function EncodeInstruction(x: PlaceInstruction): (m: map<string, Json>)
    ensures m.Keys == {"orderType", "selectionId", "side", "PersistanceType", "TimeInForce", "BetTargetType"}
  {
    map["orderType" := JStr(x.orderType),
        "selectionId" := JNum(x.selectionId),
        "side" := JStr(x.side),
        "PersistanceType" := JStr(x.order.persistanceType),
        "TimeInForce" := JStr(x.order.timeInForce),
        "BetTargetType" := JStr(x.order.betTargetType)]
  }

  function DecodeInstruction(j: Json): (i: PlaceInstruction) {
    var m := if j.JObj? then j.fields else map[];
    PlaceInstruction(
      ReadStr(Member(m, "orderType")), ReadNum(Member(m, "selectionId")), ReadStr(Member(m, "side")),
      LimitOrder(ReadStr(Member(m, "PersistanceType")), ReadStr(Member(m, "TimeInForce")),
                 ReadStr(Member(m, "BetTargetType"))))
  }

  function InstructionArray(xs: Slice<PlaceInstruction>): (j: Json)
    ensures j.JNull? <==> xs.None?
  {
    if xs.None? then JNull
    else JArr(seq(|xs.value|, i requires 0 <= i < |xs.value| => JObj(EncodeInstruction(xs.value[i]))))
  }

  function ReadInstructions(v: Option<Json>): (xs: Slice<PlaceInstruction>) {
    if v.Some? && v.value.JArr? then
      var items := v.value.items;
      Some(seq(|items|, i requires 0 <= i < |items| => DecodeInstruction(items[i])))
    else None
  }

  /**
   * Every Params member is `omitempty`: a zero field is absent and a non-zero
   * one present. `granularity` is a pointer, so it is present whenever it is
   * set, even to "". `dateRange` is a struct value, which `omitempty` never
   * drops, so it is always written.
   */
  function ParamsMember(p: Params, key: string): (v: Option<Json>) {
    match key
    case "filter" => if p.filter.Some? then Some(JObj(EncodeFilter(p.filter.value))) else None
    case "granularity" => if p.granularity.Some? then Some(JStr(p.granularity.value)) else None
    case "maxResults" => When(p.maxResults != 0, JNum(p.maxResults))
    case "marketId" => When(p.marketId != "", JStr(p.marketId))
    case "marketIds" => When(NonEmpty(p.marketIds), NullableStrings(p.marketIds))
    case "selectionId" => When(p.selectionId != 0, JNum(p.selectionId))
    case "priceProjection" =>
      if p.priceProjection.Some? then Some(JObj(EncodePriceProjection(p.priceProjection.value))) else None
    case "orderProjection" => When(p.orderProjection != "", JStr(p.orderProjection))
    case "matchProjection" => When(p.matchProjection != "", JStr(p.matchProjection))
    case "marketProjection" => When(NonEmpty(p.marketProjection), NullableStrings(p.marketProjection))
    case "locale" => When(p.locale != "", JStr(p.locale))
    case "dateRange" => Some(JObj(EncodeTimeRange(p.dateRange)))
    case "customerRef" => When(p.customerRef != "", JStr(p.customerRef))
    case "customerStrategyRef" => When(p.customerStrategyRef != "", JStr(p.customerStrategyRef))
    case "instructions" => When(NonEmpty(p.instructions), InstructionArray(p.instructions))
    case _ => None
  }

  const ParamKeys: set<string> := {
    "filter", "granularity", "maxResults", "marketId", "marketIds", "selectionId",
    "priceProjection", "orderProjection", "matchProjection", "marketProjection",
    "locale", "dateRange", "customerRef", "customerStrategyRef", "instructions"}

  function EncodeParams(p: Params): (m: map<string, Json>)
    ensures m.Keys <= ParamKeys
    ensures "dateRange" in m
    ensures "filter" in m <==> p.filter.Some?
    ensures "granularity" in m <==> p.granularity.Some?
    ensures "locale" in m <==> p.locale != ""
  {
    map key | key in ParamKeys && ParamsMember(p, key).Some? :: ParamsMember(p, key).value
  }

  lemma {:induction false} ParamsMemberAt(p: Params, key: string)
    ensures Member(EncodeParams(p), key) == ParamsMember(p, key)
  {
  }

  function DecodeParams(m: map<string, Json>): (p: Params) {
    Params(
      ReadFilter(Member(m, "filter")),
      ReadStrPointer(Member(m, "granularity")),
      ReadNum(Member(m, "maxResults")),
      ReadStr(Member(m, "marketId")),
      ReadStrings(Member(m, "marketIds")),
      ReadNum(Member(m, "selectionId")),
      ReadPriceProjection(Member(m, "priceProjection")),
      ReadStr(Member(m, "orderProjection")),
      ReadStr(Member(m, "matchProjection")),
      ReadStrings(Member(m, "marketProjection")),
      ReadStr(Member(m, "locale")),
      ReadTimeRangeValue(Member(m, "dateRange")),
      ReadStr(Member(m, "customerRef")),
      ReadStr(Member(m, "customerStrategyRef")),
      ReadInstructions(Member(m, "instructions")))
  }

  /** A `*MarketFilter` member: `null` or absent reads as nil. */
  function ReadFilter(v: Option<Json>): (f: Option<MarketFilter>) {
    if v.Some? && v.value.JObj? then Some(DecodeFilter(v.value.fields)) else None
  }

  /** A `*PriceProjection` member: `null` or absent reads as nil. */
  function ReadPriceProjection(v: Option<Json>): (p: Option<PriceProjection>) {
    if v.Some? && v.value.JObj? then Some(DecodePriceProjection(v.value.fields)) else None
  }

  /** A TimeRange value member: absent reads as the zero range. */
  function ReadTimeRangeValue(v: Option<Json>): (t: TimeRange) {
    if v.Some? && v.value.JObj? then DecodeTimeRange(v.value.fields) else ZeroTimeRange
  }

  /** The parameters as the wire sees them: empty `omitempty` slices become nil, also inside the filter. */
  function CanonicalParams(p: Params): (c: Params) {
    p.(filter := if p.filter.Some? then Some(CanonicalFilter(p.filter.value)) else None,
       marketIds := DropEmpty(p.marketIds),
       marketProjection := DropEmpty(p.marketProjection),
       instructions := DropEmpty(p.instructions))
  }

  /** The envelope has no `omitempty` tag: all four members are always written. */
  function EncodeJsonRPC(q: JsonRPC): (m: map<string, Json>)
    ensures m.Keys == {"jsonrpc", "method", "params", "id"}
    ensures m["jsonrpc"] == JStr(q.jsonrpc) && m["method"] == JStr(q.methodName) && m["id"] == JNum(q.id)
    ensures m["params"] == JObj(EncodeParams(q.params))
  {
    map["jsonrpc" := JStr(q.jsonrpc),
        "method" := JStr(q.methodName),
        "params" := JObj(EncodeParams(q.params)),
        "id" := JNum(q.id)]
  }

  function EncodeJsonError(e: JsonError): (m: map<string, Json>)
    ensures m.Keys == {"code", "message"}
    ensures m["code"] == JNum(e.code) && m["message"] == JStr(e.message)
  {
    map["code" := JNum(e.code), "message" := JStr(e.message)]
  }

  /** Only `error` is `omitempty` in the response envelope. */
  function EncodeResponse(r: JsonRPCResponse): (m: map<string, Json>)
    ensures "error" in m <==> r.error.Some?
    ensures {"jsonrpc", "result", "id"} <= m.Keys <= {"jsonrpc", "result", "error", "id"}
    ensures r.error.Some? ==> m["error"] == JObj(EncodeJsonError(r.error.value))
  {
    var always := map["jsonrpc" := JStr(r.jsonrpc),
                       "result" := if r.result.Some? then JArr(r.result.value) else JNull,
                       "id" := JNum(r.id)];
    if r.error.Some? then always["error" := JObj(EncodeJsonError(r.error.value))] else always
  }

  function EncodeAuthenticate(a: Authenticate): (m: map<string, Json>)
    ensures m.Keys == {"sessionToken", "loginStatus"}
    ensures m["sessionToken"] == JStr(a.sessionToken) && m["loginStatus"] == JStr(a.loginStatus)
  {
    map["sessionToken" := JStr(a.sessionToken), "loginStatus" := JStr(a.loginStatus)]
  }

  // ---------------------------------------------------------------------
  // Round trips: the encoding loses exactly the nil/empty distinction of
  // `omitempty` slices, and nothing else.

  lemma {:induction false} TimeRangeRoundTrip(t: TimeRange)
    ensures DecodeTimeRange(EncodeTimeRange(t)) == t
  {
    var m := EncodeTimeRange(t);
    TimeRangeMemberAt(t, "from");
    TimeRangeMemberAt(t, "to");
  }

  lemma {:induction false} PriceProjectionRoundTrip(p: PriceProjection)
    ensures DecodePriceProjection(EncodePriceProjection(p)) == p
  {
    NullableStringsRoundTrip(p.priceData);
  }

  lemma {:induction false} FilterRoundTripIds(f: MarketFilter)
    ensures var m := EncodeFilter(f);
      && ReadStr(Member(m, "textQuery")) == f.textQuery
      && ReadStrings(Member(m, "eventTypeIds")) == DropEmpty(f.eventTypeIds)
      && ReadStrings(Member(m, "eventIds")) == DropEmpty(f.eventIds)
      && ReadStrings(Member(m, "competitionIds")) == DropEmpty(f.competitionIds)
      && ReadStrings(Member(m, "marketIds")) == DropEmpty(f.marketIds)
      && ReadStrings(Member(m, "venues")) == DropEmpty(f.venues)
  {
    FilterMemberAt(f, "textQuery");
    FilterMemberAt(f, "eventTypeIds");
    FilterMemberAt(f, "eventIds");
    FilterMemberAt(f, "competitionIds");
    FilterMemberAt(f, "marketIds");
    FilterMemberAt(f, "venues");
    OmitEmptyStringsRoundTrip(f.eventTypeIds);
    OmitEmptyStringsRoundTrip(f.eventIds);
    OmitEmptyStringsRoundTrip(f.competitionIds);
    OmitEmptyStringsRoundTrip(f.marketIds);
    OmitEmptyStringsRoundTrip(f.venues);
  }

  lemma {:induction false} FilterRoundTripFlags(f: MarketFilter)
    ensures var m := EncodeFilter(f);
      && ReadBool(Member(m, "bspOnly")) == f.bspOnly
      && ReadBool(Member(m, "turnInPlayEnabled")) == f.turnInPlayEnabled
      && ReadBool(Member(m, "inPlayOnly")) == f.inPlayOnly
      && ReadStrings(Member(m, "marketBettingTypes")) == DropEmpty(f.marketBettingTypes)
      && ReadStrings(Member(m, "marketTypeCodes")) == DropEmpty(f.marketTypeCodes)
  {
    FilterMemberAt(f, "bspOnly");
    FilterMemberAt(f, "turnInPlayEnabled");
    FilterMemberAt(f, "inPlayOnly");
    FilterMemberAt(f, "marketBettingTypes");
    FilterMemberAt(f, "marketTypeCodes");
    OmitEmptyStringsRoundTrip(f.marketBettingTypes);
    OmitEmptyStringsRoundTrip(f.marketTypeCodes);
  }

  lemma {:induction false} FilterRoundTripMarkets(f: MarketFilter)
    ensures var m := EncodeFilter(f);
      && ReadTimeRange(Member(m, "marketStartTime")) == f.marketStartTime
      && ReadStrings(Member(m, "marketCountries")) == f.marketCountries
      && ReadStrings(Member(m, "withOrders")) == DropEmpty(f.withOrders)
      && ReadStrings(Member(m, "raceTypes")) == DropEmpty(f.raceTypes)
  {
    FilterMemberAt(f, "marketStartTime");
    FilterMemberAt(f, "marketCountries");
    FilterMemberAt(f, "withOrders");
    FilterMemberAt(f, "raceTypes");
    NullableStringsRoundTrip(f.marketCountries);
    OmitEmptyStringsRoundTrip(f.withOrders);
    OmitEmptyStringsRoundTrip(f.raceTypes);
    if f.marketStartTime.Some? {
      TimeRangeRoundTrip(f.marketStartTime.value);
    }
  }

  /** Decoding an encoded filter gives the filter back, up to empty-versus-nil slices. */
  lemma {:induction false} FilterRoundTrip(f: MarketFilter)
    ensures DecodeFilter(EncodeFilter(f)) == CanonicalFilter(f)
  {
    FilterRoundTripIds(f);
    FilterRoundTripFlags(f);
    FilterRoundTripMarkets(f);
  }

  lemma {:induction false} InstructionsRoundTrip(xs: Slice<PlaceInstruction>)
    ensures ReadInstructions(When(NonEmpty(xs), InstructionArray(xs))) == DropEmpty(xs)
  {
    if NonEmpty(xs) {
      var r := ReadInstructions(When(NonEmpty(xs), InstructionArray(xs))).value;
      assert |r| == |xs.value|;
      forall i | 0 <= i < |r| ensures r[i] == xs.value[i] {
        assert InstructionArray(xs).items[i] == JObj(EncodeInstruction(xs.value[i]));
      }
      assert r == xs.value;
    }
  }

  lemma {:induction false} ParamsRoundTripSelection(p: Params)
    ensures var m := EncodeParams(p);
      && ReadFilter(Member(m, "filter")) == (if p.filter.Some? then Some(CanonicalFilter(p.filter.value)) else None)
      && ReadStrPointer(Member(m, "granularity")) == p.granularity
      && ReadNum(Member(m, "maxResults")) == p.maxResults
      && ReadStr(Member(m, "marketId")) == p.marketId
      && ReadStrings(Member(m, "marketIds")) == DropEmpty(p.marketIds)
      && ReadNum(Member(m, "selectionId")) == p.selectionId
      && ReadPriceProjection(Member(m, "priceProjection")) == p.priceProjection
  {
    ParamsMemberAt(p, "filter");
    ParamsMemberAt(p, "granularity");
    ParamsMemberAt(p, "maxResults");
    ParamsMemberAt(p, "marketId");
    ParamsMemberAt(p, "marketIds");
    ParamsMemberAt(p, "selectionId");
    ParamsMemberAt(p, "priceProjection");
    if p.filter.Some? {
      FilterRoundTrip(p.filter.value);
    }
    OmitEmptyStringsRoundTrip(p.marketIds);
    if p.priceProjection.Some? {
      PriceProjectionRoundTrip(p.priceProjection.value);
    }
  }

  lemma {:induction false} ParamsRoundTripProjections(p: Params)
    ensures var m := EncodeParams(p);
      && ReadStr(Member(m, "orderProjection")) == p.orderProjection
      && ReadStr(Member(m, "matchProjection")) == p.matchProjection
      && ReadStrings(Member(m, "marketProjection")) == DropEmpty(p.marketProjection)
      && ReadStr(Member(m, "locale")) == p.locale
  {
    ParamsMemberAt(p, "orderProjection");
    ParamsMemberAt(p, "matchProjection");
    ParamsMemberAt(p, "marketProjection");
    ParamsMemberAt(p, "locale");
    OmitEmptyStringsRoundTrip(p.marketProjection);
  }

  lemma {:induction false} ParamsRoundTripOrders(p: Params)
    ensures var m := EncodeParams(p);
      && ReadTimeRangeValue(Member(m, "dateRange")) == p.dateRange
      && ReadStr(Member(m, "customerRef")) == p.customerRef
      && ReadStr(Member(m, "customerStrategyRef")) == p.customerStrategyRef
      && ReadInstructions(Member(m, "instructions")) == DropEmpty(p.instructions)
  {
    ParamsMemberAt(p, "dateRange");
    ParamsMemberAt(p, "customerRef");
    ParamsMemberAt(p, "customerStrategyRef");
    ParamsMemberAt(p, "instructions");
    TimeRangeRoundTrip(p.dateRange);
    InstructionsRoundTrip(p.instructions);
  }

  /** Decoding the encoded parameters gives them back, up to empty-versus-nil slices. */
  lemma {:induction false} ParamsRoundTrip(p: Params)
    ensures DecodeParams(EncodeParams(p)) == CanonicalParams(p)
  {
    ParamsRoundTripSelection(p);
    ParamsRoundTripProjections(p);
    ParamsRoundTripOrders(p);
  }

  /** Canonicalising a filter changes none of its members on the wire. */
  lemma {:induction false} CanonicalFilterMember(f: MarketFilter, key: string)
    ensures FilterMember(CanonicalFilter(f), key) == FilterMember(f, key)
  {
    match key
    case "eventTypeIds" => DropEmptySameWire(f.eventTypeIds);
    case "eventIds" => DropEmptySameWire(f.eventIds);
    case "competitionIds" => DropEmptySameWire(f.competitionIds);
    case "marketIds" => DropEmptySameWire(f.marketIds);
    case "venues" => DropEmptySameWire(f.venues);
    case "marketBettingTypes" => DropEmptySameWire(f.marketBettingTypes);
    case "marketTypeCodes" => DropEmptySameWire(f.marketTypeCodes);
    case "withOrders" => DropEmptySameWire(f.withOrders);
    case "raceTypes" => DropEmptySameWire(f.raceTypes);
    case "textQuery" =>
    case "bspOnly" =>
    case "turnInPlayEnabled" =>
    case "inPlayOnly" =>
    case "marketStartTime" =>
    case "marketCountries" =>
    case _ =>
  }

  /** Canonicalising a filter changes nothing on the wire. */
  lemma {:induction false} CanonicalFilterSameWire(f: MarketFilter)
    ensures EncodeFilter(CanonicalFilter(f)) == EncodeFilter(f)
  {
    var g := CanonicalFilter(f);
    forall key ensures Member(EncodeFilter(g), key) == Member(EncodeFilter(f), key) {
      CanonicalFilterMember(f, key);
      FilterMemberAt(g, key);
      FilterMemberAt(f, key);
    }
    MembersDetermineObject(EncodeFilter(g), EncodeFilter(f));
  }

  /** Canonicalising the parameters changes none of their members on the wire. */
  lemma {:induction false} CanonicalParamsMember(p: Params, key: string)
    ensures ParamsMember(CanonicalParams(p), key) == ParamsMember(p, key)
  {
    match key
    case "filter" =>
      if p.filter.Some? {
        CanonicalFilterSameWire(p.filter.value);
      }
    case "marketIds" => DropEmptySameWire(p.marketIds);
    case "marketProjection" => DropEmptySameWire(p.marketProjection);
    case "granularity" =>
    case "maxResults" =>
    case "marketId" =>
    case "selectionId" =>
    case "priceProjection" =>
    case "orderProjection" =>
    case "matchProjection" =>
    case "locale" =>
    case "dateRange" =>
    case "customerRef" =>
    case "customerStrategyRef" =>
    case "instructions" =>
    case _ =>
  }

  /** Canonicalising the parameters changes nothing on the wire. */
  lemma {:induction false} CanonicalParamsSameWire(p: Params)
    ensures EncodeParams(CanonicalParams(p)) == EncodeParams(p)
  {
    var q := CanonicalParams(p);
    forall key ensures Member(EncodeParams(q), key) == Member(EncodeParams(p), key) {
      CanonicalParamsMember(p, key);
      ParamsMemberAt(q, key);
      ParamsMemberAt(p, key);
    }
    MembersDetermineObject(EncodeParams(q), EncodeParams(p));
  }

  /** Two objects with the same members are the same object. */
  lemma {:induction false} MembersDetermineObject(a: map<string, Json>, b: map<string, Json>)
    requires forall key :: Member(a, key) == Member(b, key)
    ensures a == b
  {
    forall key | key in a ensures key in b && a[key] == b[key] {
      assert Member(a, key) == Member(b, key);
    }
    forall key | key in b ensures key in a {
      assert Member(a, key) == Member(b, key);
    }
  }

  /** Two parameter objects reach the wire identically exactly when they agree up to empty-versus-nil slices. */
  lemma {:induction false} ParamsWireIdentifiesCanonical(p: Params, q: Params)
    ensures EncodeParams(p) == EncodeParams(q) <==> CanonicalParams(p) == CanonicalParams(q)
  {
    ParamsRoundTrip(p);
    ParamsRoundTrip(q);
    CanonicalParamsSameWire(p);
    CanonicalParamsSameWire(q);
  }
}
