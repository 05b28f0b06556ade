/**
 * The typed facade of pkg/betting/api.go. Each call picks an operation name,
 * the fixed id 1, a filter (or none) and a parameter bag, makes one
 * transport call and decodes the payload into its result records. A
 * transport error is handed back unchanged; a payload that fails to decode
 * is not an error, and the caller gets whatever the decoder filled in.
 *
 * Decoding a payload into result records is an input of each call, like the
 * network: it is encoding/json's work, which is not modelled.
 */
module Betting {
  import opened Wrappers
  import opened Wire
  import opened Types
  import opened Transport

  /** The JSON-RPC id of every call. */
  const BetfairId := 1

  /** A time formatted as RFC 3339, which is never the empty string. */
  type Timestamp = s: string | s != "" witness "1970-01-01T00:00:00Z"

  /** A caller-owned `*MarketFilter` that ListTimeRanges may update in place. */
  class MarketFilterRef {
    var value: MarketFilter

    constructor(value: MarketFilter)
      ensures this.value == value
    {
      this.value := value;
    }
  }

  /** The filter a possibly nil reference denotes. */
  function FilterOf(filter: MarketFilterRef?): (f: Option<MarketFilter>)
    reads filter
    ensures f.Some? <==> filter != null
    ensures filter != null ==> f.value == filter.value
  {
    if filter == null then None else Some(filter.value)
  }

  // ---------------------------------------------------------------------
  // The start-time range of ListTimeRanges

  /** The range built from the optional bounds: each given bound fills its side, and only that one. */
  function MarketRange(from: Option<Timestamp>, to: Option<Timestamp>): (t: TimeRange)
    ensures t.from != "" <==> from.Some?
    ensures t.to != "" <==> to.Some?
    ensures from.Some? ==> t.from == from.value
    ensures to.Some? ==> t.to == to.value
  {
    var from' := if from.Some? then from.value else ZeroTimeRange.from;
    var to' := if to.Some? then to.value else ZeroTimeRange.to;
    TimeRange(from', to')
  }

  /**
   * The filter after ListTimeRanges: the range replaces the filter's start
   * time when it differs from the zero range, and the filter is untouched
   * otherwise.
   */
  function WithStartTime(f: MarketFilter, from: Option<Timestamp>, to: Option<Timestamp>): (g: MarketFilter)
    ensures from.Some? || to.Some? ==> g == f.(marketStartTime := Some(MarketRange(from, to)))
    ensures from.None? && to.None? ==> g == f
  {
    var marketRange := MarketRange(from, to);
    if marketRange != ZeroTimeRange then f.(marketStartTime := Some(marketRange)) else f
  }

  /** Comparing the built range with the zero range is the same as asking whether a bound was given. */
  lemma {:induction false} RangeSetIffBoundGiven(from: Option<Timestamp>, to: Option<Timestamp>)
    ensures MarketRange(from, to) != ZeroTimeRange <==> from.Some? || to.Some?
  {
  }

  /** On the wire, the start time carries a `from` exactly when a lower bound was given, and a `to` exactly when an upper one was. */
  lemma {:induction false} StartTimeOnWire(f: MarketFilter, from: Option<Timestamp>, to: Option<Timestamp>)
    requires from.Some? || to.Some?
    ensures var m := EncodeFilter(WithStartTime(f, from, to));
      && "marketStartTime" in m
      && m["marketStartTime"].JObj?
      && ("from" in m["marketStartTime"].fields <==> from.Some?)
      && ("to" in m["marketStartTime"].fields <==> to.Some?)
  {
    var g := WithStartTime(f, from, to);
    FilterMemberAt(g, "marketStartTime");
  }

  // ---------------------------------------------------------------------
  // The parameter bags of the calls that send one

  /** ListTimeRanges' bag: only the granularity. */
  function TimeRangesBag(granularity: string): (mp: MarketFilterParams) {
    MarketFilterParams(granularity, 0, "", None, 0, None, None, "", "", None)
  }

  /** ListMarketCatalogue's bag: the maximum, and the projection when it is not nil. */
  function CatalogueBag(maxResults: int, marketProjection: Slice<string>): (mp: MarketFilterParams) {
    MarketFilterParams("", maxResults, "", None, 0, marketProjection, None, "", "", None)
  }

  /** ListMarketBook's bag: the market ids and the projections. */
  function MarketBookBag(marketIds: Slice<string>, priceProjection: Option<PriceProjection>,
                         orderProjection: string, matchProjection: string): (mp: MarketFilterParams)
  {
    MarketFilterParams("", 0, "", marketIds, 0, None, priceProjection, orderProjection, matchProjection, None)
  }

  /** ListRunnerBook's bag: one market, one runner and the projections. */
  function RunnerBookBag(marketId: string, selectionId: int, priceProjection: Option<PriceProjection>,
                         orderProjection: string, matchProjection: string): (mp: MarketFilterParams)
  {
    MarketFilterParams("", 0, marketId, None, selectionId, None, priceProjection, orderProjection, matchProjection, None)
  }

  /** ListCurrentOrders points the date range at a zero range. */
  function CurrentOrdersBag(): (mp: MarketFilterParams) {
    ZeroMarketFilterParams.(dateRange := Some(ZeroTimeRange))
  }

  /** ListTimeRanges' parameters hold the filter, the granularity only when it is not empty, and the locale. */
  lemma {:induction false} TimeRangesParams(filter: Option<MarketFilter>, granularity: string)
    ensures var p := BuildParams(filter, Market(Some(TimeRangesBag(granularity))));
      && p.filter == filter
      && p.granularity == (if granularity != "" then Some(granularity) else None)
      && p == ZeroParams.(filter := filter, granularity := p.granularity, locale := DefaultLocale)
  {
  }

  /** ListMarketCatalogue's parameters hold the filter, the maximum and the projection as given, and the locale. */
  lemma {:induction false} CatalogueParams(filter: Option<MarketFilter>, maxResults: int, marketProjection: Slice<string>)
    ensures BuildParams(filter, Market(Some(CatalogueBag(maxResults, marketProjection))))
      == ZeroParams.(filter := filter, maxResults := maxResults, marketProjection := marketProjection, locale := DefaultLocale)
  {
  }

  /** The book calls send no filter: the market book names markets, the runner book one market and one runner. */
  lemma {:induction false} BookParams(marketIds: Slice<string>, marketId: string, selectionId: int,
                                      priceProjection: Option<PriceProjection>, orderProjection: string, matchProjection: string)
    ensures var p := BuildParams(None, Market(Some(MarketBookBag(marketIds, priceProjection, orderProjection, matchProjection))));
      && "filter" !in EncodeParams(p)
      && p == ZeroParams.(marketIds := marketIds, priceProjection := priceProjection,
                          orderProjection := orderProjection, matchProjection := matchProjection, locale := DefaultLocale)
    ensures var p := BuildParams(None, Market(Some(RunnerBookBag(marketId, selectionId, priceProjection, orderProjection, matchProjection))));
      && "filter" !in EncodeParams(p)
      && p == ZeroParams.(marketId := marketId, selectionId := selectionId, priceProjection := priceProjection,
                          orderProjection := orderProjection, matchProjection := matchProjection, locale := DefaultLocale)
  {
  }

  /** The present-but-zero date range of ListCurrentOrders sends the same request as no date range at all. */
  lemma {:induction false} CurrentOrdersParams()
    ensures BuildParams(None, Market(Some(CurrentOrdersBag()))) == BuildParams(None, Market(Some(ZeroMarketFilterParams)))
    ensures BuildParams(None, Market(Some(CurrentOrdersBag()))) == ZeroParams.(locale := DefaultLocale)
  {
  }

  /** PlaceOrder's parameters are unrecognised by Do: the wire carries an empty date range and nothing else. */
  lemma {:induction false} PlaceOrderParamsOnWire()
    ensures EncodeParams(BuildParams(None, Unrecognised)) == map["dateRange" := JObj(map[])]
  {
    var m := EncodeParams(ZeroParams);
    forall key | key in m ensures key == "dateRange" {
      ParamsMemberAt(ZeroParams, key);
    }
    ParamsMemberAt(ZeroParams, "dateRange");
    ZeroTimeRangeHasNoMembers();
  }

  // ---------------------------------------------------------------------
  // Results

  /** What a facade call returns once Do has answered: its error unchanged, or whatever the payload decoded to. */
  function Finish<T>(raw: Result<Json, DoError>, decode: Json -> Decoded<T>): (r: Result<T, DoError>)
    ensures r.Success? <==> raw.Success?
    ensures raw.Failure? ==> r.error == raw.error
    ensures raw.Success? ==> r.value == decode(raw.value).value
  {
    if raw.Failure? then Failure(raw.error) else Success(decode(raw.value).value)
  }

  /** A decode failure is not reported: the result is the same as if the partial value had decoded cleanly. */
  lemma {:induction false} DecodeFailureSwallowed<T>(payload: Json, partial: T, decode: Json -> Decoded<T>)
    requires decode(payload) == Malformed(partial)
    ensures Finish(Success(payload), decode) == Success(partial)
    ensures Finish(Success(payload), decode) == Finish(Success(payload), (j: Json) => Parsed(decode(j).value))
  {
  }

  class API {
    /** The transport; the only implementation of the client interface is the JSON-RPC client. */
    const client: JsonRPCClient

    constructor(client: JsonRPCClient)
      ensures this.client == client
    {
      this.client := client;
    }

    static method NewAPI(config: Config, readable: string -> bool, keyPairLoads: (string, string) -> bool)
      returns (r: Result<API, InitError>)
      ensures r.Failure? <==> !readable(CaBundlePath(config)) || !keyPairLoads(config.certPath, config.keyPath)
      ensures !readable(CaBundlePath(config)) ==> r == Failure(CaBundleUnreadable(CaBundlePath(config)))
      ensures readable(CaBundlePath(config)) && !keyPairLoads(config.certPath, config.keyPath) ==>
        r == Failure(KeyPairUnusable(config.certPath, config.keyPath))
      ensures r.Success? ==> fresh(r.value) && fresh(r.value.client)
      ensures r.Success? ==> r.value.client.config == config && r.value.client.authData == NoSession
    {
      var client := JsonRPCClient.NewJsonRPCClient(config, readable, keyPairLoads);
      if client.Failure? {
        return Failure(client.error);
      }
      var api := new API(client.value);
      return Success(api);
    }

    method ListEventTypes(filter: Option<MarketFilter>, network: HttpRequest -> Exchange<JsonRPCResponse>,
                          decode: Json -> Decoded<Slice<EventTypeWrapper>>)
      returns (r: Result<Slice<EventTypeWrapper>, DoError>)
      ensures r == Finish(client.Outcome(BetfairId, "listEventTypes", filter, NoExtra, network), decode)
    {
      var buf := client.Do(BetfairId, "listEventTypes", filter, NoExtra, network);
      if buf.Failure? {
        return Failure(buf.error);
      }
      var result := decode(buf.value);
      return Success(result.value);
    }

    method ListCompetitions(filter: Option<MarketFilter>, network: HttpRequest -> Exchange<JsonRPCResponse>,
                            decode: Json -> Decoded<Slice<CompetitionWrapper>>)
      returns (r: Result<Slice<CompetitionWrapper>, DoError>)
      ensures r == Finish(client.Outcome(BetfairId, "listCompetitions", filter, NoExtra, network), decode)
    {
      var buf := client.Do(BetfairId, "listCompetitions", filter, NoExtra, network);
      if buf.Failure? {
        return Failure(buf.error);
      }
      var result := decode(buf.value);
      return Success(result.value);
    }

    /**
     * Sets the caller's filter start time from the given bounds, then lists
     * the time ranges. Go dereferences a nil filter when a bound is given,
     * so a caller must supply a filter then.
     */
    method ListTimeRanges(from: Option<Timestamp>, to: Option<Timestamp>, filter: MarketFilterRef?, granularity: string,
                          network: HttpRequest -> Exchange<JsonRPCResponse>, decode: Json -> Decoded<Slice<RangeWrapper>>)
      returns (r: Result<Slice<RangeWrapper>, DoError>)
      requires filter == null ==> from.None? && to.None?
      modifies filter
      ensures filter != null ==> filter.value == WithStartTime(old(filter.value), from, to)
      ensures r == Finish(client.Outcome(BetfairId, "listTimeRanges", FilterOf(filter), Market(Some(TimeRangesBag(granularity))), network), decode)
    {
      var mfParams := ZeroMarketFilterParams.(granularity := granularity);
      var marketRange := ZeroTimeRange;
      if from.Some? {
        marketRange := marketRange.(from := from.value);
      }
      if to.Some? {
        marketRange := marketRange.(to := to.value);
      }
      if marketRange != ZeroTimeRange {
        filter.value := filter.value.(marketStartTime := Some(marketRange));
      }
      var buf := client.Do(BetfairId, "listTimeRanges", FilterOf(filter), Market(Some(mfParams)), network);
      if buf.Failure? {
        return Failure(buf.error);
      }
      var result := decode(buf.value);
      return Success(result.value);
    }

    method ListEvents(filter: Option<MarketFilter>, network: HttpRequest -> Exchange<JsonRPCResponse>,
                      decode: Json -> Decoded<Slice<EventWrapper>>)
      returns (r: Result<Slice<EventWrapper>, DoError>)
      ensures r == Finish(client.Outcome(BetfairId, "listEvents", filter, NoExtra, network), decode)
    {
      var buf := client.Do(BetfairId, "listEvents", filter, NoExtra, network);
      if buf.Failure? {
        return Failure(buf.error);
      }
      var result := decode(buf.value);
      return Success(result.value);
    }

    method ListMarketTypes(filter: Option<MarketFilter>, network: HttpRequest -> Exchange<JsonRPCResponse>,
                           decode: Json -> Decoded<Slice<MarketTypeWrapper>>)
      returns (r: Result<Slice<MarketTypeWrapper>, DoError>)
      ensures r == Finish(client.Outcome(BetfairId, "listMarketTypes", filter, NoExtra, network), decode)
    {
      var buf := client.Do(BetfairId, "listMarketTypes", filter, NoExtra, network);
      if buf.Failure? {
        return Failure(buf.error);
      }
      var result := decode(buf.value);
      return Success(result.value);
    }

    method ListCountries(filter: Option<MarketFilter>, network: HttpRequest -> Exchange<JsonRPCResponse>,
                         decode: Json -> Decoded<Slice<CountryWrapper>>)
      returns (r: Result<Slice<CountryWrapper>, DoError>)
      ensures r == Finish(client.Outcome(BetfairId, "listCountries", filter, NoExtra, network), decode)
    {
      var buf := client.Do(BetfairId, "listCountries", filter, NoExtra, network);
      if buf.Failure? {
        return Failure(buf.error);
      }
      var result := decode(buf.value);
      return Success(result.value);
    }

    method ListVenues(filter: Option<MarketFilter>, network: HttpRequest -> Exchange<JsonRPCResponse>,
                      decode: Json -> Decoded<Slice<VenueWrapper>>)
      returns (r: Result<Slice<VenueWrapper>, DoError>)
      ensures r == Finish(client.Outcome(BetfairId, "listVenues", filter, NoExtra, network), decode)
    {
      var buf := client.Do(BetfairId, "listVenues", filter, NoExtra, network);
      if buf.Failure? {
        return Failure(buf.error);
      }
      var result := decode(buf.value);
      return Success(result.value);
    }

    method ListMarketCatalogue(filter: Option<MarketFilter>, maxResults: int, marketProjection: Slice<string>,
                               network: HttpRequest -> Exchange<JsonRPCResponse>,
                               decode: Json -> Decoded<Slice<MarketCatalogueWrapper>>)
      returns (r: Result<Slice<MarketCatalogueWrapper>, DoError>)
      ensures r == Finish(client.Outcome(BetfairId, "listMarketCatalogue", filter,
                                         Market(Some(CatalogueBag(maxResults, marketProjection))), network), decode)
    {
      var mfParams := ZeroMarketFilterParams.(maxResults := maxResults);
      if marketProjection.Some? {
        mfParams := mfParams.(marketProjection := marketProjection);
      }
      var buf := client.Do(BetfairId, "listMarketCatalogue", filter, Market(Some(mfParams)), network);
      if buf.Failure? {
        return Failure(buf.error);
      }
      var result := decode(buf.value);
      return Success(result.value);
    }

    method ListMarketBook(marketIds: Slice<string>, priceProjection: Option<PriceProjection>,
                          orderProjection: string, matchProjection: string,
                          network: HttpRequest -> Exchange<JsonRPCResponse>,
                          decode: Json -> Decoded<Slice<MarketBookWrapper>>)
      returns (r: Result<Slice<MarketBookWrapper>, DoError>)
      ensures r == Finish(client.Outcome(BetfairId, "listMarketBook", None,
                                         Market(Some(MarketBookBag(marketIds, priceProjection, orderProjection, matchProjection))),
                                         network), decode)
    {
      var params := ZeroMarketFilterParams.(marketIds := marketIds, priceProjection := priceProjection,
                                            orderProjection := orderProjection, matchProjection := matchProjection);
      var buf := client.Do(BetfairId, "listMarketBook", None, Market(Some(params)), network);
      if buf.Failure? {
        return Failure(buf.error);
      }
      var result := decode(buf.value);
      return Success(result.value);
    }

    method ListRunnerBook(marketId: string, selectionId: int, priceProjection: Option<PriceProjection>,
                          orderProjection: string, matchProjection: string,
                          network: HttpRequest -> Exchange<JsonRPCResponse>,
                          decode: Json -> Decoded<Slice<MarketBookWrapper>>)
      returns (r: Result<Slice<MarketBookWrapper>, DoError>)
      ensures r == Finish(client.Outcome(BetfairId, "listRunnerBook", None,
                                         Market(Some(RunnerBookBag(marketId, selectionId, priceProjection, orderProjection, matchProjection))),
                                         network), decode)
    {
      var params := ZeroMarketFilterParams.(marketId := marketId, selectionId := selectionId, priceProjection := priceProjection,
                                            orderProjection := orderProjection, matchProjection := matchProjection);
      var buf := client.Do(BetfairId, "listRunnerBook", None, Market(Some(params)), network);
      if buf.Failure? {
        return Failure(buf.error);
      }
      var result := decode(buf.value);
      return Success(result.value);
    }

    /** The result record is decoded through a pointer: `null` leaves it nil. */
    method ListCurrentOrders(network: HttpRequest -> Exchange<JsonRPCResponse>,
                             decode: Json -> Decoded<Option<CurrentOrdersWrapper>>)
      returns (r: Result<Option<CurrentOrdersWrapper>, DoError>)
      ensures r == Finish(client.Outcome(BetfairId, "listCurrentOrders", None, Market(Some(CurrentOrdersBag())), network), decode)
    {
      var buf := client.Do(BetfairId, "listCurrentOrders", None, Market(Some(ZeroMarketFilterParams.(dateRange := Some(ZeroTimeRange)))), network);
      if buf.Failure? {
        return Failure(buf.error);
      }
      var result := decode(buf.value);
      return Success(result.value);
    }

    /**
     * Places orders. The bag reaches Do behind a second pointer, which Do
     * does not recognise, and the report is decoded into a nil pointer,
     * which encoding/json refuses: a call that gets through returns no report.
     */
    method PlaceOrder(params: PlaceInstructionParams, network: HttpRequest -> Exchange<JsonRPCResponse>)
      returns (r: Result<Option<PlaceExecutionReport>, DoError>)
      ensures r.Success? <==> client.Outcome(BetfairId, "placeOrder", None, Unrecognised, network).Success?
      ensures r.Failure? ==> r.error == client.Outcome(BetfairId, "placeOrder", None, Unrecognised, network).error
      ensures r.Success? ==> r.value.None?
    {
      var buf := client.Do(BetfairId, "placeOrder", None, Unrecognised, network);
      if buf.Failure? {
        return Failure(buf.error);
      }
      var result: Option<PlaceExecutionReport> := None;
      return Success(result);
    }
  }
}
