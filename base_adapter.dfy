/** `BasePlatformAdapter`: the fields every adapter carries and the `fullSync` composition. */
module BaseAdapter {
  import opened Wrappers
  import opened PlatformTypes

  /** The optional `config` argument. */
  datatype Config = Config(apiKey: Option<string>, apiSecret: Option<string>)

  /** The protected fields; they are written only by the constructor. */
  datatype Base = Base(platform: PlatformType, apiKey: Option<string>, apiSecret: Option<string>)

  /** The constructor: stores the platform and whatever credentials the config carries. */
  function NewBase(platform: PlatformType, config: Option<Config>): (b: Base)
    ensures b.platform == platform
    ensures config.None? ==> b.apiKey.None? && b.apiSecret.None?
    ensures config.Some? ==> b.apiKey == config.value.apiKey && b.apiSecret == config.value.apiSecret
  {
    match config
    case None => Base(platform, None, None)
    case Some(c) => Base(platform, c.apiKey, c.apiSecret)
  }

  /** The platform calls `fullSync` makes, in order. */
  datatype Call = ListProductsCall | SyncOrdersCall

  /** The sync result and the calls that produced it. */
  datatype SyncRun = SyncRun(result: SyncResult, calls: seq<Call>)

  /** The message of a caught value: an error's own message, otherwise "Unknown error". */
  function ThrownMessage(t: Thrown): string
  {
    match t case ErrorObject(m) => m case OtherValue => "Unknown error"
  }

  /**
   * `fullSync`: list the products, then sync the orders, and report the two
   * counts; the first call to fail ends the sync with its message. The
   * outcomes of the two calls and the time of the report are parameters.
   */
  function FullSync(platform: PlatformType, listProducts: Result<seq<PlatformProduct>, Thrown>,
                    syncOrders: Result<seq<PlatformOrder>, Thrown>, timestamp: string): (r: SyncRun)
    ensures r.result.platform == platform && r.result.timestamp == timestamp
    ensures r.result.success <==> listProducts.Success? && syncOrders.Success?
    ensures (r.calls == [ListProductsCall, SyncOrdersCall]) <==> listProducts.Success?
  {
    match listProducts
    case Failure(e) =>
      SyncRun(SyncResult(platform, false, None, None, Some([ThrownMessage(e)]), timestamp), [ListProductsCall])
    case Success(products) =>
      match syncOrders
      case Failure(e) =>
        SyncRun(SyncResult(platform, false, None, None, Some([ThrownMessage(e)]), timestamp),
                [ListProductsCall, SyncOrdersCall])
      case Success(orders) =>
        SyncRun(SyncResult(platform, true, Some(|products|), Some(|orders|), None, timestamp),
                [ListProductsCall, SyncOrdersCall])
  }

  /**
   * `fullSync` never fails itself: it reports success with both counts and
   * no errors exactly when both calls succeed, and otherwise one error
   * message and no counts; the platform and timestamp are always reported.
   */
  lemma FullSyncOutcome(platform: PlatformType, listProducts: Result<seq<PlatformProduct>, Thrown>,
                        syncOrders: Result<seq<PlatformOrder>, Thrown>, timestamp: string)
    ensures var r := FullSync(platform, listProducts, syncOrders, timestamp).result;
      && r.platform == platform && r.timestamp == timestamp
      && (r.success <==> listProducts.Success? && syncOrders.Success?)
      && (r.success ==>
            r.productsSynced == Some(|listProducts.value|) && r.ordersSynced == Some(|syncOrders.value|)
            && r.errors.None?)
      && (!r.success ==>
            r.productsSynced.None? && r.ordersSynced.None? && r.errors.Some? && |r.errors.value| == 1)
      && (listProducts.Failure? ==> r.errors == Some([ThrownMessage(listProducts.error)]))
      && (listProducts.Success? && syncOrders.Failure? ==> r.errors == Some([ThrownMessage(syncOrders.error)]))
  {
  }

  /** Orders are synced only after products were listed successfully; a failed listing ends the sync at once. */
  lemma FullSyncCalls(platform: PlatformType, listProducts: Result<seq<PlatformProduct>, Thrown>,
                      syncOrders: Result<seq<PlatformOrder>, Thrown>, timestamp: string)
    ensures var calls := FullSync(platform, listProducts, syncOrders, timestamp).calls;
      && 1 <= |calls| && calls[0] == ListProductsCall
      && (SyncOrdersCall in calls <==> listProducts.Success?)
    ensures listProducts.Failure? ==>
      forall other: Result<seq<PlatformOrder>, Thrown> ::
        FullSync(platform, listProducts, other, timestamp) == FullSync(platform, listProducts, syncOrders, timestamp)
  {
  }
}
