/** `EtsyAdapter`: an Etsy adapter whose platform calls are constant stubs. */
module EtsyAdapter {
  import opened Wrappers
  import opened PlatformTypes
  import opened BaseAdapter

  datatype Etsy = Etsy(base: Base)

  /** `new EtsyAdapter(apiKey)`: platform "etsy", the key, and no secret. */
  function NewEtsy(apiKey: Option<string>): Etsy
  {
    Etsy.Etsy(NewBase(PlatformTypes.Etsy, Some(Config(apiKey, None))))
  }

  function ListProducts(a: Etsy): Result<seq<PlatformProduct>, Thrown>
  {
    Success([])
  }

  function GetProduct(a: Etsy, platformProductId: string): Option<PlatformProduct>
  {
    None
  }

  function CreateProduct(a: Etsy, product: PlatformProduct): CreatedProduct
  {
    CreatedProduct("mock-etsy-id", None)
  }

  function UpdateProduct(a: Etsy, platformProductId: string, updates: PlatformProduct): bool
  {
    true
  }

  function DeleteProduct(a: Etsy, platformProductId: string): bool
  {
    true
  }

  function SyncOrders(a: Etsy): Result<seq<PlatformOrder>, Thrown>
  {
    Success([])
  }

  function VerifyWebhook(a: Etsy, payload: string, signature: Option<string>): bool
  {
    true
  }

  /** The constructor keeps the key, sets platform "etsy" and never a secret. */
  lemma NewEtsyFields(apiKey: Option<string>)
    ensures NewEtsy(apiKey).base == Base(PlatformTypes.Etsy, apiKey, None)
  {
  }

  /**
   * Every call succeeds without effect: nothing is listed, found or synced,
   * every product is "created" as "mock-etsy-id", and every update, delete
   * and webhook signature is accepted.
   */
  lemma StubBehaviour(a: Etsy)
    ensures ListProducts(a) == Success([]) && SyncOrders(a) == Success([])
    ensures forall id :: GetProduct(a, id).None?
    ensures forall p :: CreateProduct(a, p) == CreatedProduct("mock-etsy-id", None)
    ensures forall id, u :: UpdateProduct(a, id, u)
    ensures forall id :: DeleteProduct(a, id)
    ensures forall payload, signature :: VerifyWebhook(a, payload, signature)
  {
  }

  /** A full sync of an Etsy adapter succeeds with zero products and zero orders. */
  lemma FullSyncSyncsNothing(a: Etsy, timestamp: string)
    ensures FullSync(a.base.platform, ListProducts(a), SyncOrders(a), timestamp).result ==
      SyncResult(a.base.platform, true, Some(0), Some(0), None, timestamp)
  {
  }
}
