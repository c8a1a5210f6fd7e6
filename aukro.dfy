/** `AukroAdapter`: an Aukro adapter whose platform calls are constant stubs. */
module AukroAdapter {
  import opened Wrappers
  import opened PlatformTypes
  import opened BaseAdapter

  datatype Aukro = Aukro(base: Base)

  /** `new AukroAdapter(apiKey, apiSecret)`: platform "aukro" with both credentials. */
  function NewAukro(apiKey: Option<string>, apiSecret: Option<string>): Aukro
  {
    Aukro.Aukro(NewBase(PlatformTypes.Aukro, Some(Config(apiKey, apiSecret))))
  }

  function ListProducts(a: Aukro): Result<seq<PlatformProduct>, Thrown>
  {
    Success([])
  }

  function GetProduct(a: Aukro, platformProductId: string): Option<PlatformProduct>
  {
    None
  }

  function CreateProduct(a: Aukro, product: PlatformProduct): CreatedProduct
  {
    CreatedProduct("mock-aukro-id", None)
  }

  function UpdateProduct(a: Aukro, platformProductId: string, updates: PlatformProduct): bool
  {
    true
  }

  function DeleteProduct(a: Aukro, platformProductId: string): bool
  {
    true
  }

  function SyncOrders(a: Aukro): Result<seq<PlatformOrder>, Thrown>
  {
    Success([])
  }

  function VerifyWebhook(a: Aukro, payload: string, signature: Option<string>): bool
  {
    true
  }

  /** The constructor keeps both credentials and sets platform "aukro". */
  lemma NewAukroFields(apiKey: Option<string>, apiSecret: Option<string>)
    ensures NewAukro(apiKey, apiSecret).base == Base(PlatformTypes.Aukro, apiKey, apiSecret)
  {
  }

  /**
   * Every call succeeds without effect: nothing is listed, found or synced,
   * every product is "created" as "mock-aukro-id", and every update, delete
   * and webhook signature is accepted.
   */
  lemma StubBehaviour(a: Aukro)
    ensures ListProducts(a) == Success([]) && SyncOrders(a) == Success([])
    ensures forall id :: GetProduct(a, id).None?
    ensures forall p :: CreateProduct(a, p) == CreatedProduct("mock-aukro-id", None)
    ensures forall id, u :: UpdateProduct(a, id, u)
    ensures forall id :: DeleteProduct(a, id)
    ensures forall payload, signature :: VerifyWebhook(a, payload, signature)
  {
  }

  /** A full sync of an Aukro adapter succeeds with zero products and zero orders. */
  lemma FullSyncSyncsNothing(a: Aukro, timestamp: string)
    ensures FullSync(a.base.platform, ListProducts(a), SyncOrders(a), timestamp).result ==
      SyncResult(a.base.platform, true, Some(0), Some(0), None, timestamp)
  {
  }
}
