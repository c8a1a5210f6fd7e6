/** `MedusaAdapter`: a Medusa adapter, holding the store URL, whose platform calls are constant stubs. */
module MedusaAdapter {
  import opened Wrappers
  import opened PlatformTypes
  import opened BaseAdapter

  datatype Medusa = Medusa(base: Base, baseUrl: string)

  /** `new MedusaAdapter(baseUrl, apiKey)`: platform "medusa", the key, no secret, and the URL as given. */
  function NewMedusa(baseUrl: string, apiKey: Option<string>): Medusa
  {
    Medusa.Medusa(NewBase(PlatformTypes.Medusa, Some(Config(apiKey, None))), baseUrl)
  }

  function ListProducts(a: Medusa): Result<seq<PlatformProduct>, Thrown>
  {
    Success([])
  }

  function GetProduct(a: Medusa, platformProductId: string): Option<PlatformProduct>
  {
    None
  }

  function CreateProduct(a: Medusa, product: PlatformProduct): CreatedProduct
  {
    CreatedProduct("mock-medusa-id", None)
  }

  function UpdateProduct(a: Medusa, platformProductId: string, updates: PlatformProduct): bool
  {
    true
  }

  function DeleteProduct(a: Medusa, platformProductId: string): bool
  {
    true
  }

  function SyncOrders(a: Medusa): Result<seq<PlatformOrder>, Thrown>
  {
    Success([])
  }

  function VerifyWebhook(a: Medusa, payload: string, signature: Option<string>): bool
  {
    true
  }

  /** The constructor keeps the key and the URL unchanged, sets platform "medusa" and never a secret. */
  lemma NewMedusaFields(baseUrl: string, apiKey: Option<string>)
    ensures NewMedusa(baseUrl, apiKey).base == Base(PlatformTypes.Medusa, apiKey, None)
    ensures NewMedusa(baseUrl, apiKey).baseUrl == baseUrl
  {
  }

  /**
   * Every call succeeds without effect: nothing is listed, found or synced,
   * every product is "created" as "mock-medusa-id", and every update, delete
   * and webhook signature is accepted.
   */
  lemma StubBehaviour(a: Medusa)
    ensures ListProducts(a) == Success([]) && SyncOrders(a) == Success([])
    ensures forall id :: GetProduct(a, id).None?
    ensures forall p :: CreateProduct(a, p) == CreatedProduct("mock-medusa-id", None)
    ensures forall id, u :: UpdateProduct(a, id, u)
    ensures forall id :: DeleteProduct(a, id)
    ensures forall payload, signature :: VerifyWebhook(a, payload, signature)
  {
  }

  /** A full sync of a Medusa adapter succeeds with zero products and zero orders. */
  lemma FullSyncSyncsNothing(a: Medusa, timestamp: string)
    ensures FullSync(a.base.platform, ListProducts(a), SyncOrders(a), timestamp).result ==
      SyncResult(a.base.platform, true, Some(0), Some(0), None, timestamp)
  {
  }
}
