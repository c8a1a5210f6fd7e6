/** `PlatformFactory`: builds the adapter for a platform id from the configured credentials. */
module Factory {
  import opened Wrappers
  import opened PlatformTypes
  import opened BaseAdapter
  import opened EtsyAdapter
  import opened MedusaAdapter
  import opened AukroAdapter

  /** The three concrete adapters. */
  datatype Adapter =
    | EtsyOne(etsy: EtsyAdapter.Etsy)
    | MedusaOne(medusa: MedusaAdapter.Medusa)
    | AukroOne(aukro: AukroAdapter.Aukro)

  function BaseOf(a: Adapter): Base
  {
    match a
    case EtsyOne(e) => e.base
    case MedusaOne(m) => m.base
    case AukroOne(k) => k.base
  }

  /** The process environment variables the factory reads; `None` when unset. */
  datatype Environment = Environment(etsyApiKey: Option<string>, medusaApiUrl: Option<string>,
                                     medusaApiKey: Option<string>, aukroApiKey: Option<string>,
                                     aukroApiSecret: Option<string>)

  /** `MEDUSA_API_URL || ""`. */
  function MedusaUrl(env: Environment): string
  {
    if env.medusaApiUrl.Some? then env.medusaApiUrl.value else ""
  }

  /** `createAdapter`: the switch on the platform id; any other id throws "Unsupported platform: <id>". */
  function CreateAdapter(platform: string, env: Environment): (r: Result<Adapter, string>)
    ensures r.Success? <==> platform in {"etsy", "medusa", "aukro"}
    ensures r.Success? ==> PlatformId(BaseOf(r.value).platform) == platform
    ensures r.Failure? ==> r.error == "Unsupported platform: " + platform
  {
    if platform == "etsy" then Success(EtsyOne(NewEtsy(env.etsyApiKey)))
    else if platform == "medusa" then Success(MedusaOne(NewMedusa(MedusaUrl(env), env.medusaApiKey)))
    else if platform == "aukro" then Success(AukroOne(NewAukro(env.aukroApiKey, env.aukroApiSecret)))
    else Failure("Unsupported platform: " + platform)
  }

  /** Each adapter gets exactly its own credentials; Medusa's URL falls back to "". */
  lemma CreateAdapterCredentials(env: Environment)
    ensures CreateAdapter("etsy", env) == Success(EtsyOne(EtsyAdapter.Etsy(Base(PlatformTypes.Etsy, env.etsyApiKey, None))))
    ensures CreateAdapter("medusa", env) ==
      Success(MedusaOne(MedusaAdapter.Medusa(Base(PlatformTypes.Medusa, env.medusaApiKey, None), MedusaUrl(env))))
    ensures env.medusaApiUrl.None? ==> CreateAdapter("medusa", env).value.medusa.baseUrl == ""
    ensures CreateAdapter("aukro", env) ==
      Success(AukroOne(AukroAdapter.Aukro(Base(PlatformTypes.Aukro, env.aukroApiKey, env.aukroApiSecret))))
  {
  }

  /** The platform type "other" has no adapter. */
  lemma OtherIsUnsupported(env: Environment)
    ensures CreateAdapter(PlatformId(Other), env) == Failure("Unsupported platform: other")
  {
    var id := PlatformId(Other);
    assert id[0] == 'o' && "etsy"[0] == 'e' && "medusa"[0] == 'm' && "aukro"[0] == 'a';
    assert CreateAdapter(id, env) == Failure("Unsupported platform: " + id);
    assert "Unsupported platform: " + id == "Unsupported platform: other";
  }

  /** `getAllAdapters`: the Etsy, Medusa and Aukro adapters, in that order. */
  function GetAllAdapters(env: Environment): (r: seq<Adapter>)
    ensures |r| == 3
    ensures BaseOf(r[0]).platform == PlatformTypes.Etsy
    ensures BaseOf(r[1]).platform == PlatformTypes.Medusa
    ensures BaseOf(r[2]).platform == PlatformTypes.Aukro
    ensures forall i :: 0 <= i < 3 ==> Success(r[i]) == CreateAdapter(PlatformId(BaseOf(r[i]).platform), env)
  {
    [CreateAdapter("etsy", env).value, CreateAdapter("medusa", env).value, CreateAdapter("aukro", env).value]
  }

  function ListProductsOf(a: Adapter): Result<seq<PlatformProduct>, Thrown>
  {
    match a
    case EtsyOne(e) => EtsyAdapter.ListProducts(e)
    case MedusaOne(m) => MedusaAdapter.ListProducts(m)
    case AukroOne(k) => AukroAdapter.ListProducts(k)
  }

  function SyncOrdersOf(a: Adapter): Result<seq<PlatformOrder>, Thrown>
  {
    match a
    case EtsyOne(e) => EtsyAdapter.SyncOrders(e)
    case MedusaOne(m) => MedusaAdapter.SyncOrders(m)
    case AukroOne(k) => AukroAdapter.SyncOrders(k)
  }

  /** Syncing every configured adapter reports success, with nothing synced, for each of the three platforms. */
  lemma SyncAllSucceeds(env: Environment, timestamp: string)
    ensures forall a :: a in GetAllAdapters(env) ==>
      FullSync(BaseOf(a).platform, ListProductsOf(a), SyncOrdersOf(a), timestamp).result ==
        SyncResult(BaseOf(a).platform, true, Some(0), Some(0), None, timestamp)
  {
  }
}
