/** The platform-facing records: platform ids, listed products and orders, and the outcome of a sync. */
module PlatformTypes {
  import opened Wrappers

  datatype PlatformType = Etsy | Medusa | Aukro | Other

  /** The id string each platform type is written as. */
  function PlatformId(p: PlatformType): string
  {
    match p
    case Etsy => "etsy"
    case Medusa => "medusa"
    case Aukro => "aukro"
    case Other => "other"
  }

  datatype PlatformProduct = PlatformProduct(id: string, title: string, description: string, price: real,
                                             images: seq<string>, status: string,
                                             platformId: Option<string>, platformUrl: Option<string>)

  datatype PlatformOrder = PlatformOrder(id: string, productId: string, platformOrderId: string,
                                         buyerName: string, buyerEmail: string, salePrice: real,
                                         platformFees: real, status: string, orderDate: string)

  /** What `createProduct` resolves to: the new listing's id and, optionally, its URL. */
  datatype CreatedProduct = CreatedProduct(id: string, url: Option<string>)

  /** A value a platform call rejected with: an `Error` with its message, or anything else. */
  datatype Thrown = ErrorObject(message: string) | OtherValue

  /** `SyncResult`; absent optional fields are `None`. */
  datatype SyncResult = SyncResult(platform: PlatformType, success: bool, productsSynced: Option<nat>,
                                   ordersSynced: Option<nat>, errors: Option<seq<string>>, timestamp: string)
}
