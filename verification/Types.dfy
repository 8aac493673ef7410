/** The storefront's entities (types.ts), as values. */
module Types {

  datatype Option<+T> = None | Some(value: T)

  /** Which top-level page the application shows. */
  datatype Page = Store | UsedParts | Detail

  /** The three use cases offered by the recommendation wizard. */
  datatype UseCase = Gaming | Student | General

  /** The string value of each `UseCase` enum member. */
  function UseCaseLabel(u: UseCase): string
  {
    match u
    case Gaming => "Gaming"
    case Student => "Student"
    case General => "General Use"
  }

  datatype Question = Question(question: string, options: seq<string>)

  datatype Answer = Answer(question: string, answer: string)

  datatype ComponentSpec = ComponentSpec(name: string, spec: string)

  datatype PurchaseOption = PurchaseOption(vendor: string, link: string, price: int)

  datatype Review = Review(source: string, author: string, rating: real, content: string)

  datatype ProductType = CustomBuild | PrebuiltPC | Laptop

  /** The string each product type is written as. */
  function TypeName(t: ProductType): string
  {
    match t
    case CustomBuild => "Custom Build"
    case PrebuiltPC => "Prebuilt PC"
    case Laptop => "Laptop"
  }

  /** The store's filter choices: every product, or one product type. */
  datatype FilterType = All | OfType(productType: ProductType)

  datatype Tag = RecommendedForYou | GoodValue | HighPerformance

  function TagLabel(t: Tag): string
  {
    match t
    case RecommendedForYou => "Recommended for You"
    case GoodValue => "Good Value"
    case HighPerformance => "High Performance"
  }

  /**
   * A product. `purchaseOptions` is optional because the detail page guards
   * against a missing list; every other field is required by the schema.
   */
  datatype Product = Product(
    isBestMatch: bool,
    productType: ProductType,
    title: string,
    rationale: string,
    estimatedPriceINR: int,
    components: seq<ComponentSpec>,
    purchaseOptions: Option<seq<PurchaseOption>>,
    reviews: seq<Review>,
    imageUrl: string,
    tag: Option<Tag>)

  datatype Grade = A | B | C

  datatype UsedPart = UsedPart(
    id: string,
    component: string,
    grade: Grade,
    condition: string,
    price: int,
    imageUrl: string,
    details: string)

  /**
   * What a page sees when an awaited recommendation call settles: the call
   * threw, it resolved to a value whose `recommendations` is falsy (null),
   * or it resolved to a batch.
   */
  datatype Reply = Failed(message: string) | NoBatch | Batch(recommendations: seq<Product>)

  /** The titles of a list of products, in order. */
  function Titles(ps: seq<Product>): (r: seq<string>)
    ensures |r| == |ps|
    ensures forall i :: 0 <= i < |ps| ==> r[i] == ps[i].title
  {
    seq(|ps|, i requires 0 <= i < |ps| => ps[i].title)
  }
}
