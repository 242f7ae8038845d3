/** The shapes of the catalog's records and of a paginated connection. Dates are integer
    timestamps; only the fields the services and resolvers use are kept. */
module Types {
  import opened Wrappers

  // ----- Pagination -----

  datatype PaginationOptions = PaginationOptions(first: Option<nat>, after: Option<string>)

  datatype PageInfo = PageInfo(
    hasNextPage: bool,
    hasPreviousPage: bool,
    startCursor: Option<string>,
    endCursor: Option<string>)

  datatype Edge<T> = Edge(node: T, cursor: string)

  datatype Connection<T> = Connection(edges: seq<Edge<T>>, pageInfo: PageInfo, totalCount: nat)

  // ----- Products, sellers, categories -----

  datatype Seller = Seller(id: string, name: string, reputation: real)

  /** A category and its path of ancestors, from the root down to the category itself. */
  datatype Category = Category(id: string, name: string, path: seq<Category>)

  datatype PriceInfo = PriceInfo(price: real, currency: string)

  datatype PaymentMethod = PaymentMethod(id: string, name: string)

  datatype Product = Product(
    id: string,
    title: string,
    category: Category,
    images: seq<string>,
    seller: Seller,
    priceInfo: PriceInfo,
    paymentMethods: seq<PaymentMethod>,
    soldQuantity: int)

  /** The fields of a product stub; None is a field that is undefined or null. */
  datatype PreviewFields = PreviewFields(
    title: Option<string>,
    images: Option<seq<string>>,
    category: Option<Category>,
    seller: Option<Seller>,
    priceInfo: Option<PriceInfo>,
    paymentMethods: Option<seq<PaymentMethod>>)

  /** The fields of a full product record, as copied onto a stub by Object.assign. */
  function FieldsOf(full: Product): PreviewFields {
    PreviewFields(Some(full.title), Some(full.images), Some(full.category), Some(full.seller),
                  Some(full.priceInfo), Some(full.paymentMethods))
  }

  /** A product stub embedded in a review or a question. The resolvers hydrate it in place;
      every assignment they make writes the id it already has, so the id is constant. */
  class ProductPreview {
    const id: string
    var title: Option<string>
    var images: Option<seq<string>>
    var category: Option<Category>
    var seller: Option<Seller>
    var priceInfo: Option<PriceInfo>
    var paymentMethods: Option<seq<PaymentMethod>>

    constructor (id: string, fields: PreviewFields)
      ensures this.id == id && Fields() == fields
    {
      this.id := id;
      title := fields.title;
      images := fields.images;
      category := fields.category;
      seller := fields.seller;
      priceInfo := fields.priceInfo;
      paymentMethods := fields.paymentMethods;
    }

    function Fields(): PreviewFields
      reads this
    {
      PreviewFields(title, images, category, seller, priceInfo, paymentMethods)
    }

    /** Object.assign(this, fields): overwrites all six fields. */
    method Assign(fields: PreviewFields)
      modifies this
      ensures Fields() == fields
    {
      title := fields.title;
      images := fields.images;
      category := fields.category;
      seller := fields.seller;
      priceInfo := fields.priceInfo;
      paymentMethods := fields.paymentMethods;
    }
  }

  // ----- Reviews and questions -----

  datatype Author = Author(id: string, name: string)

  datatype Review = Review(
    id: string,
    product: ProductPreview?,
    rating: int,
    date: int,
    author: Author)

  datatype RatingCounts = RatingCounts(
    oneStar: nat,
    twoStars: nat,
    threeStars: nat,
    fourStars: nat,
    fiveStars: nat)

  datatype RatingSummary = RatingSummary(
    averageRating: real,
    totalRatings: nat,
    ratings: RatingCounts)

  datatype QuestionStatus = Answered | Unanswered | Deleted

  datatype Answer = Answer(id: string, content: string, date: int, author: Author)

  datatype Question = Question(
    id: string,
    product: ProductPreview?,
    question: string,
    answer: Option<Answer>,
    date: int,
    author: Author,
    status: QuestionStatus)

  // Accessors passed to the generic connection builder (getItemId) and to the sorts.

  function ProductId(p: Product): string { p.id }
  function ReviewId(r: Review): string { r.id }
  function QuestionId(q: Question): string { q.id }
  function ReviewDate(r: Review): int { r.date }
  function QuestionDate(q: Question): int { q.date }
  function SoldQuantity(p: Product): int { p.soldQuantity }

  /** The id of the embedded product, or None when `product` is undefined. */
  function ReviewProductId(r: Review): Option<string> {
    if r.product == null then None else Some(r.product.id)
  }

  function QuestionProductId(q: Question): Option<string> {
    if q.product == null then None else Some(q.product.id)
  }
}
