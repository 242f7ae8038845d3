/** The field resolvers of a question. `product` fetches the full record of the embedded stub,
    merges the stub's title over it and writes the merged fields back onto the stub. The fetch
    is getProductById: the per-request loader maps every id to getProductById too. */
module QuestionResolver {
  import opened Wrappers
  import opened Types
  import opened BaseService
  import ProductService

  const ProductError := "No se pudo obtener el producto de la pregunta"

  datatype MergedPreview = MergedPreview(
    id: string,
    title: string,
    images: seq<string>,
    category: Category,
    seller: Seller,
    priceInfo: PriceInfo,
    paymentMethods: seq<PaymentMethod>)

  /** The merged record: the stub's title when it is not null or undefined (`??`, so an empty
      title still wins), every other field from the full record. */
  function Merge(stubTitle: Option<string>, full: Product): (m: MergedPreview)
    ensures m.title == if stubTitle.Some? then stubTitle.value else full.title
    ensures m.id == full.id && m.images == full.images && m.category == full.category
    ensures m.seller == full.seller && m.priceInfo == full.priceInfo && m.paymentMethods == full.paymentMethods
  {
    MergedPreview(full.id, if stubTitle.Some? then stubTitle.value else full.title,
                  full.images, full.category, full.seller, full.priceInfo, full.paymentMethods)
  }

  /** The stub's fields after Object.assign(stub, merged). */
  function MergedFields(m: MergedPreview): PreviewFields {
    PreviewFields(Some(m.title), Some(m.images), Some(m.category), Some(m.seller), Some(m.priceInfo),
                  Some(m.paymentMethods))
  }

  /** `product`: fails with the fixed message when the stub is absent or the lookup fails;
      otherwise returns the merged record and leaves exactly it on the stub. */
  method ResolveProduct(question: Question, products: Data<Product>) returns (r: Result<MergedPreview>)
    modifies question.product
    ensures question.product == null ==> r == Err(ResolverFailed(ProductError))
    ensures question.product != null ==>
              var full := ProductService.GetProductById(products, question.product.id);
              && (full.Err? ==> r == Err(ResolverFailed(ProductError)) && unchanged(question.product))
              && (full.Ok? ==> r == Ok(Merge(old(question.product.title), full.value))
                               && question.product.Fields() == MergedFields(r.value))
  {
    if question.product == null {
      return Err(ResolverFailed(ProductError));
    }
    var p := question.product;
    var full := ProductService.GetProductById(products, p.id);
    if full.Err? {
      return Err(ResolverFailed(ProductError));
    }
    var merged := Merge(p.title, full.value);
    p.Assign(MergedFields(merged));
    return Ok(merged);
  }

  /** The merged record keeps the stub's id. */
  lemma MergeKeepsId(products: Data<Product>, stub: ProductPreview)
    requires ProductService.GetProductById(products, stub.id).Ok?
    ensures Merge(stub.title, ProductService.GetProductById(products, stub.id).value).id == stub.id
  {
  }

  /** Merging again over a stub that already holds the merged fields gives the same record. */
  lemma MergeIdempotent(stubTitle: Option<string>, full: Product)
    ensures Merge(MergedFields(Merge(stubTitle, full)).title, full) == Merge(stubTitle, full)
  {
  }

  /** An empty title on the stub still overrides the full title. */
  lemma EmptyTitleWins(full: Product)
    ensures Merge(Some(""), full).title == ""
    ensures Merge(None, full).title == full.title
  {
  }

  /** Resolving the same question twice against an unchanged store gives the same result. */
  method ResolveProductTwice(question: Question, products: Data<Product>)
    returns (first: Result<MergedPreview>, second: Result<MergedPreview>)
    modifies question.product
    ensures first == second
  {
    first := ResolveProduct(question, products);
    second := ResolveProduct(question, products);
  }

  /** `author`: the author's id and name. */
  function ResolveAuthor(question: Question): (a: Author)
    ensures a.id == question.author.id && a.name == question.author.name
  {
    Author(question.author.id, question.author.name)
  }

  /** `answer`: the stored answer as it is, possibly absent. */
  function ResolveAnswer(question: Question): (a: Option<Answer>)
    ensures a == question.answer
  {
    question.answer
  }
}
