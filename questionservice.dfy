/** QuestionService: a product's questions, newest first. */
module QuestionService {
  import opened Wrappers
  import opened Types
  import opened ArrayOps
  import opened BaseService
  import ProductService

  function Questions(data: Data<Question>): seq<Question> {
    Items(data, "questions")
  }

  /** The stored questions whose embedded product has the id, of every status, in load order. */
  function QuestionsOf(data: Data<Question>, id: string): Result<seq<Question>> {
    FilterByProduct(Questions(data), QuestionProductId, id)
  }

  /** The list getProductQuestions paginates: the id is validated, the product must exist in
      the product store, and its questions are sorted newest first. */
  function ProductQuestions(data: Data<Question>, products: Data<Product>, id: string): (r: Result<seq<Question>>)
    ensures IsBlank(id) ==> r == Err(EmptyId)
    ensures ProductService.GetProductById(products, id).Err? ==> r == Err(ProductService.GetProductById(products, id).error)
    ensures ProductService.GetProductById(products, id).Ok? ==> (r.Ok? <==> QuestionsOf(data, id).Ok?)
    ensures r.Ok? ==> r.value == SortDesc(QuestionsOf(data, id).value, QuestionDate)
  {
    var _ :- ValidateId(id, None);
    var _ :- ProductService.GetProductById(products, id);
    var own :- QuestionsOf(data, id);
    Ok(SortDesc(own, QuestionDate))
  }

  /** getProductQuestions. The `onlyAnswered` argument some callers pass is not a parameter. */
  function GetProductQuestions(data: Data<Question>, products: Data<Product>, id: string,
                               pagination: Option<PaginationOptions>): (r: Result<Connection<Question>>)
    ensures r.Ok? <==> ProductQuestions(data, products, id).Ok?
    ensures r.Err? ==> r.error == ProductQuestions(data, products, id).error
    ensures r.Ok? ==> r.value == CreateConnection(ProductQuestions(data, products, id).value, QuestionId,
                                                  Paging(pagination, DefaultFirst))
  {
    var items :- ProductQuestions(data, products, id);
    Ok(CreateConnection(items, QuestionId, Paging(pagination, DefaultFirst)))
  }

  /** The questions paged are exactly the product's, whatever their status, each as often as it
      is stored; newest first with equal dates in load order; totalCount is their number. */
  lemma ProductQuestionsContents(data: Data<Question>, products: Data<Product>, id: string,
                                 pagination: Option<PaginationOptions>, x: Question, date: int)
    requires GetProductQuestions(data, products, id, pagination).Ok?
    ensures var r := ProductQuestions(data, products, id).value;
            && multiset(r)[x] == (if QuestionProductId(x) == Some(id) then multiset(Questions(data))[x] else 0)
            && SortedDesc(r, QuestionDate)
            && WithKey(r, QuestionDate, date) == WithKey(QuestionsOf(data, id).value, QuestionDate, date)
            && GetProductQuestions(data, products, id, pagination).value.totalCount == |QuestionsOf(data, id).value|
  {
    var own := QuestionsOf(data, id).value;
    FilterByProductMultiset(Questions(data), QuestionProductId, id, x);
    SortDescSorted(own, QuestionDate);
    SortDescStable(own, QuestionDate, date);
  }

  /** An id unknown to the product store fails with NotFound, even when questions name it. */
  lemma UnknownProductFails(data: Data<Question>, products: Data<Product>, id: string,
                            pagination: Option<PaginationOptions>)
    requires !IsBlank(id) && products.Some? && "products" in products.value
    requires forall j :: 0 <= j < |ProductService.Products(products)| ==> ProductService.Products(products)[j].id != id
    ensures GetProductQuestions(data, products, id, pagination) == Err(NotFound("products", id))
  {
  }
}
