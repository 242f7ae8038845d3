/** The field resolvers of a review: its author and its embedded product. */
module ReviewResolver {
  import opened Wrappers
  import opened Types

  const ProductError := "No se pudo obtener el producto de la rese\U{f1}a"

  /** `author`: the author's id and name. */
  function ResolveAuthor(review: Review): (a: Author)
    ensures a.id == review.author.id && a.name == review.author.name
  {
    Author(review.author.id, review.author.name)
  }

  /** `product`: the embedded product object itself, with no lookup or merge; a missing product
      surfaces only the fixed message, never the internal one. */
  function ResolveProduct(review: Review): (r: Result<ProductPreview>)
    ensures review.product != null <==> r.Ok?
    ensures r.Ok? ==> r.value == review.product
    ensures r.Err? ==> r.error == ResolverFailed(ProductError) && r.error.Message() == ProductError
  {
    if review.product != null then Ok(review.product) else Err(ResolverFailed(ProductError))
  }
}
