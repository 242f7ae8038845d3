/** ProductService: lookup by id and the three relation lists built on the connection builder. */
module ProductService {
  import opened Wrappers
  import opened Types
  import opened ArrayOps
  import opened BaseService

  const FrequentlyBoughtTogetherFirst: nat := 5

  function Products(data: Data<Product>): seq<Product> {
    Items(data, "products")
  }

  /** getProductById: validateId, then findById over `products`. */
  function GetProductById(data: Data<Product>, id: string): (r: Result<Product>)
    ensures IsBlank(id) ==> r == Err(EmptyId)
    ensures !IsBlank(id) ==> r == FindById(data, ProductId, id, "products")
    ensures r.Ok? ==> r.value.id == id && r.value in Products(data)
  {
    var _ :- ValidateId(id, None);
    FindById(data, ProductId, id, "products")
  }

  /** The filter of getSameSellerProducts: same seller as the reference, not the reference. */
  function SameSellerOf(products: seq<Product>, ref: Product, id: string): (r: seq<Product>)
    ensures forall p :: p in r ==> p in products && p.seller.id == ref.seller.id && p.id != id
    ensures forall j :: 0 <= j < |products| && products[j].seller.id == ref.seller.id && products[j].id != id
                        ==> products[j] in r
  {
    Filter(products, (p: Product) => p.seller.id == ref.seller.id && p.id != id)
  }

  /** The filter of getRelatedProducts: same category as the reference, not the reference. */
  function SameCategoryOf(products: seq<Product>, ref: Product, id: string): (r: seq<Product>)
    ensures forall p :: p in r ==> p in products && p.category.id == ref.category.id && p.id != id
    ensures forall j :: 0 <= j < |products| && products[j].category.id == ref.category.id && products[j].id != id
                        ==> products[j] in r
  {
    Filter(products, (p: Product) => p.category.id == ref.category.id && p.id != id)
  }

  /** The filter of getFrequentlyBoughtTogether: same category, not the reference, other seller. */
  function BoughtTogetherOf(products: seq<Product>, ref: Product, id: string): (r: seq<Product>)
    ensures forall p :: p in r ==> p in products && p.category.id == ref.category.id && p.id != id
                                   && p.seller.id != ref.seller.id
    ensures forall j :: 0 <= j < |products| && products[j].category.id == ref.category.id
                        && products[j].id != id && products[j].seller.id != ref.seller.id
                        ==> products[j] in r
  {
    Filter(products, (p: Product) => p.category.id == ref.category.id && p.id != id && p.seller.id != ref.seller.id)
  }

  /** The frequently-bought-together candidates are among the related candidates, each at most
      as often. */
  lemma BoughtTogetherWithinRelated(products: seq<Product>, ref: Product, id: string)
    ensures multiset(BoughtTogetherOf(products, ref, id)) <= multiset(SameCategoryOf(products, ref, id))
  {
    var pf := (p: Product) => p.category.id == ref.category.id && p.id != id && p.seller.id != ref.seller.id;
    var pr := (p: Product) => p.category.id == ref.category.id && p.id != id;
    assert BoughtTogetherOf(products, ref, id) == Filter(products, pf);
    assert SameCategoryOf(products, ref, id) == Filter(products, pr);
    forall x ensures multiset(Filter(products, pf))[x] <= multiset(Filter(products, pr))[x] {
      FilterMultiset(products, pf, x);
      FilterMultiset(products, pr, x);
    }
  }

  /** The list getSameSellerProducts paginates. */
  function SameSellerProducts(data: Data<Product>, id: string): (r: Result<seq<Product>>)
    ensures r.Err? <==> GetProductById(data, id).Err?
    ensures r.Err? ==> r.error == GetProductById(data, id).error
    ensures r.Ok? ==> r.value == SameSellerOf(Products(data), GetProductById(data, id).value, id)
  {
    var _ :- ValidateId(id, None);
    var product :- GetProductById(data, id);
    Ok(SameSellerOf(Products(data), product, id))
  }

  /** The list getRelatedProducts paginates: the same-category products, best sellers first. */
  function RelatedProducts(data: Data<Product>, id: string): (r: Result<seq<Product>>)
    ensures r.Err? <==> GetProductById(data, id).Err?
    ensures r.Err? ==> r.error == GetProductById(data, id).error
    ensures r.Ok? ==> r.value == SortDesc(SameCategoryOf(Products(data), GetProductById(data, id).value, id), SoldQuantity)
  {
    var _ :- ValidateId(id, None);
    var product :- GetProductById(data, id);
    Ok(SortDesc(SameCategoryOf(Products(data), product, id), SoldQuantity))
  }

  /** The list getFrequentlyBoughtTogether paginates, ordered by a score given by the caller
      (calculateProductScore is floating point and is not part of this model). */
  function BoughtTogetherProducts(data: Data<Product>, id: string, score: Product -> int): (r: Result<seq<Product>>)
    ensures r.Err? <==> GetProductById(data, id).Err?
    ensures r.Err? ==> r.error == GetProductById(data, id).error
    ensures r.Ok? ==> r.value == SortDesc(BoughtTogetherOf(Products(data), GetProductById(data, id).value, id), score)
  {
    var _ :- ValidateId(id, None);
    var product :- GetProductById(data, id);
    Ok(SortDesc(BoughtTogetherOf(Products(data), product, id), score))
  }

  function GetSameSellerProducts(data: Data<Product>, id: string, pagination: Option<PaginationOptions>)
    : (r: Result<Connection<Product>>)
    ensures r.Ok? <==> SameSellerProducts(data, id).Ok?
    ensures r.Ok? ==> r.value == CreateConnection(SameSellerProducts(data, id).value, ProductId, Paging(pagination, DefaultFirst))
  {
    var items :- SameSellerProducts(data, id);
    Ok(CreateConnection(items, ProductId, Paging(pagination, DefaultFirst)))
  }

  function GetRelatedProducts(data: Data<Product>, id: string, pagination: Option<PaginationOptions>)
    : (r: Result<Connection<Product>>)
    ensures r.Ok? <==> RelatedProducts(data, id).Ok?
    ensures r.Ok? ==> r.value == CreateConnection(RelatedProducts(data, id).value, ProductId, Paging(pagination, DefaultFirst))
  {
    var items :- RelatedProducts(data, id);
    Ok(CreateConnection(items, ProductId, Paging(pagination, DefaultFirst)))
  }

  function GetFrequentlyBoughtTogether(data: Data<Product>, id: string, pagination: Option<PaginationOptions>,
                                       score: Product -> int): (r: Result<Connection<Product>>)
    ensures r.Ok? <==> BoughtTogetherProducts(data, id, score).Ok?
    ensures r.Ok? ==> r.value == CreateConnection(BoughtTogetherProducts(data, id, score).value, ProductId,
                                                  Paging(pagination, FrequentlyBoughtTogetherFirst))
  {
    var items :- BoughtTogetherProducts(data, id, score);
    Ok(CreateConnection(items, ProductId, Paging(pagination, FrequentlyBoughtTogetherFirst)))
  }

  /** getAllProducts: the whole collection in load order, without id validation; an empty
      connection (not an error) when the data is not loaded. */
  function GetAllProducts(data: Data<Product>, pagination: Option<PaginationOptions>): (c: Connection<Product>)
    ensures c == CreateConnection(Products(data), ProductId, Paging(pagination, DefaultFirst))
    ensures c.totalCount == |Products(data)|
    ensures data.None? ==> c.totalCount == 0 && c.edges == [] && !c.pageInfo.hasNextPage && !c.pageInfo.hasPreviousPage
  {
    CreateConnection(Products(data), ProductId, Paging(pagination, DefaultFirst))
  }

  // ----- Properties of the relation queries -----

  /** None of the three relation lists contains a product with the reference id. */
  lemma RelationsExcludeReference(data: Data<Product>, id: string, score: Product -> int)
    ensures SameSellerProducts(data, id).Ok? ==> forall p :: p in SameSellerProducts(data, id).value ==> p.id != id
    ensures RelatedProducts(data, id).Ok? ==> forall p :: p in RelatedProducts(data, id).value ==> p.id != id
    ensures BoughtTogetherProducts(data, id, score).Ok? ==>
              forall p :: p in BoughtTogetherProducts(data, id, score).value ==> p.id != id
  {
    if RelatedProducts(data, id).Ok? {
      var ref := GetProductById(data, id).value;
      var s := SameCategoryOf(Products(data), ref, id);
      forall p | p in SortDesc(s, SoldQuantity) ensures p.id != id {
        assert p in multiset(SortDesc(s, SoldQuantity));
      }
    }
    if BoughtTogetherProducts(data, id, score).Ok? {
      var ref := GetProductById(data, id).value;
      var s := BoughtTogetherOf(Products(data), ref, id);
      forall p | p in SortDesc(s, score) ensures p.id != id {
        assert p in multiset(SortDesc(s, score));
      }
    }
  }

  /** So no connection returned by a relation query has an edge for the reference product. */
  lemma RelationPagesExcludeReference(data: Data<Product>, id: string, pagination: Option<PaginationOptions>,
                                      score: Product -> int)
    ensures var r := GetSameSellerProducts(data, id, pagination);
            r.Ok? ==> forall k :: 0 <= k < |r.value.edges| ==> r.value.edges[k].node.id != id
    ensures var r := GetRelatedProducts(data, id, pagination);
            r.Ok? ==> forall k :: 0 <= k < |r.value.edges| ==> r.value.edges[k].node.id != id
    ensures var r := GetFrequentlyBoughtTogether(data, id, pagination, score);
            r.Ok? ==> forall k :: 0 <= k < |r.value.edges| ==> r.value.edges[k].node.id != id
  {
    RelationsExcludeReference(data, id, score);
    var s1, s2, s3 := SameSellerProducts(data, id), RelatedProducts(data, id), BoughtTogetherProducts(data, id, score);
    if s1.Ok? {
      ConnectionNodesFromItems(s1.value, ProductId, Paging(pagination, DefaultFirst));
    }
    if s2.Ok? {
      ConnectionNodesFromItems(s2.value, ProductId, Paging(pagination, DefaultFirst));
    }
    if s3.Ok? {
      ConnectionNodesFromItems(s3.value, ProductId, Paging(pagination, FrequentlyBoughtTogetherFirst));
    }
  }

  /** getRelatedProducts is ordered by soldQuantity, largest first, ties in load order and with
      every same-category product as often as it is stored. */
  lemma RelatedProductsOrder(data: Data<Product>, id: string, k: int, x: Product)
    requires RelatedProducts(data, id).Ok?
    ensures var ref := GetProductById(data, id).value;
            var r := RelatedProducts(data, id).value;
            && SortedDesc(r, SoldQuantity)
            && WithKey(r, SoldQuantity, k) == WithKey(SameCategoryOf(Products(data), ref, id), SoldQuantity, k)
            && multiset(r)[x] == if x.category.id == ref.category.id && x.id != id then multiset(Products(data))[x] else 0
  {
    var ref := GetProductById(data, id).value;
    var s := SameCategoryOf(Products(data), ref, id);
    SortDescSorted(s, SoldQuantity);
    SortDescStable(s, SoldQuantity, k);
    FilterMultiset(Products(data), (p: Product) => p.category.id == ref.category.id && p.id != id, x);
  }

  /** Every relation query fails, before any filtering, exactly when the reference product
      cannot be fetched; an unknown id gives NotFound. */
  lemma RelationsNeedReference(data: Data<Product>, id: string, pagination: Option<PaginationOptions>,
                               score: Product -> int)
    requires !IsBlank(id) && data.Some? && "products" in data.value
    requires forall j :: 0 <= j < |Products(data)| ==> Products(data)[j].id != id
    ensures GetSameSellerProducts(data, id, pagination) == Err(NotFound("products", id))
    ensures GetRelatedProducts(data, id, pagination) == Err(NotFound("products", id))
    ensures GetFrequentlyBoughtTogether(data, id, pagination, score) == Err(NotFound("products", id))
  {
  }
}
