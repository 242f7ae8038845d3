/** The six field resolvers of a product stub. Each returns the stub's field when it is set
    (truthy); otherwise it fetches the full product by the stub's id, copies the whole record
    onto the stub and returns the full record's field. A failed fetch throws before the copy. */
module ProductPreviewResolver {
  import opened Wrappers
  import opened Types
  import opened BaseService
  import ProductService

  /** Truthiness of a title: set and not the empty string. */
  predicate TitleSet(title: Option<string>) {
    title.Some? && title.value != ""
  }

  /** The stub's fields after a miss: the full record's when the fetch succeeds, else as they were. */
  function AfterMiss(products: Data<Product>, id: string, before: PreviewFields): (f: PreviewFields)
    ensures ProductService.GetProductById(products, id).Err? ==> f == before
  {
    match ProductService.GetProductById(products, id)
    case Ok(full) => FieldsOf(full)
    case Err(_) => before
  }

  /** Fetches the full product and copies it onto the stub (Object.assign). */
  method Hydrate(product: ProductPreview, products: Data<Product>) returns (r: Result<Product>)
    modifies product
    ensures r == ProductService.GetProductById(products, product.id)
    ensures product.Fields() == AfterMiss(products, product.id, old(product.Fields()))
  {
    r := ProductService.GetProductById(products, product.id);
    if r.Ok? {
      product.Assign(FieldsOf(r.value));
    }
  }

  method Title(product: ProductPreview, products: Data<Product>) returns (r: Result<string>)
    modifies product
    ensures TitleSet(old(product.title)) ==> r == Ok(old(product.title).value) && unchanged(product)
    ensures !TitleSet(old(product.title)) ==>
              && product.Fields() == AfterMiss(products, product.id, old(product.Fields()))
              && var full := ProductService.GetProductById(products, product.id);
                 r == if full.Ok? then Ok(full.value.title) else Err(full.error)
  {
    if TitleSet(product.title) {
      return Ok(product.title.value);
    }
    var full := Hydrate(product, products);
    if full.Err? {
      return Err(full.error);
    }
    return Ok(full.value.title);
  }

  method Images(product: ProductPreview, products: Data<Product>) returns (r: Result<seq<string>>)
    modifies product
    ensures old(product.images).Some? ==> r == Ok(old(product.images).value) && unchanged(product)
    ensures old(product.images).None? ==>
              && product.Fields() == AfterMiss(products, product.id, old(product.Fields()))
              && var full := ProductService.GetProductById(products, product.id);
                 r == if full.Ok? then Ok(full.value.images) else Err(full.error)
  {
    if product.images.Some? {
      return Ok(product.images.value);
    }
    var full := Hydrate(product, products);
    if full.Err? {
      return Err(full.error);
    }
    return Ok(full.value.images);
  }

  method GetCategory(product: ProductPreview, products: Data<Product>) returns (r: Result<Category>)
    modifies product
    ensures old(product.category).Some? ==> r == Ok(old(product.category).value) && unchanged(product)
    ensures old(product.category).None? ==>
              && product.Fields() == AfterMiss(products, product.id, old(product.Fields()))
              && var full := ProductService.GetProductById(products, product.id);
                 r == if full.Ok? then Ok(full.value.category) else Err(full.error)
  {
    if product.category.Some? {
      return Ok(product.category.value);
    }
    var full := Hydrate(product, products);
    if full.Err? {
      return Err(full.error);
    }
    return Ok(full.value.category);
  }

  method GetSeller(product: ProductPreview, products: Data<Product>) returns (r: Result<Seller>)
    modifies product
    ensures old(product.seller).Some? ==> r == Ok(old(product.seller).value) && unchanged(product)
    ensures old(product.seller).None? ==>
              && product.Fields() == AfterMiss(products, product.id, old(product.Fields()))
              && var full := ProductService.GetProductById(products, product.id);
                 r == if full.Ok? then Ok(full.value.seller) else Err(full.error)
  {
    if product.seller.Some? {
      return Ok(product.seller.value);
    }
    var full := Hydrate(product, products);
    if full.Err? {
      return Err(full.error);
    }
    return Ok(full.value.seller);
  }

  method GetPriceInfo(product: ProductPreview, products: Data<Product>) returns (r: Result<PriceInfo>)
    modifies product
    ensures old(product.priceInfo).Some? ==> r == Ok(old(product.priceInfo).value) && unchanged(product)
    ensures old(product.priceInfo).None? ==>
              && product.Fields() == AfterMiss(products, product.id, old(product.Fields()))
              && var full := ProductService.GetProductById(products, product.id);
                 r == if full.Ok? then Ok(full.value.priceInfo) else Err(full.error)
  {
    if product.priceInfo.Some? {
      return Ok(product.priceInfo.value);
    }
    var full := Hydrate(product, products);
    if full.Err? {
      return Err(full.error);
    }
    return Ok(full.value.priceInfo);
  }

  method PaymentMethods(product: ProductPreview, products: Data<Product>) returns (r: Result<seq<PaymentMethod>>)
    modifies product
    ensures old(product.paymentMethods).Some? ==> r == Ok(old(product.paymentMethods).value) && unchanged(product)
    ensures old(product.paymentMethods).None? ==>
              && product.Fields() == AfterMiss(products, product.id, old(product.Fields()))
              && var full := ProductService.GetProductById(products, product.id);
                 r == if full.Ok? then Ok(full.value.paymentMethods) else Err(full.error)
  {
    if product.paymentMethods.Some? {
      return Ok(product.paymentMethods.value);
    }
    var full := Hydrate(product, products);
    if full.Err? {
      return Err(full.error);
    }
    return Ok(full.value.paymentMethods);
  }

  /** After a successful miss on any field every field holds the full record's value, the title
      included: a title override on the stub is lost. The five non-title fields are then set,
      and so is the title unless the full title is empty, so later accessors fetch nothing. */
  lemma MissHydratesAll(products: Data<Product>, id: string, before: PreviewFields)
    requires ProductService.GetProductById(products, id).Ok?
    ensures var full := ProductService.GetProductById(products, id).value;
            var f := AfterMiss(products, id, before);
            && f == FieldsOf(full)
            && f.title == Some(full.title)
            && f.images.Some? && f.category.Some? && f.seller.Some? && f.priceInfo.Some? && f.paymentMethods.Some?
            && (TitleSet(f.title) <==> full.title != "")
  {
  }

  /** An unknown id leaves the stub as it was and the accessor fails with NotFound. */
  lemma UnknownIdLeavesStub(products: Data<Product>, id: string, before: PreviewFields)
    requires !IsBlank(id) && products.Some? && "products" in products.value
    requires forall j :: 0 <= j < |ProductService.Products(products)| ==> ProductService.Products(products)[j].id != id
    ensures ProductService.GetProductById(products, id) == Err(NotFound("products", id))
    ensures AfterMiss(products, id, before) == before
  {
  }

  /** A stub with a title override and no images: resolving images first replaces the title,
      so the title resolved next is the full record's. */
  method ImagesThenTitle(product: ProductPreview, products: Data<Product>) returns (title: Result<string>)
    requires product.images.None?
    requires ProductService.GetProductById(products, product.id).Ok?
    modifies product
    ensures title == Ok(ProductService.GetProductById(products, product.id).value.title)
  {
    var _ := Images(product, products);
    title := Title(product, products);
  }
}
