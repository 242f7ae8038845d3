# challengeMELI product-page API, modelled in Dafny

This project models the core of a GraphQL product-detail backend. The backend serves
products, reviews, questions, categories and sellers from JSON documents loaded at start-up.
The model covers:

- **The connection builder** (`createConnection`). It turns an ordered list and
  `{ first, after }` into edges, page info and a total count. A cursor is the item's id.
- **The store lookup and id validation** (`findById`, `validateId`).
- **The list pipelines built on them**:
  - same-seller, related and frequently-bought-together products;
  - a product's reviews and questions, newest first;
  - the category-tree queries;
  - seller lookups and the seller score.
- **The rating summary** of a product. It is a loop that fills five buckets and keeps a running total.
- **The resolvers that hydrate embedded product stubs in place**:
  - the question→product merge with a title override;
  - the six lazy field accessors of a product preview;
  - the review→product pass-through.
- **The formatting of GraphQL errors** for the client.

Modules, one file each:

- `Wrappers`: `Option`, `Result` and the service errors with their messages.
- `Types`: the entities. The embedded product stub is a class (`ProductPreview`), because the resolvers write to it.
- `ArrayOps`: `findIndex` and `filter`, with the filter that reads `x.product.id`. Also the stable descending sort that `Array.prototype.sort` performs with a `b - a` comparator.
- `BaseService`, `ProductService`, `ReviewService`, `QuestionService`, `CategoryService`, `SellerService`: the services.
- `QuestionResolver`, `ProductPreviewResolver`, `ReviewResolver`: the field resolvers.
- `FormatError`: error formatting.

A service's loaded document is `Data<T>`, an optional map from collection name to collection.
`None` means that `initialize` never completed. Every service call is a function of that value
and of its arguments. A thrown error is an `Err` carrying the service's message. Reading
`x.product.id` when `x.product` is undefined is the JavaScript TypeError
`UndefinedProperty("id")`.

## Model

| member | source | states |
|---|---|---|
| BaseService.Paging | src/services/ProductService.ts:29-32 | a call without pagination uses the service default `{ first: n }`; given options are passed on as they are |
| BaseService.StartIndex | src/services/BaseService.ts:53-61 | the page starts at 0 for a falsy cursor or one that matches no item; otherwise it starts right after the first item whose id is the cursor |
| BaseService.ToEdges | src/services/BaseService.ts:67-70 | one edge per item, in order; each cursor is the item's id |
| BaseService.CreateConnection | src/services/BaseService.ts:48-88 | totalCount is the number of items; there are at most `first` edges and no more than there are items |
| BaseService.ConnectionEdges | src/services/BaseService.ts:52-70 | the edges are the items from the start index on, `min(first, count - start)` of them, in input order, each with its node's id as cursor |
| BaseService.ConnectionNodesFromItems | src/services/BaseService.ts:64-70 | every node of a connection is one of the input items |
| BaseService.ConnectionFlags | src/services/BaseService.ts:73-86 | hasNextPage iff start + first < count; hasPreviousPage iff start > 0; totalCount is the count, whatever first and after are |
| BaseService.ConnectionCursors | src/services/BaseService.ts:75-84 | startCursor is set iff there is a previous page and an edge, and is then the first edge's cursor; endCursor is set iff there is a next page and an edge, and is then the last edge's cursor |
| BaseService.NoCursorFirstPage | src/services/BaseService.ts:53-74 | without a truthy cursor the page is the first `first` items, with no previous page and no startCursor |
| BaseService.UnknownCursorFallsBack | src/services/BaseService.ts:56-61 | a cursor that is no item's id gives the same connection as no cursor, never an error, and no previous page |
| BaseService.CursorResumesAfter | src/services/BaseService.ts:57-59 | the id of the first item with that id, used as cursor, starts the page at the next item, and there is a previous page |
| BaseService.CursorAtLastItem | src/services/BaseService.ts:57-84 | with the last item's id as cursor: no edges, a previous page, no next page and neither cursor |
| BaseService.EndCursorGivesNextPage | src/services/BaseService.ts:57-84 | with unique non-empty ids, a page's endCursor passed as `after` starts the following page exactly `first` items later |
| BaseService.FindById | src/services/BaseService.ts:149-165 | fails when the data is not loaded, when the collection is missing, and (NotFound) exactly when no item has the id; otherwise returns the first item with the id |
| BaseService.TrimEmptyIffBlank | src/services/BaseService.ts:173 | `id.trim() === ''` holds exactly when every character is ECMAScript whitespace or a line terminator |
| BaseService.ValidateId | src/services/BaseService.ts:172-180 | accepts exactly the non-blank ids that start with the prefix when the prefix is non-empty; a blank id gives the empty-id error, any other rejection the prefix error |
| BaseService.EmptyPrefixImposesNothing | src/services/BaseService.ts:177 | an absent prefix and the empty prefix are the same and accept every non-blank id |
| ArrayOps.FindIndex | src/services/BaseService.ts:57 | returns the first index whose element satisfies the predicate; None iff no element does |
| ArrayOps.Filter | src/services/ProductService.ts:37-39 | keeps exactly the elements that satisfy the predicate, and no element from elsewhere |
| ArrayOps.FilterConcat | src/services/ProductService.ts:37-39 | filter keeps the input order: filtering a concatenation filters each part and joins the results in order |
| ArrayOps.FilterMultiset | src/services/ProductService.ts:37-39 | each kept element occurs as often as in the input; a rejected one does not occur |
| ArrayOps.FilterByProduct | src/services/ReviewService.ts:25 | fails with the TypeError exactly when some element has no embedded product; otherwise keeps exactly the elements whose product id is the id |
| ArrayOps.FilterByProductMultiset | src/services/ReviewService.ts:25 | each element of the product occurs as often as it is stored; no other element occurs |
| ArrayOps.FilterByProductConcat | src/services/ReviewService.ts:25 | over a concatenation the product filter succeeds iff it succeeds on both parts, and then joins their results in order |
| ArrayOps.FilterByProductNone | src/services/ReviewService.ts:42-44 | when every element names another product the result is empty |
| ArrayOps.SortDesc | src/services/ProductService.ts:63 | the sorted list is a permutation of its input |
| ArrayOps.SortDescSorted | src/services/ProductService.ts:63 | the sorted list is in non-increasing key order |
| ArrayOps.SortDescStable | src/services/ReviewService.ts:28 | elements with equal keys keep their input order |
| ArrayOps.SortDescUnique | src/services/ReviewService.ts:28 | any ordering of the input that is sorted and stable is this one |
| ProductService.GetProductById | src/services/ProductService.ts:18-21 | a blank id gives the empty-id error; otherwise the lookup in `products`, whose result has the id and is stored |
| ProductService.SameSellerOf | src/services/ProductService.ts:37-39 | exactly the stored products with the reference's seller id, other than the reference id |
| ProductService.SameCategoryOf | src/services/ProductService.ts:61-62 | exactly the stored products with the reference's category id, other than the reference id |
| ProductService.BoughtTogetherOf | src/services/ProductService.ts:85-89 | exactly the stored products with the reference's category id, another seller, and other than the reference id |
| ProductService.BoughtTogetherWithinRelated | src/services/ProductService.ts:85-89 | the frequently-bought-together candidates are a sub-multiset of the related candidates |
| ProductService.SameSellerProducts | src/services/ProductService.ts:33-39 | fails, with the same error, exactly when the reference product cannot be fetched; otherwise the same-seller filter in load order |
| ProductService.RelatedProducts | src/services/ProductService.ts:54-63 | fails exactly when the reference cannot be fetched; otherwise the same-category filter sorted by soldQuantity, largest first |
| ProductService.BoughtTogetherProducts | src/services/ProductService.ts:78-90 | fails exactly when the reference cannot be fetched; otherwise its filter sorted by the given score |
| ProductService.GetSameSellerProducts | src/services/ProductService.ts:29-42 | the connection over the same-seller list, default page size 10 |
| ProductService.GetRelatedProducts | src/services/ProductService.ts:50-66 | the connection over the related list, default page size 10 |
| ProductService.GetFrequentlyBoughtTogether | src/services/ProductService.ts:74-93 | the connection over the frequently-bought-together list, default page size 5 |
| ProductService.GetAllProducts | src/services/ProductService.ts:100-103 | the connection over the whole stored collection in load order, default page size 10, with no id validation; not loaded gives an empty connection with totalCount 0, not an error |
| ProductService.RelationsExcludeReference | src/services/ProductService.ts:37-89 | none of the three relation lists contains a product with the reference id |
| ProductService.RelationPagesExcludeReference | src/services/ProductService.ts:29-93 | no page returned by a relation query has the reference product as a node |
| ProductService.RelatedProductsOrder | src/services/ProductService.ts:61-63 | related products are sorted by soldQuantity and stable, and each same-category product occurs as often as it is stored |
| ProductService.RelationsNeedReference | src/services/ProductService.ts:33-80 | an id unknown to the store makes all three relation queries fail with NotFound |
| ReviewService.ProductReviews | src/services/ReviewService.ts:22-28 | a blank id fails first; otherwise the product's reviews (TypeError when one has no product) sorted newest first |
| ReviewService.GetProductReviews | src/services/ReviewService.ts:18-31 | the connection over the product's sorted reviews, failing exactly when that list does |
| ReviewService.ProductReviewsContents | src/services/ReviewService.ts:24-30 | the list holds exactly the product's reviews, each as often as stored, newest first with ties in load order; totalCount is their number |
| ReviewService.RatingSummaryOf | src/services/ReviewService.ts:38-97 | a blank id gives the empty-id error; it succeeds exactly when the review list does, and is then the summary of the product's reviews |
| ReviewService.GetRatingSummary | src/services/ReviewService.ts:38-97 | the loop's total and five buckets give exactly the rating summary of the product's reviews |
| ReviewService.StarsCount | src/services/ReviewService.ts:71-87 | the reviews with a rating in 1..5 are at most all reviews, and all of them exactly when every rating is in 1..5 |
| ReviewService.BucketsCount | src/services/ReviewService.ts:58-95 | the bucket sum is at most totalRatings, with equality iff every rating is in 1..5 |
| ReviewService.SumBounds | src/services/ReviewService.ts:66-69 | the total is non-negative for non-negative ratings and between n and 5n for ratings in 1..5 |
| ReviewService.AverageBounds | src/services/ReviewService.ts:90 | the exact average is non-negative for non-negative ratings and lies in [1, 5] when every rating is in 1..5 |
| ReviewService.SummaryMatchesPage | src/services/ReviewService.ts:38-42 | the summary succeeds exactly when the review page does, for every first and after, and totalRatings is that page's totalCount |
| ReviewService.NoReviewsAllZero | src/services/ReviewService.ts:44-56 | a product without reviews has average 0, total 0 and all five buckets 0 |
| QuestionService.ProductQuestions | src/services/QuestionService.ts:23-34 | a blank id fails; an id unknown to the product store fails with its error; otherwise the product's questions sorted newest first |
| QuestionService.GetProductQuestions | src/services/QuestionService.ts:19-37 | the connection over that list, failing exactly when it does |
| QuestionService.ProductQuestionsContents | src/services/QuestionService.ts:28-36 | the list holds exactly the product's questions of every status, each as often as stored, newest first with ties in load order; totalCount is their number |
| QuestionService.UnknownProductFails | src/services/QuestionService.ts:25-26 | an id unknown to the product store fails with NotFound, even when questions name it |
| CategoryService.GetAllCategories | src/services/CategoryService.ts:26-28 | the stored collection in load order, or the empty list when not loaded |
| CategoryService.GetCategoryById | src/services/CategoryService.ts:17-20 | a blank id gives the empty-id error; otherwise the lookup, whose result has the id and is stored |
| CategoryService.GetChildCategories | src/services/CategoryService.ts:35-41 | exactly the stored categories whose path has at least two entries and whose next-to-last entry has the parent id |
| CategoryService.ChildrenHaveParents | src/services/CategoryService.ts:36-40 | no child has a path shorter than 2; an id no path names yields the empty list |
| CategoryService.GetRootCategory | src/services/CategoryService.ts:48-52 | fails when the category lookup fails or its path is empty; otherwise the stored category named by the path's first entry |
| SellerService.GetSellerById | src/services/SellerService.ts:17-20 | a blank id gives the empty-id error; otherwise the lookup, whose result has the id and is stored |
| SellerService.GetAllSellers | src/services/SellerService.ts:26-28 | the stored collection, or the empty list when not loaded |
| SellerService.CalculateSellerScore | src/services/SellerService.ts:35-38 | always in [0, 100]; the identity on [0, 100]; below 0 gives 0 and above 100 gives 100 |
| SellerService.ScoreIdempotent | src/services/SellerService.ts:37 | clamping a clamped score changes nothing |
| Types.ProductPreview.Assign | src/graphql/resolvers/productPreview.ts:9 | Object.assign: the stub's six fields become the given ones |
| QuestionResolver.Merge | src/graphql/resolvers/question.ts:34-42 | id, images, category, seller, priceInfo and paymentMethods come from the full record; the title is the stub's when not null or undefined, else the full title |
| QuestionResolver.ResolveProduct | src/graphql/resolvers/question.ts:23-51 | an absent stub or a failed lookup gives the fixed error and leaves the stub as it was; otherwise returns the merged record and leaves exactly its fields on the stub |
| QuestionResolver.MergeKeepsId | src/graphql/resolvers/question.ts:31-35 | the merged record has the stub's id |
| QuestionResolver.MergeIdempotent | src/graphql/resolvers/question.ts:36-43 | merging over a stub that already holds the merged fields gives the same record |
| QuestionResolver.EmptyTitleWins | src/graphql/resolvers/question.ts:36 | an empty stub title still overrides; an absent one yields the full title |
| QuestionResolver.ResolveProductTwice | src/graphql/resolvers/question.ts:29-44 | resolving the same question twice against an unchanged store gives identical results |
| QuestionResolver.ResolveAuthor | src/graphql/resolvers/question.ts:14-18 | the author's id and name |
| QuestionResolver.ResolveAnswer | src/graphql/resolvers/question.ts:56-58 | the stored answer unchanged, possibly absent |
| ProductPreviewResolver.AfterMiss | src/graphql/resolvers/productPreview.ts:8-9 | a failed lookup leaves the stub's fields as they were |
| ProductPreviewResolver.Hydrate | src/graphql/resolvers/productPreview.ts:8-9 | returns the lookup by the stub's id; on success the stub holds the full record's fields, on failure it is unchanged |
| ProductPreviewResolver.Title | src/graphql/resolvers/productPreview.ts:6-11 | a non-empty title is returned with the stub unchanged; otherwise the lookup's title or error, with the stub hydrated on success |
| ProductPreviewResolver.Images | src/graphql/resolvers/productPreview.ts:12-17 | present images, even empty, are returned with the stub unchanged; otherwise the lookup's images or error, the stub hydrated on success |
| ProductPreviewResolver.GetCategory | src/graphql/resolvers/productPreview.ts:18-23 | a present category is returned with the stub unchanged; otherwise the lookup's category or error, the stub hydrated on success |
| ProductPreviewResolver.GetSeller | src/graphql/resolvers/productPreview.ts:24-29 | a present seller is returned with the stub unchanged; otherwise the lookup's seller or error, the stub hydrated on success |
| ProductPreviewResolver.GetPriceInfo | src/graphql/resolvers/productPreview.ts:30-35 | a present priceInfo is returned with the stub unchanged; otherwise the lookup's priceInfo or error, the stub hydrated on success |
| ProductPreviewResolver.PaymentMethods | src/graphql/resolvers/productPreview.ts:36-41 | present payment methods, even empty, are returned with the stub unchanged; otherwise the lookup's or its error, the stub hydrated on success |
| ProductPreviewResolver.MissHydratesAll | src/graphql/resolvers/productPreview.ts:9-15 | after a successful miss every field is the full record's, a title override included; the five non-title fields are then present, and the title is iff the full title is non-empty |
| ProductPreviewResolver.UnknownIdLeavesStub | src/graphql/resolvers/productPreview.ts:8-9 | an id unknown to the store fails with NotFound and leaves the stub's fields as they were |
| ProductPreviewResolver.ImagesThenTitle | src/graphql/resolvers/productPreview.ts:7-15 | resolving missing images overwrites a title override, so the title resolved next is the full record's |
| ReviewResolver.ResolveAuthor | src/graphql/resolvers/review.ts:8-12 | the author's id and name |
| ReviewResolver.ResolveProduct | src/graphql/resolvers/review.ts:17-24 | succeeds exactly when the embedded product is present, and returns that very object; otherwise only the fixed message |
| FormatError.FormatGraphQLError | src/graphql/errors/formatError.ts:3-25 | masks the message iff in production with code INTERNAL_SERVER_ERROR; keeps locations, path and every other extension; the code is the incoming one when truthy, else INTERNAL_SERVER_ERROR |
| FormatError.CodeAlwaysSet | src/graphql/errors/formatError.ts:20 | every formatted error carries a truthy code |
| FormatError.DevelopmentKeepsMessage | src/graphql/errors/formatError.ts:8-12 | outside production the message is never changed |
| FormatError.OwnCodesNotMasked | src/graphql/errors/formatError.ts:9-12 | INVALID_ARGUMENT, NOT_FOUND, UNAUTHORIZED and INTERNAL_ERROR are never masked and are kept |
| FormatError.MissingCodeUnmasked | src/graphql/errors/formatError.ts:9-20 | in production an error without a code keeps its message but reports INTERNAL_SERVER_ERROR, so formatting it again would mask it |
| FormatError.FormatIdempotent | src/graphql/errors/formatError.ts:14-22 | when the incoming code is truthy, formatting the formatted error again changes nothing |

## Left out

- Loading: `initialize`, `loadData` and the file and JSON I/O are left out. A service's data is the `Data<T>` parameter, with `None` for "not loaded".
- `getItemId` is the projection parameter `idOf` of the connection builder; every service passes the item's `id`.
- QuestionResolver.ResolveProduct: the per-request product loader and its batching are left out; the resolver calls `getProductById` directly. The server always installs the loader, and its batch function maps every id of a batch to `getProductById`, so one unknown id rejects the whole batch: in the server every sibling question resolved in the same batch fails too, while the model fails only the question whose id is unknown.
- Asynchrony, `Promise` wrappers, `console` logging and the `process.env` read are left out. The resolvers are synchronous, and formatting takes `isProduction` as a parameter.
- `calculateProductScore` and its floating-point weights are left out. The frequently-bought-together order is a sort by a score the caller supplies; its membership is modelled exactly.
- ReviewService.GetRatingSummary: `averageRating` is the exact quotient, without the one-decimal `toFixed` rounding.
- Dates are integer timestamps, so date parsing and invalid dates are left out.
- `first` is a natural number: a negative `first` and the way `slice` treats it are not modelled.
- The stored collections are values. That the sorts act on the filtered copy, and the store is not reordered, therefore holds by construction.
- A product stub holds only its id and the six fields the resolvers read. When `Object.assign` copies other fields of the full record (description, soldQuantity, …), that is not modelled. The id is a constant: every assignment writes the id the stub already has (`QuestionResolver.MergeKeepsId`).
- The `onlyAnswered` argument some callers pass to `getProductQuestions` is ignored by the service and is not a parameter.
- Ratings are integers; a non-integer rating is not modelled.
- The GraphQL error classes are not modelled; only their code strings are.
- The façade resolvers that forward to the services inside try/catch (`query.ts`, `product.ts`) are not part of this model.
- Reputation and prices are exact reals; floating-point rounding is not modelled.
