/** CategoryService: lookups over the category tree, where each category carries its path
    from the root. */
module CategoryService {
  import opened Wrappers
  import opened Types
  import opened ArrayOps
  import opened BaseService

  function CategoryId(c: Category): string { c.id }

  /** getAllCategories: the stored collection in load order, [] when not loaded. */
  function GetAllCategories(data: Data<Category>): (r: seq<Category>)
    ensures data.None? ==> r == []
    ensures data.Some? && "categories" in data.value ==> r == data.value["categories"]
  {
    Items(data, "categories")
  }

  /** getCategoryById: validateId, then the first category with the id. */
  function GetCategoryById(data: Data<Category>, id: string): (r: Result<Category>)
    ensures IsBlank(id) ==> r == Err(EmptyId)
    ensures !IsBlank(id) ==> r == FindById(data, CategoryId, id, "categories")
    ensures r.Ok? ==> r.value.id == id && r.value in GetAllCategories(data)
  {
    var _ :- ValidateId(id, None);
    FindById(data, CategoryId, id, "categories")
  }

  /** A category is a child of parentId when the next-to-last entry of its path has that id. */
  predicate IsChildOf(c: Category, parentId: string) {
    |c.path| > 1 && c.path[|c.path| - 2].id == parentId
  }

  /** getChildCategories: the categories whose parent is parentId, in load order; parentId is
      not validated. */
  function GetChildCategories(data: Data<Category>, parentId: string): (r: seq<Category>)
    ensures forall c :: c in r ==> c in GetAllCategories(data) && IsChildOf(c, parentId)
    ensures forall j :: 0 <= j < |GetAllCategories(data)| && IsChildOf(GetAllCategories(data)[j], parentId)
                        ==> GetAllCategories(data)[j] in r
  {
    Filter(GetAllCategories(data), (c: Category) => IsChildOf(c, parentId))
  }

  /** No child has a path of length 1 or less, and an id no path names yields no children. */
  lemma ChildrenHaveParents(data: Data<Category>, parentId: string)
    ensures forall c :: c in GetChildCategories(data, parentId) ==> |c.path| >= 2
    ensures (forall j :: 0 <= j < |GetAllCategories(data)| ==> !IsChildOf(GetAllCategories(data)[j], parentId))
            ==> GetChildCategories(data, parentId) == []
  {
    if forall j :: 0 <= j < |GetAllCategories(data)| ==> !IsChildOf(GetAllCategories(data)[j], parentId) {
      FilterNone(GetAllCategories(data), (c: Category) => IsChildOf(c, parentId));
    }
  }

  /** getRootCategory: the category named by the first entry of the path of categoryId. An
      empty path makes `path[0].id` a TypeError. */
  function GetRootCategory(data: Data<Category>, categoryId: string): (r: Result<Category>)
    ensures GetCategoryById(data, categoryId).Err? ==> r == Err(GetCategoryById(data, categoryId).error)
    ensures GetCategoryById(data, categoryId).Ok? && |GetCategoryById(data, categoryId).value.path| == 0
            ==> r == Err(UndefinedProperty("id"))
    ensures GetCategoryById(data, categoryId).Ok? && |GetCategoryById(data, categoryId).value.path| > 0
            ==> r == GetCategoryById(data, GetCategoryById(data, categoryId).value.path[0].id)
    ensures r.Ok? ==> r.value in GetAllCategories(data) && exists c :: c in GetAllCategories(data) && c.id == categoryId
                                                              && |c.path| > 0 && r.value.id == c.path[0].id
  {
    var category :- GetCategoryById(data, categoryId);
    if |category.path| == 0 then Err(UndefinedProperty("id"))
    else GetCategoryById(data, category.path[0].id)
  }
}
