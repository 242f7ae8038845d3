/** The shared service logic: the connection builder (`createConnection`), the store lookup
    (`findById`) and id validation (`validateId`). A service's loaded document is an optional
    map from collection name to the collection; None means `initialize` never completed. */
module BaseService {
  import opened Wrappers
  import opened Types
  import opened ArrayOps

  type Data<T> = Option<map<string, seq<T>>>

  /** `this.data?.<collection> || []`: the stored collection, or [] when there is none. */
  function Items<T>(data: Data<T>, collection: string): seq<T> {
    if data.Some? && collection in data.value then data.value[collection] else []
  }

  // ----- createConnection -----

  const DefaultFirst: nat := 10

  /** The options a service passes on: its default `{ first: n }` when the caller gave none. */
  function Paging(pagination: Option<PaginationOptions>, defaultFirst: nat): (o: PaginationOptions)
    ensures pagination.Some? ==> o == pagination.value
    ensures pagination.None? ==> o.first == Some(defaultFirst) && o.after == None
  {
    pagination.GetOr(PaginationOptions(Some(defaultFirst), None))
  }

  /** JavaScript truthiness of an optional string: present and non-empty. */
  predicate Truthy(s: Option<string>) {
    s.Some? && s.value != ""
  }

  /** `first` after destructuring with its default. */
  function PageSize(options: PaginationOptions): nat {
    options.first.GetOr(DefaultFirst)
  }

  /** Where the page starts: just after the first item whose id is `after`, or at 0 when
      `after` is falsy or matches no item. */
  function StartIndex<T>(items: seq<T>, idOf: T -> string, after: Option<string>): (start: nat)
    ensures start <= |items|
    ensures !Truthy(after) ==> start == 0
    ensures Truthy(after) ==> (start == 0 <==> forall j :: 0 <= j < |items| ==> idOf(items[j]) != after.value)
    ensures start > 0 ==> idOf(items[start - 1]) == after.value
    ensures start > 0 ==> forall j :: 0 <= j < start - 1 ==> idOf(items[j]) != after.value
  {
    if Truthy(after) then
      var a := after.value;
      match FindIndex(items, x => idOf(x) == a)
      case Some(i) => i + 1
      case None => 0
    else 0
  }

  /** One edge per item, whose cursor is the item's id (getItemId). */
  function ToEdges<T>(page: seq<T>, idOf: T -> string): (edges: seq<Edge<T>>)
    ensures |edges| == |page|
    ensures forall k :: 0 <= k < |page| ==> edges[k].node == page[k] && edges[k].cursor == idOf(page[k])
  {
    seq(|page|, k requires 0 <= k < |page| => Edge(page[k], idOf(page[k])))
  }

  function Nodes<T>(edges: seq<Edge<T>>): (nodes: seq<T>)
    ensures |nodes| == |edges|
    ensures forall k :: 0 <= k < |edges| ==> nodes[k] == edges[k].node
  {
    seq(|edges|, k requires 0 <= k < |edges| => edges[k].node)
  }

  /** createConnection: the page of `items` after the cursor, its page info and the total. */
  function CreateConnection<T>(items: seq<T>, idOf: T -> string, options: PaginationOptions): (c: Connection<T>)
    ensures c.totalCount == |items|
    ensures |c.edges| <= PageSize(options)
    ensures |c.edges| <= |items|
  {
    var first := PageSize(options);
    var start := StartIndex(items, idOf, options.after);
    var end := if start + first < |items| then start + first else |items|;
    var edges := ToEdges(items[start..end], idOf);
    var hasNextPage := start + first < |items|;
    var hasPreviousPage := start > 0;
    var startCursor := if |edges| > 0 then Some(edges[0].cursor) else None;
    var endCursor := if |edges| > 0 then Some(edges[|edges| - 1].cursor) else None;
    Connection(
      edges,
      PageInfo(hasNextPage, hasPreviousPage,
               if hasPreviousPage then startCursor else None,
               if hasNextPage then endCursor else None),
      |items|)
  }

  function Min(a: int, b: int): int {
    if a < b then a else b
  }

  /** The edges are the items from the start index on, at most `first` of them, in input
      order, each with its id as cursor. */
  lemma ConnectionEdges<T>(items: seq<T>, idOf: T -> string, options: PaginationOptions)
    ensures var c := CreateConnection(items, idOf, options);
            var start := StartIndex(items, idOf, options.after);
            && |c.edges| == Min(PageSize(options), |items| - start)
            && Nodes(c.edges) == items[start .. start + |c.edges|]
            && forall k :: 0 <= k < |c.edges| ==> c.edges[k].cursor == idOf(c.edges[k].node)
  {
  }

  /** Every node of a connection is one of the items. */
  lemma ConnectionNodesFromItems<T>(items: seq<T>, idOf: T -> string, options: PaginationOptions)
    ensures var c := CreateConnection(items, idOf, options);
            forall k :: 0 <= k < |c.edges| ==> c.edges[k].node in items
  {
    var c := CreateConnection(items, idOf, options);
    var start := StartIndex(items, idOf, options.after);
    ConnectionEdges(items, idOf, options);
    forall k | 0 <= k < |c.edges| ensures c.edges[k].node in items {
      assert c.edges[k].node == items[start + k];
    }
  }

  /** hasNextPage, hasPreviousPage and totalCount, in terms of the start index. */
  lemma ConnectionFlags<T>(items: seq<T>, idOf: T -> string, options: PaginationOptions)
    ensures var c := CreateConnection(items, idOf, options);
            var start := StartIndex(items, idOf, options.after);
            && (c.pageInfo.hasNextPage <==> start + PageSize(options) < |items|)
            && (c.pageInfo.hasPreviousPage <==> start > 0)
            && c.totalCount == |items|
  {
  }

  /** The cursors are filled in asymmetrically: startCursor only when there is a previous page,
      endCursor only when there is a next page, and each only when there is an edge. */
  lemma ConnectionCursors<T>(items: seq<T>, idOf: T -> string, options: PaginationOptions)
    ensures var c := CreateConnection(items, idOf, options);
            && (c.pageInfo.startCursor.Some? <==> c.pageInfo.hasPreviousPage && |c.edges| > 0)
            && (c.pageInfo.startCursor.Some? ==> c.pageInfo.startCursor.value == c.edges[0].cursor)
            && (c.pageInfo.endCursor.Some? <==> c.pageInfo.hasNextPage && |c.edges| > 0)
            && (c.pageInfo.endCursor.Some? ==> c.pageInfo.endCursor.value == c.edges[|c.edges| - 1].cursor)
            && (c.pageInfo.hasNextPage && PageSize(options) > 0 ==> |c.edges| > 0)
  {
  }

  /** Without a (truthy) cursor the page is the first `first` items and has no previous page. */
  lemma NoCursorFirstPage<T>(items: seq<T>, idOf: T -> string, options: PaginationOptions)
    requires !Truthy(options.after)
    ensures var c := CreateConnection(items, idOf, options);
            && Nodes(c.edges) == items[.. Min(PageSize(options), |items|)]
            && !c.pageInfo.hasPreviousPage
            && c.pageInfo.startCursor == None
  {
  }

  /** A cursor that is no item's id gives the same connection as no cursor at all. */
  lemma UnknownCursorFallsBack<T>(items: seq<T>, idOf: T -> string, first: Option<nat>, after: string)
    requires forall j :: 0 <= j < |items| ==> idOf(items[j]) != after
    ensures CreateConnection(items, idOf, PaginationOptions(first, Some(after)))
         == CreateConnection(items, idOf, PaginationOptions(first, None))
    ensures !CreateConnection(items, idOf, PaginationOptions(first, Some(after))).pageInfo.hasPreviousPage
  {
  }

  /** The id of item i, used as cursor, resumes right after the first item with that id. */
  lemma CursorResumesAfter<T>(items: seq<T>, idOf: T -> string, first: Option<nat>, i: nat)
    requires i < |items| && idOf(items[i]) != ""
    requires forall j :: 0 <= j < i ==> idOf(items[j]) != idOf(items[i])
    ensures StartIndex(items, idOf, Some(idOf(items[i]))) == i + 1
    ensures var c := CreateConnection(items, idOf, PaginationOptions(first, Some(idOf(items[i]))));
            && c.pageInfo.hasPreviousPage
            && (i + 1 < |items| && first.GetOr(DefaultFirst) > 0 ==> c.edges[0].node == items[i + 1])
  {
  }

  /** With the last item's id as cursor the page is empty, there is a previous page, and
      neither cursor is set. */
  lemma CursorAtLastItem<T>(items: seq<T>, idOf: T -> string, first: Option<nat>)
    requires |items| > 0 && idOf(items[|items| - 1]) != ""
    requires forall j :: 0 <= j < |items| - 1 ==> idOf(items[j]) != idOf(items[|items| - 1])
    ensures var c := CreateConnection(items, idOf, PaginationOptions(first, Some(idOf(items[|items| - 1]))));
            && c.edges == []
            && c.pageInfo.hasPreviousPage && !c.pageInfo.hasNextPage
            && c.pageInfo.startCursor == None && c.pageInfo.endCursor == None
  {
    CursorResumesAfter(items, idOf, first, |items| - 1);
  }

  ghost predicate UniqueIds<T>(items: seq<T>, idOf: T -> string) {
    forall i, j :: 0 <= i < j < |items| ==> idOf(items[i]) != idOf(items[j])
  }

  /** Round trip: when ids are unique and non-empty, passing a page's endCursor as `after`
      (with the same `first`) yields the page that starts right after it. */
  lemma EndCursorGivesNextPage<T>(items: seq<T>, idOf: T -> string, options: PaginationOptions)
    requires UniqueIds(items, idOf)
    requires forall j :: 0 <= j < |items| ==> idOf(items[j]) != ""
    requires CreateConnection(items, idOf, options).pageInfo.endCursor.Some?
    ensures var c := CreateConnection(items, idOf, options);
            var next := PaginationOptions(options.first, c.pageInfo.endCursor);
            StartIndex(items, idOf, next.after)
              == StartIndex(items, idOf, options.after) + PageSize(options)
  {
    var c := CreateConnection(items, idOf, options);
    var start := StartIndex(items, idOf, options.after);
    ConnectionEdges(items, idOf, options);
    var last := start + |c.edges| - 1;
    assert c.edges[|c.edges| - 1].node == items[last];
    assert |c.edges| == PageSize(options);
    CursorResumesAfter(items, idOf, options.first, last);
  }

  // ----- findById -----

  /** The first item of the named collection whose id is `id`. */
  function FindById<T>(data: Data<T>, idOf: T -> string, id: string, collection: string): (r: Result<T>)
    ensures data.None? ==> r == Err(NotLoaded)
    ensures data.Some? && collection !in data.value ==> r == Err(NoSuchCollection(collection))
    ensures data.Some? && collection in data.value ==>
              (r.Ok? <==> exists i :: 0 <= i < |data.value[collection]| && idOf(data.value[collection][i]) == id)
    ensures data.Some? && collection in data.value && r.Err? ==> r.error == NotFound(collection, id)
    ensures r.Ok? ==> idOf(r.value) == id
    ensures r.Ok? ==> exists i :: 0 <= i < |Items(data, collection)| && Items(data, collection)[i] == r.value
                       && forall j :: 0 <= j < i ==> idOf(Items(data, collection)[j]) != id
  {
    if data.None? then Err(NotLoaded)
    else if collection !in data.value then Err(NoSuchCollection(collection))
    else
      var items := data.value[collection];
      match FindIndex(items, x => idOf(x) == id)
      case Some(i) =>
        assert Items(data, collection)[i] == items[i];
        Ok(items[i])
      case None => Err(NotFound(collection, id))
  }

  // ----- validateId -----

  /** The characters String.prototype.trim removes: WhiteSpace and LineTerminator of ECMAScript. */
  predicate IsJsWhitespace(c: char) {
    c in {'\t', '\n', '\U{0B}', '\U{0C}', '\r', ' ', '\U{A0}', '\U{1680}',
          '\U{2000}', '\U{2001}', '\U{2002}', '\U{2003}', '\U{2004}', '\U{2005}', '\U{2006}',
          '\U{2007}', '\U{2008}', '\U{2009}', '\U{200A}', '\U{2028}', '\U{2029}', '\U{202F}',
          '\U{205F}', '\U{3000}', '\U{FEFF}'}
  }

  function TrimStart(s: string): string {
    if s != [] && IsJsWhitespace(s[0]) then TrimStart(s[1..]) else s
  }

  function TrimEnd(s: string): string {
    if s != [] && IsJsWhitespace(s[|s| - 1]) then TrimEnd(s[..|s| - 1]) else s
  }

  /** String.prototype.trim. */
  function Trim(s: string): string {
    TrimEnd(TrimStart(s))
  }

  predicate IsBlank(s: string) {
    forall i :: 0 <= i < |s| ==> IsJsWhitespace(s[i])
  }

  lemma {:induction false} TrimStartBlank(s: string)
    ensures TrimStart(s) == [] <==> IsBlank(s)
  {
    if s != [] && IsJsWhitespace(s[0]) {
      TrimStartBlank(s[1..]);
      assert IsBlank(s) <==> IsBlank(s[1..]) by {
        if IsBlank(s[1..]) {
          forall i | 0 <= i < |s| ensures IsJsWhitespace(s[i]) {
            if i > 0 { assert s[i] == s[1..][i - 1]; }
          }
        }
      }
    }
  }

  lemma {:induction false} TrimEndOfNonBlank(s: string)
    requires s == [] || !IsJsWhitespace(s[0])
    ensures TrimEnd(s) == [] <==> s == []
  {
    if s != [] && IsJsWhitespace(s[|s| - 1]) {
      assert |s| > 1;
      TrimEndOfNonBlank(s[..|s| - 1]);
    }
  }

  /** `id.trim() === ''` holds exactly when every character of the id is whitespace. */
  lemma TrimEmptyIffBlank(s: string)
    ensures Trim(s) == "" <==> IsBlank(s)
  {
    TrimStartBlank(s);
    var t := TrimStart(s);
    if t == [] {
      assert TrimEnd(t) == [];
    } else {
      TrimStartShape(s);
      TrimEndOfNonBlank(t);
    }
  }

  lemma {:induction false} TrimStartShape(s: string)
    ensures TrimStart(s) == [] || !IsJsWhitespace(TrimStart(s)[0])
  {
    if s != [] && IsJsWhitespace(s[0]) {
      TrimStartShape(s[1..]);
    }
  }

  /** validateId: the id must not be blank and, when a non-empty prefix is given, must start
      with it. */
  function ValidateId(id: string, prefix: Option<string>): (r: Result<()>)
    ensures r.Ok? <==> !IsBlank(id) && (Truthy(prefix) ==> prefix.value <= id)
    ensures IsBlank(id) ==> r == Err(EmptyId)
    ensures !IsBlank(id) && r.Err? ==> r == Err(BadPrefix(prefix.value))
  {
    TrimEmptyIffBlank(id);
    if Trim(id) == "" then Err(EmptyId)
    else if Truthy(prefix) && !(prefix.value <= id) then Err(BadPrefix(prefix.value))
    else Ok(())
  }

  /** An absent prefix and the empty prefix impose nothing beyond non-blankness. */
  lemma EmptyPrefixImposesNothing(id: string)
    ensures ValidateId(id, None) == ValidateId(id, Some(""))
    ensures ValidateId(id, None).Ok? <==> !IsBlank(id)
    ensures ValidateId("", None) == Err(EmptyId)
  {
  }
}
