/** Product records: the document `useAddProduct` writes, and the page/cursor state
    of `useProducts`. Prices and stock counts are mathematical numbers (`real`); the
    query itself runs in the document database and is not modelled. */
module Products {
  import opened JsUtil

  datatype Inventory = Inventory(total: real, sold: Option<real>, left: Option<real>)

  /** `TProduct`, without its timestamps. */
  datatype Product = Product(
    id: string,
    name: string,
    description: string,
    price: real,
    tags: Option<seq<string>>,
    inventory: Inventory,
    storeId: string,
    addedBy: string)

  /** `AddStoreDataPayload`: what the add-product page passes to `useAddProduct`. */
  datatype AddProductPayload = AddProductPayload(
    name: string,
    description: string,
    price: real,
    tags: Option<seq<string>>,
    availableStock: real)

  /** The product document for generated id `docId`, added to store `storeId` by the
      viewer with uid `viewerUid` (absent when nobody is signed in). */
  function NewProduct(docId: string, data: AddProductPayload, viewerUid: Option<string>, storeId: string): (p: Product)
    ensures p.id == docId && p.storeId == storeId
    ensures p.name == data.name && p.description == data.description && p.price == data.price
    ensures p.tags.Some?
    ensures data.tags.Some? && data.tags.value != [] ==> p.tags.value == data.tags.value
    ensures data.tags.None? || data.tags.value == [] ==> p.tags.value == []
    ensures p.inventory.sold == Some(0.0) && p.inventory.left == Some(data.availableStock)
    ensures p.inventory.total == data.availableStock
    ensures p.inventory.total == p.inventory.sold.value + p.inventory.left.value
    ensures viewerUid.Some? && viewerUid.value != "" ==> p.addedBy == viewerUid.value
    ensures viewerUid.None? || viewerUid.value == "" ==> p.addedBy == "missing"
  {
    Product(
      docId, data.name, data.description, data.price,
      Some(if data.tags.Some? && |data.tags.value| > 0 then data.tags.value else []),
      Inventory(data.availableStock, Some(0.0), Some(data.availableStock)),
      storeId, OrElse(viewerUid, "missing"))
  }

  /** `pageSize`: the query's limit. */
  const PageSize: nat := 4

  /** The `startAfter` argument: `null` on page 1, else `products[currentPage - 2]`,
      which is `undefined` when that index is past the end of the list. */
  datatype Cursor = NullCursor | After(product: Product) | UndefinedCursor

  function StartAfterDoc(currentPage: int, products: seq<Product>): (c: Cursor)
    ensures currentPage <= 1 <==> c == NullCursor
    ensures c.After? <==> 2 <= currentPage <= |products| + 1
    ensures c.After? ==> c.product == products[currentPage - 2]
  {
    if currentPage > 1 then
      (if currentPage - 2 < |products| then After(products[currentPage - 2]) else UndefinedCursor)
    else NullCursor
  }

  /** The state of `useProducts`: the current page and the last non-empty result. */
  class ProductPager {
    var currentPage: int
    var products: seq<Product>

    ghost predicate Valid()
      reads this
    {
      currentPage >= 1
    }

    constructor ()
      ensures Valid() && currentPage == 1 && products == []
    {
      currentPage := 1;
      products := [];
    }

    /** The cursor the next query starts after. */
    function Cursor(): Cursor
      reads this
    {
      StartAfterDoc(currentPage, products)
    }

    /** `fetchMore`: one page further; the list is left as it is. */
    method FetchMore()
      requires Valid()
      modifies this
      ensures Valid()
      ensures currentPage == old(currentPage) + 1 && products == old(products)
      ensures Cursor().After? ==> Cursor().product == products[old(currentPage) - 1]
    {
      currentPage := currentPage + 1;
    }

    /** The effect on a new query result: a non-empty result replaces the list, an empty
        one leaves the previous list on screen. */
    method OnResult(data: seq<Product>)
      requires Valid()
      modifies this
      ensures Valid() && currentPage == old(currentPage)
      ensures data != [] ==> products == data
      ensures data == [] ==> products == old(products)
    {
      if |data| > 0 {
        products := data;
      }
    }
  }

  /** Asking for page 2 starts after the FIRST product on screen: the cursor indexes the
      list by page number, and the list holds only the latest page. */
  lemma SecondPageCursorIsFirstProduct(products: seq<Product>)
    requires products != []
    ensures StartAfterDoc(2, products) == After(products[0])
    ensures |products| < 3 ==> StartAfterDoc(4, products) == UndefinedCursor
  {
  }
}
