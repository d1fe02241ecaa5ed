/** The products view: pages of products merged into the accumulated list by
    id, one fetch per page change. */
module AllProducts {
  import opened Common
  import WooCommerce
  import Paging

  datatype Product = Product(
    id: int,
    name: string,
    price: string,
    regularPrice: string,
    salePrice: string,
    status: string,
    stockStatus: string)

  function ProductId(p: Product): int {
    p.id
  }

  class ProductsView {
    var products: seq<Product>
    var loading: bool
    var error: Option<string>
    var page: int
    var hasMore: bool

    /** The state on mount, before the first fetch. */
    constructor()
      ensures products == [] && loading && error == None && page == 1 && hasMore
    {
      products := [];
      loading := true;
      error := None;
      page := 1;
      hasMore := true;
    }

    /** `fetchProducts`: the current page merged in by id on success; on any
        failure the products are kept and the error shown. */
    method FetchProducts(reg: WooCommerce.Registry, net: Paging.PageQuery -> Outcome<seq<Product>>)
      modifies this
      ensures var o := Paging.LoadPage(reg.GetActiveServer(), "products", None, old(page), net);
        products == Paging.MergedAfter(old(products), o, ProductId) &&
        hasMore == Paging.HasMoreAfterLoad(old(hasMore), o) &&
        error == Paging.ErrorAfterLoad(o)
      ensures !loading && page == old(page)
    {
      loading := true;
      error := None;
      var active := reg.GetActiveServer();
      if active.None? {
        error := Some(ErrorText(PlainFailure(NoActiveServerMessage)));
        loading := false;
        return;
      }
      var response := net(Paging.QueryFor(active.value, "products", None, page));
      match response {
        case Ok(data) =>
          products := Paging.Merge(products, data, ProductId);
          hasMore := Paging.HasMoreAfter(data);
          loading := false;
        case Err(e) =>
          error := Some(ErrorText(e));
          loading := false;
      }
    }

    /** `loadMore`: the next page, and the one fetch its `[page]` effect runs. */
    method LoadMore(reg: WooCommerce.Registry, net: Paging.PageQuery -> Outcome<seq<Product>>)
      modifies this
      ensures page == old(page) + 1
      ensures var o := Paging.LoadPage(reg.GetActiveServer(), "products", None, old(page) + 1, net);
        products == Paging.MergedAfter(old(products), o, ProductId) &&
        hasMore == Paging.HasMoreAfterLoad(old(hasMore), o) &&
        error == Paging.ErrorAfterLoad(o) && !loading
    {
      page := page + 1;
      FetchProducts(reg, net);
    }
  }

  /** Loading a page whose products are all known already changes nothing but
      `hasMore`: a page fetched twice is merged once. */
  lemma RefetchChangesNothing(prev: seq<Product>, page: seq<Product>)
    ensures Paging.MergedAfter(Paging.MergedAfter(prev, Ok(page), ProductId), Ok(page), ProductId) ==
            Paging.MergedAfter(prev, Ok(page), ProductId)
  {
    Paging.MergeIdempotent(prev, page, ProductId);
  }

  /** With no active profile the products stay as they are and the banner
      names the missing profile. */
  lemma NoActiveServerKeepsProducts(prev: seq<Product>, page: int, net: Paging.PageQuery -> Outcome<seq<Product>>)
    ensures var o := Paging.LoadPage(None, "products", None, page, net);
      Paging.MergedAfter(prev, o, ProductId) == prev &&
      Paging.ErrorAfterLoad(o) == Some(NoActiveServerMessage)
  {
  }
}
