/** The `products` Vuex module of frontend/src/store/modules/products.ts: the catalogue list,
    the selected product, and the fetch and select actions. */
module FrontendProducts {
  import opened Nullable

  const LOAD_FAILED: string := "No se pudieron cargar los productos. Intenta de nuevo."

  datatype Product = Product(id: string, name: string, description: string, price: int, stock: int)

  datatype ProductsState = ProductsState(items: seq<Product>, selected: Option<Product>, loading: bool, error: Option<string>)

  datatype Mutation =
    | SetProducts(products: seq<Product>)
    | SetSelected(product: Product)
    | SetLoading(value: bool)
    | SetError(error: Option<string>)

  function InitialState(): ProductsState {
    ProductsState([], None, false, None)
  }

  /** The mutations table. */
  function Apply(s: ProductsState, m: Mutation): ProductsState {
    match m
    case SetProducts(ps) => s.(items := ps)
    case SetSelected(p) => s.(selected := Some(p))
    case SetLoading(v) => s.(loading := v)
    case SetError(e) => s.(error := e)
  }

  function ApplyAll(s: ProductsState, ms: seq<Mutation>): ProductsState
    decreases |ms|
  {
    if ms == [] then s else ApplyAll(Apply(s, ms[0]), ms[1..])
  }

  lemma {:induction false} ApplyAllAppend(s: ProductsState, a: seq<Mutation>, b: seq<Mutation>)
    ensures ApplyAll(s, a + b) == ApplyAll(ApplyAll(s, a), b)
    decreases |a|
  {
    if a == [] {
      assert a + b == b;
    } else {
      assert (a + b)[1..] == a[1..] + b;
      ApplyAllAppend(Apply(s, a[0]), a[1..], b);
    }
  }

  lemma ApplyAllPrefix(s: ProductsState, ms: seq<Mutation>, k: nat)
    requires k < |ms|
    ensures ApplyAll(s, ms[..k + 1]) == Apply(ApplyAll(s, ms[..k]), ms[k])
  {
    assert ms[..k + 1] == ms[..k] + [ms[k]];
    ApplyAllAppend(s, ms[..k], [ms[k]]);
    assert [ms[k]][1..] == [];
  }

  /** The commits of fetchProducts; `response` is the list the GET returned, or None when it failed. */
  function FetchCommits(response: Option<seq<Product>>): seq<Mutation> {
    [SetLoading(true), SetError(None)] +
    (if response.Some? then [SetProducts(response.value)] else [SetError(Some(LOAD_FAILED))]) +
    [SetLoading(false)]
  }

  /** After a fetch, loading is off; the list is replaced on success and kept on failure, where
      the error is set; the selection is untouched. */
  lemma {:induction false} FetchOutcome(s: ProductsState, response: Option<seq<Product>>)
    ensures var t := ApplyAll(s, FetchCommits(response));
      && !t.loading
      && t.selected == s.selected
      && t.items == (if response.Some? then response.value else s.items)
      && t.error == (if response.Some? then None else Some(LOAD_FAILED))
  {
    var ms := FetchCommits(response);
    assert |ms| == 4;
    assert ms[..0] == [] && ms[..4] == ms;
    ApplyAllPrefix(s, ms, 0);
    ApplyAllPrefix(s, ms, 1);
    ApplyAllPrefix(s, ms, 2);
    ApplyAllPrefix(s, ms, 3);
  }

  class ProductsStore {
    var items: seq<Product>
    var selected: Option<Product>
    var loading: bool
    var error: Option<string>
    ghost var commits: seq<Mutation>

    function State(): ProductsState
      reads this
    {
      ProductsState(items, selected, loading, error)
    }

    constructor ()
      ensures State() == InitialState() && commits == []
    {
      items, selected, loading, error := [], None, false, None;
      commits := [];
    }

    method Commit(m: Mutation)
      modifies this
      ensures State() == Apply(old(State()), m) && commits == old(commits) + [m]
    {
      match m {
        case SetProducts(ps) => items := ps;
        case SetSelected(p) => selected := Some(p);
        case SetLoading(v) => loading := v;
        case SetError(e) => error := e;
      }
      commits := commits + [m];
    }

    /** fetchProducts: one GET of /products. */
    method FetchProducts(response: Option<seq<Product>>)
      modifies this
      ensures commits == old(commits) + FetchCommits(response)
      ensures State() == ApplyAll(old(State()), FetchCommits(response))
      ensures !loading && selected == old(selected)
      ensures items == if response.Some? then response.value else old(items)
      ensures error == if response.Some? then None else Some(LOAD_FAILED)
    {
      ghost var s0 := State();
      Commit(SetLoading(true));
      Commit(SetError(None));
      if response.Some? {
        Commit(SetProducts(response.value));
      } else {
        Commit(SetError(Some(LOAD_FAILED)));
      }
      Commit(SetLoading(false));
      FetchOutcome(s0, response);
    }

    /** selectProduct: the product becomes the selection; nothing else changes. */
    method SelectProduct(product: Product)
      modifies this
      ensures State() == old(State()).(selected := Some(product))
      ensures commits == old(commits) + [SetSelected(product)]
    {
      Commit(SetSelected(product));
    }
  }
}
