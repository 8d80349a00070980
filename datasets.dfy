/**
 * The xarray datasets the extractors open and the formatters write, reduced to what
 * the tools look at: the variables with their attributes, the dimension names and the
 * values of the dimension coordinates. Values of the grids themselves are not modelled.
 */
module Datasets {
  import opened Wrappers

  /** The attributes of one variable (`DataArray.attrs`). */
  type Attrs = map<string, string>

  /**
   * A dataset: its variables (`data.variables`, coordinates included) with their
   * attributes, its dimension names (`data.dims`) and each coordinate's values.
   */
  datatype Dataset = Dataset(vars: map<string, Attrs>, dims: set<string>, coords: map<string, seq<real>>)

  /**
   * `[name for name in data.variables.keys() if name not in variable_names and name
   * not in data.dims]`: the variables an extractor drops.
   */
  function DropNames(ds: Dataset, requested: seq<string>): (drop: set<string>)
    ensures forall name :: name in drop <==> name in ds.vars && name !in requested && name !in ds.dims
  {
    set name | name in ds.vars && name !in requested && name !in ds.dims
  }

  /** `data.drop_vars(names)`: the dataset without the named variables and their coordinates. */
  function DropVars(ds: Dataset, names: set<string>): (r: Dataset)
    ensures r.dims == ds.dims
    ensures forall name :: name in r.vars <==> name in ds.vars && name !in names
    ensures forall name :: name in r.vars ==> r.vars[name] == ds.vars[name]
  {
    Dataset(map name | name in ds.vars && name !in names :: ds.vars[name], ds.dims, ds.coords - names)
  }

  /** The dataset an extractor keeps: the requested variables and the dimensions. */
  function KeepRequested(ds: Dataset, requested: seq<string>): Dataset {
    DropVars(ds, DropNames(ds, requested))
  }

  /**
   * Keeping the requested variables leaves exactly the variables that were requested
   * or are dimensions, unchanged, and keeps every dimension coordinate.
   */
  lemma KeepRequestedSpec(ds: Dataset, requested: seq<string>)
    ensures var kept := KeepRequested(ds, requested);
      && kept.dims == ds.dims
      && (forall name :: name in kept.vars <==> name in ds.vars && (name in requested || name in ds.dims))
      && (forall name :: name in kept.vars ==> kept.vars[name] == ds.vars[name])
      && (forall dim :: dim in ds.dims && dim in ds.coords ==> dim in kept.coords && kept.coords[dim] == ds.coords[dim])
  {
  }

  /** Keeping twice with the same request keeps the same: the filter is idempotent. */
  lemma KeepRequestedIdempotent(ds: Dataset, requested: seq<string>)
    ensures KeepRequested(KeepRequested(ds, requested), requested) == KeepRequested(ds, requested)
  {
    var once := KeepRequested(ds, requested);
    var twice := KeepRequested(once, requested);
    assert twice.vars == once.vars;
    assert twice.coords == once.coords by {
      assert DropNames(once, requested) == {};
    }
  }

  /**
   * What a generator produced before it stopped: the items it yielded, in order, and
   * the error it raised, if any.
   */
  datatype Stream<T> = Stream(items: seq<T>, failure: Option<string>)

  /** The stream of `items` yielded first and then whatever `rest` yields or raises. */
  function Prefixed<T>(items: seq<T>, rest: Stream<T>): Stream<T> {
    Stream(items + rest.items, rest.failure)
  }

  /** `yield from a` followed by `yield from b`: `b` runs only when `a` ends normally. */
  function Chain<T>(a: Stream<T>, b: Stream<T>): (r: Stream<T>)
    ensures a.failure.Some? ==> r == a
    ensures a.failure.None? ==> r.items == a.items + b.items && r.failure == b.failure
  {
    if a.failure.Some? then a else Prefixed(a.items, b)
  }

  /** Prefixing composes: `items` then `more` is the same as their concatenation. */
  lemma PrefixedTwice<T>(items: seq<T>, more: seq<T>, rest: Stream<T>)
    ensures Prefixed(items, Prefixed(more, rest)) == Prefixed(items + more, rest)
  {
    assert items + (more + rest.items) == (items + more) + rest.items;
  }
}
