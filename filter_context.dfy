/**
 * The shared filter store (app/context/FilterContext.tsx): one state cell
 * holding the genre, language and release-date filters, replaced as a whole.
 */
module FilterContext {
  import opened Wrappers

  /**
   * The filter triple. `releaseDate` is optional because one writer (the
   * filter menu's reset) stores an object without that field.
   */
  datatype Filters = Filters(genre: string, language: string, releaseDate: Option<string>)

  const All: string := "all"

  /** The filters a fresh provider starts with. */
  const InitialFilters: Filters := Filters(All, All, Some(All))

  const NoProviderMessage: string := "useFilters must be used within a FilterProvider"

  /** The state cell a `FilterProvider` owns; every consumer reads this one object. */
  class FilterStore {
    var filters: Filters

    constructor ()
      ensures filters == InitialFilters
    {
      filters := InitialFilters;
    }

    /** Replaces the whole triple: no per-field merge, no validation. */
    method SetFilters(f: Filters)
      modifies this
      ensures filters == f
    {
      filters := f;
    }
  }

  /** `useFilters()`: the enclosing provider's store, or the error raised outside any provider. */
  function UseFilters(context: Option<FilterStore>): (r: Result<FilterStore, string>)
    ensures context.Some? ==> r.Success? && r.value == context.value
    ensures context.None? ==> r.Failure? && r.error == NoProviderMessage
  {
    match context
    case Some(store) => Success(store)
    case None => Failure(NoProviderMessage)
  }

  /** Two consumers under the same provider read what the last `SetFilters` stored. */
  method ConsumersAgree(store: FilterStore, f: Filters) returns (seenA: Filters, seenB: Filters)
    modifies store
    ensures seenA == f && seenB == f && store.filters == f
  {
    store.SetFilters(f);
    var a := UseFilters(Some(store));
    var b := UseFilters(Some(store));
    seenA := a.value.filters;
    seenB := b.value.filters;
  }
}
