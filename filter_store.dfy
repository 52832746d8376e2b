/** The product-listing filter selection: search text, three toggle lists, a price bracket, a sort key. */
module FilterStore {
  import Seqs

  /** `list.includes(v) ? list.filter(x => x !== v) : [...list, v]`. */
  function Toggle(list: seq<string>, v: string): (r: seq<string>)
    ensures forall x :: x in r <==> (if x == v then v !in list else x in list)
  {
    if v in list then Seqs.Filter(list, (x: string) => x != v) else list + [v]
  }

  /** Toggling an absent value appends it at the end. */
  lemma ToggleAbsent(list: seq<string>, v: string)
    requires v !in list
    ensures Toggle(list, v) == list + [v]
  {
  }

  /** Toggling a present value drops all its occurrences and keeps the others in order. */
  lemma TogglePresent(list: seq<string>, v: string)
    requires v in list
    ensures Toggle(list, v) == Seqs.Filter(list, (x: string) => x != v)
    ensures |Toggle(list, v)| < |list|
  {
    DropShortens(list, v);
  }

  lemma {:induction false} DropShortens(list: seq<string>, v: string)
    requires v in list
    ensures |Seqs.Filter(list, (x: string) => x != v)| < |list|
  {
    if list[0] != v {
      DropShortens(list[1..], v);
    }
  }

  /** Toggling an absent value twice restores the list exactly. */
  lemma ToggleTwiceRestores(list: seq<string>, v: string)
    requires v !in list
    ensures Toggle(Toggle(list, v), v) == list
  {
    var keep := (x: string) => x != v;
    Seqs.FilterAppend(list, [v], keep);
    Seqs.FilterKeepsAll(list, keep);
    assert Seqs.Filter([v], keep) == [];
  }

  /** Toggling keeps a duplicate-free list duplicate-free. */
  lemma ToggleKeepsDistinct(list: seq<string>, v: string)
    requires Seqs.NoDuplicates(list)
    ensures Seqs.NoDuplicates(Toggle(list, v))
  {
    if v in list {
      Seqs.FilterNoDuplicates(list, (x: string) => x != v);
    }
  }

  /** The filter store's fields; every setter and toggle overwrites exactly one of them. */
  class Filters {
    var searchQuery: string
    var selectedCategories: seq<string>
    var selectedGenders: seq<string>
    var selectedSizes: seq<string>
    var priceRange: string
    var sortBy: string
    var isFilterOpen: bool

    constructor ()
      ensures searchQuery == "" && selectedCategories == [] && selectedGenders == [] && selectedSizes == []
      ensures priceRange == "" && sortBy == "" && !isFilterOpen
    {
      searchQuery := "";
      selectedCategories := [];
      selectedGenders := [];
      selectedSizes := [];
      priceRange := "";
      sortBy := "";
      isFilterOpen := false;
    }

    method SetSearchQuery(query: string)
      modifies this`searchQuery
      ensures searchQuery == query
    {
      searchQuery := query;
    }

    method SetSelectedCategories(categories: seq<string>)
      modifies this`selectedCategories
      ensures selectedCategories == categories
    {
      selectedCategories := categories;
    }

    method SetSelectedGenders(genders: seq<string>)
      modifies this`selectedGenders
      ensures selectedGenders == genders
    {
      selectedGenders := genders;
    }

    method SetSelectedSizes(sizes: seq<string>)
      modifies this`selectedSizes
      ensures selectedSizes == sizes
    {
      selectedSizes := sizes;
    }

    method SetPriceRange(range: string)
      modifies this`priceRange
      ensures priceRange == range
    {
      priceRange := range;
    }

    method SetSortBy(sort: string)
      modifies this`sortBy
      ensures sortBy == sort
    {
      sortBy := sort;
    }

    method SetIsFilterOpen(open: bool)
      modifies this`isFilterOpen
      ensures isFilterOpen == open
    {
      isFilterOpen := open;
    }

    method ToggleCategory(category: string)
      modifies this`selectedCategories
      ensures selectedCategories == Toggle(old(selectedCategories), category)
    {
      selectedCategories := Toggle(selectedCategories, category);
    }

    method ToggleGender(gender: string)
      modifies this`selectedGenders
      ensures selectedGenders == Toggle(old(selectedGenders), gender)
    {
      selectedGenders := Toggle(selectedGenders, gender);
    }

    method ToggleSize(size: string)
      modifies this`selectedSizes
      ensures selectedSizes == Toggle(old(selectedSizes), size)
    {
      selectedSizes := Toggle(selectedSizes, size);
    }

    /** Resets the six selection fields; the panel flag is left as it is. */
    method ClearFilters()
      modifies this`searchQuery, this`selectedCategories, this`selectedGenders, this`selectedSizes,
               this`priceRange, this`sortBy
      ensures searchQuery == "" && selectedCategories == [] && selectedGenders == [] && selectedSizes == []
      ensures priceRange == "" && sortBy == ""
    {
      searchQuery := "";
      selectedCategories := [];
      selectedGenders := [];
      selectedSizes := [];
      priceRange := "";
      sortBy := "";
    }
  }
}
