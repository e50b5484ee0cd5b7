/** The catalogue query of src/pages/ProductListing.tsx: a case-insensitive
    text search AND-ed with brand, RAM, processor and price facets, the
    check-box toggles, the active-filter counter, and the page state. */
module ProductListing {
  import opened Types
  import Seqs
  import Text
  import Laptops

  /** Upper end of the price slider, and of the default range. */
  const MaxSliderPrice := 5000

  /** The page's filter state: `searchTerm`, the three selections, `priceRange`. */
  datatype Criteria = Criteria(
    searchTerm: string,
    brands: seq<string>,
    ram: seq<string>,
    processors: seq<string>,
    minPrice: int,
    maxPrice: int)

  /** The initial state, which `clearFilters` restores. */
  const DefaultCriteria := Criteria("", [], [], [], 0, MaxSliderPrice)

  /** The lower-cased term is a substring of the lower-cased name, brand or
      processor. */
  predicate MatchesSearch(l: Laptop, term: string) {
    var t := Text.Lower(term);
    Text.Includes(Text.Lower(l.name), t) || Text.Includes(Text.Lower(l.brand), t)
      || Text.Includes(Text.Lower(l.processor), t)
  }

  predicate MatchesBrand(l: Laptop, brands: seq<string>) {
    |brands| == 0 || l.brand in brands
  }

  predicate MatchesRam(l: Laptop, ram: seq<string>) {
    |ram| == 0 || l.ram in ram
  }

  /** Some selected value is a (case-sensitive) substring of the processor. */
  predicate MatchesProcessor(l: Laptop, processors: seq<string>) {
    |processors| == 0 || exists i :: 0 <= i < |processors| && Text.Includes(l.processor, processors[i])
  }

  predicate MatchesPrice(l: Laptop, minPrice: int, maxPrice: int) {
    minPrice <= l.price <= maxPrice
  }

  predicate Matches(c: Criteria, l: Laptop) {
    MatchesSearch(l, c.searchTerm) && MatchesBrand(l, c.brands) && MatchesRam(l, c.ram)
      && MatchesProcessor(l, c.processors) && MatchesPrice(l, c.minPrice, c.maxPrice)
  }

  /** `filteredLaptops`: the laptops meeting all five conditions, in
      catalogue order and with their multiplicities. */
  function FilteredLaptops(ls: seq<Laptop>, c: Criteria): (r: seq<Laptop>)
    ensures Seqs.IsSubsequence(r, ls)
    ensures forall l :: l in r <==>
      && l in ls
      && MatchesSearch(l, c.searchTerm)
      && MatchesBrand(l, c.brands)
      && MatchesRam(l, c.ram)
      && MatchesProcessor(l, c.processors)
      && c.minPrice <= l.price <= c.maxPrice
    ensures forall l :: Matches(c, l) ==> multiset(r)[l] == multiset(ls)[l]
  {
    Seqs.Filter((l: Laptop) => Matches(c, l), ls)
  }

  /** The empty term matches every laptop. */
  lemma EmptySearchMatches(l: Laptop)
    ensures MatchesSearch(l, "")
  {
    Text.IncludesEmpty(Text.Lower(l.name));
  }

  /** Searching is case-insensitive: a term and its lower-cased form match
      the same laptops. */
  lemma SearchIgnoresCase(l: Laptop, term: string)
    ensures MatchesSearch(l, term) <==> MatchesSearch(l, Text.Lower(term))
  {
    Text.LowerIdempotent(term);
  }

  /** With the initial criteria, every laptop priced within the slider's
      range is listed, so the whole list comes back. */
  lemma DefaultsKeepAll(ls: seq<Laptop>)
    requires forall i :: 0 <= i < |ls| ==> 0 <= ls[i].price <= MaxSliderPrice
    ensures FilteredLaptops(ls, DefaultCriteria) == ls
  {
    forall i | 0 <= i < |ls| ensures Matches(DefaultCriteria, ls[i]) {
      EmptySearchMatches(ls[i]);
    }
    Seqs.FilterAll((l: Laptop) => Matches(DefaultCriteria, l), ls);
  }

  lemma SeedPricesInRange()
    ensures forall i :: 0 <= i < |Laptops.Seed| ==> 0 <= Laptops.Seed[i].price <= MaxSliderPrice
  {
  }

  /** On first render the page lists the whole seed catalogue. */
  lemma SeedDefaultsListAll()
    ensures FilteredLaptops(Laptops.Seed, DefaultCriteria) == Laptops.Seed
  {
    SeedPricesInRange();
    DefaultsKeepAll(Laptops.Seed);
  }

  /** The hard-coded "Apple M" processor check box selects any laptop whose
      processor is the seed's "Apple M3 Max" ... */
  lemma AppleCheckboxMatches(l: Laptop)
    requires l.processor == "Apple M3 Max"
    ensures MatchesProcessor(l, ["Apple M"])
  {
    assert l.processor[..7] == "Apple M";
    Text.StartsWithIncludes(l.processor, "Apple M");
    assert ["Apple M"][0] == "Apple M";
  }

  /** ... although "Apple M" is none of the processor option values. */
  lemma AppleCheckboxNotAnOption()
    ensures "Apple M" !in Laptops.GetFilterOptions().processors
  {
    Laptops.SeedProcessorOptions();
    AppleMNotAProcessor();
  }

  lemma AppleMNotAProcessor()
    ensures "Apple M" !in
      ["Apple M3 Max", "Intel i9-13900H", "Intel i7-1365U", "AMD Ryzen 9 7945HX", "Intel i7-1255U", "Intel i7-12700H"]
  {
  }

  // ---------------------------------------------------------------- toggles

  /** `prev.includes(v) ? prev.filter(x => x !== v) : [...prev, v]`. */
  function Toggle(list: seq<string>, v: string): (r: seq<string>) {
    if v in list then Seqs.Filter((x: string) => x != v, list) else list + [v]
  }

  /** Toggling a selected value removes every copy of it and keeps the rest
      in order; toggling an unselected one appends it. */
  lemma ToggleSpec(list: seq<string>, v: string)
    ensures v in list ==>
      && v !in Toggle(list, v)
      && Seqs.IsSubsequence(Toggle(list, v), list)
      && (forall x :: x != v ==> multiset(Toggle(list, v))[x] == multiset(list)[x])
    ensures v !in list ==> Toggle(list, v) == list + [v]
  {
  }

  /** Toggling an unselected value twice gives back exactly the same list. */
  lemma ToggleTwiceAbsent(list: seq<string>, v: string)
    requires v !in list
    ensures Toggle(Toggle(list, v), v) == list
  {
    var keep := (x: string) => x != v;
    Seqs.FilterAppend(keep, list, [v]);
    Seqs.FilterAll(keep, list);
    assert Seqs.Filter(keep, [v]) == [] by {
      assert [v][1..] == [];
    }
    assert v in list + [v];
  }

  /** Toggling a selected value twice leaves it selected again, now last. */
  lemma ToggleTwicePresent(list: seq<string>, v: string)
    requires v in list
    ensures v in Toggle(Toggle(list, v), v)
    ensures Toggle(Toggle(list, v), v) == Toggle(list, v) + [v]
  {
  }

  /** Toggling never creates a duplicate. */
  lemma ToggleKeepsNoDuplicates(list: seq<string>, v: string)
    requires Seqs.NoDuplicates(list)
    ensures Seqs.NoDuplicates(Toggle(list, v))
  {
    if v in list {
      Seqs.NoDuplicatesSubsequence(Toggle(list, v), list);
    }
  }

  /** On a duplicate-free selection a toggle changes the length by exactly
      one: down when the value was selected, up when it was not. */
  lemma ToggleLength(list: seq<string>, v: string)
    requires Seqs.NoDuplicates(list)
    ensures |Toggle(list, v)| == if v in list then |list| - 1 else |list| + 1
  {
    if v in list {
      RemoveSingle(list, v);
    }
  }

  lemma {:induction false} RemoveSingle(list: seq<string>, v: string)
    requires Seqs.NoDuplicates(list) && v in list
    ensures |Seqs.Filter((x: string) => x != v, list)| == |list| - 1
  {
    var keep := (x: string) => x != v;
    assert list == [list[0]] + list[1..];
    assert Seqs.NoDuplicates(list[1..]);
    if list[0] == v {
      assert forall i :: 0 <= i < |list[1..]| ==> keep(list[1..][i]) by {
        forall i | 0 <= i < |list[1..]| ensures keep(list[1..][i]) {
          assert list[1..][i] == list[i + 1];
        }
      }
      Seqs.FilterAll(keep, list[1..]);
    } else {
      RemoveSingle(list[1..], v);
    }
  }

  // ---------------------------------------------------------------- counter

  /** `activeFiltersCount`. */
  function ActiveFilters(c: Criteria): (r: nat) {
    |c.brands| + |c.ram| + |c.processors|
      + (if c.minPrice > 0 || c.maxPrice < MaxSliderPrice then 1 else 0)
  }

  /** The counter is 0 exactly when nothing is selected and the range is not
      narrowed at either end; the search term is not counted. */
  lemma ActiveFiltersZero(c: Criteria)
    ensures ActiveFilters(c) == 0 <==>
      c.brands == [] && c.ram == [] && c.processors == [] && c.minPrice <= 0 && c.maxPrice >= MaxSliderPrice
  {
  }

  /** After `clearFilters` the counter is 0 and every filter is off. */
  lemma ClearedCountsZero()
    ensures ActiveFilters(DefaultCriteria) == 0
  {
  }

  // ---------------------------------------------------------------- page

  /** The page's state: the five `useState` fields it filters by. */
  class ListingPage {
    var searchTerm: string
    var selectedBrands: seq<string>
    var selectedRam: seq<string>
    var selectedProcessors: seq<string>
    var minPrice: int
    var maxPrice: int

    function Current(): (r: Criteria)
      reads this
    {
      Criteria(searchTerm, selectedBrands, selectedRam, selectedProcessors, minPrice, maxPrice)
    }

    /** What the controls can produce: duplicate-free selections, a lower
        bound no control changes, and an upper bound within the slider. */
    ghost predicate Valid()
      reads this
    {
      && Seqs.NoDuplicates(selectedBrands)
      && Seqs.NoDuplicates(selectedRam)
      && Seqs.NoDuplicates(selectedProcessors)
      && minPrice == 0 && 0 <= maxPrice <= MaxSliderPrice
    }

    constructor ()
      ensures Current() == DefaultCriteria && Valid()
    {
      searchTerm, selectedBrands, selectedRam, selectedProcessors := "", [], [], [];
      minPrice, maxPrice := 0, MaxSliderPrice;
    }

    /** The laptops on screen. */
    function Shown(): (r: seq<Laptop>)
      reads this
    {
      FilteredLaptops(Laptops.Seed, Current())
    }

    function ActiveFiltersCount(): (r: nat)
      reads this
    {
      ActiveFilters(Current())
    }

    method SetSearchTerm(term: string)
      requires Valid()
      modifies this
      ensures Valid() && Current() == old(Current()).(searchTerm := term)
    {
      searchTerm := term;
    }

    method HandleBrandChange(brand: string)
      requires Valid()
      modifies this
      ensures Valid() && Current() == old(Current()).(brands := Toggle(old(selectedBrands), brand))
    {
      ToggleKeepsNoDuplicates(selectedBrands, brand);
      selectedBrands := Toggle(selectedBrands, brand);
    }

    method HandleRamChange(ram: string)
      requires Valid()
      modifies this
      ensures Valid() && Current() == old(Current()).(ram := Toggle(old(selectedRam), ram))
    {
      ToggleKeepsNoDuplicates(selectedRam, ram);
      selectedRam := Toggle(selectedRam, ram);
    }

    method HandleProcessorChange(processor: string)
      requires Valid()
      modifies this
      ensures Valid() && Current() == old(Current()).(processors := Toggle(old(selectedProcessors), processor))
    {
      ToggleKeepsNoDuplicates(selectedProcessors, processor);
      selectedProcessors := Toggle(selectedProcessors, processor);
    }

    /** The slider sets the upper bound and keeps the lower one. */
    method SetMaxPrice(value: int)
      requires Valid() && 0 <= value <= MaxSliderPrice
      modifies this
      ensures Valid() && Current() == old(Current()).(maxPrice := value)
    {
      maxPrice := value;
    }

    method ClearFilters()
      modifies this
      ensures Valid() && Current() == DefaultCriteria
      ensures ActiveFiltersCount() == 0 && Shown() == Laptops.Seed
    {
      selectedBrands, selectedRam, selectedProcessors := [], [], [];
      minPrice, maxPrice := 0, MaxSliderPrice;
      searchTerm := "";
      assert Current() == DefaultCriteria;
      SeedDefaultsListAll();
    }
  }

  /** In every state the controls can reach, one toggle moves the counter by
      exactly one, and the range adds one exactly when the slider is below
      its maximum. */
  lemma ReachableCounter(c: Criteria, brand: string)
    requires Seqs.NoDuplicates(c.brands) && c.minPrice == 0 && 0 <= c.maxPrice <= MaxSliderPrice
    ensures ActiveFilters(c) == |c.brands| + |c.ram| + |c.processors| + (if c.maxPrice != MaxSliderPrice then 1 else 0)
    ensures ActiveFilters(c.(brands := Toggle(c.brands, brand))) ==
      if brand in c.brands then ActiveFilters(c) - 1 else ActiveFilters(c) + 1
  {
    ToggleLength(c.brands, brand);
  }
}
