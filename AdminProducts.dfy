/** The product table of src/pages/Admin/AdminProducts.tsx: the name/brand
    search with a brand select, the brand list, and the save and delete
    handlers that dispatch to the admin store. */
module AdminProducts {
  import opened Types
  import Seqs
  import Text
  import Laptops
  import ProductListing
  import AdminContext
  import ProductModal

  /** The lower-cased term is a substring of the lower-cased name or brand
      (the processor is not searched here). */
  predicate AdminMatchesSearch(l: Laptop, term: string) {
    var t := Text.Lower(term);
    Text.Includes(Text.Lower(l.name), t) || Text.Includes(Text.Lower(l.brand), t)
  }

  /** The brand select holds '' (all brands) or one brand, compared exactly. */
  predicate AdminMatchesBrand(l: Laptop, brand: string) {
    brand == "" || l.brand == brand
  }

  predicate AdminMatches(term: string, brand: string, l: Laptop) {
    AdminMatchesSearch(l, term) && AdminMatchesBrand(l, brand)
  }

  /** `filteredLaptops` of the admin table, in catalogue order. */
  function FilteredProducts(ls: seq<Laptop>, term: string, brand: string): (r: seq<Laptop>)
    ensures Seqs.IsSubsequence(r, ls)
    ensures forall l :: l in r <==>
      l in ls && AdminMatchesSearch(l, term) && (brand == "" || l.brand == brand)
    ensures forall l :: AdminMatches(term, brand, l) ==> multiset(r)[l] == multiset(ls)[l]
  {
    Seqs.Filter((l: Laptop) => AdminMatches(term, brand, l), ls)
  }

  /** `brands`: each brand of the catalogue once, in order of first
      appearance. */
  function Brands(ls: seq<Laptop>): (r: seq<string>)
    ensures Seqs.NoDuplicates(r)
    ensures forall b :: b in r <==> exists i :: 0 <= i < |ls| && ls[i].brand == b
    ensures forall b :: b in r <==> b in Seqs.Map(Laptops.BrandOf, ls)
    ensures forall i, j :: 0 <= i < j < |r| ==>
      Seqs.FirstIndex(Seqs.Map(Laptops.BrandOf, ls), r[i]) < Seqs.FirstIndex(Seqs.Map(Laptops.BrandOf, ls), r[j])
  {
    Laptops.DistinctValues(ls, Laptops.BrandOf)
  }

  /** Picking any brand the select offers, with no search term, lists at
      least one laptop, and (unless the brand is the empty string, which
      means all brands) only laptops of that brand. */
  lemma OfferedBrandNonEmpty(ls: seq<Laptop>, b: string)
    requires b in Brands(ls)
    ensures FilteredProducts(ls, "", b) != []
    ensures b != "" ==> forall l :: l in FilteredProducts(ls, "", b) ==> l.brand == b
  {
    var i :| 0 <= i < |ls| && ls[i].brand == b;
    var l := ls[i];
    assert l in ls;
    Text.IncludesEmpty(Text.Lower(l.name));
    assert AdminMatches("", b, l);
    assert l in FilteredProducts(ls, "", b);
  }

  /** The admin search ignores the processor where the storefront search
      does not: a term found only in the processor is a storefront hit and
      an admin miss. */
  lemma ProcessorNotSearched()
    ensures var l := Laptops.Seed[0].(name := "X", brand := "Y", processor := "Intel");
      ProductListing.MatchesSearch(l, "intel") && !AdminMatchesSearch(l, "intel")
  {
    var l := Laptops.Seed[0].(name := "X", brand := "Y", processor := "Intel");
    var t := Text.Lower("intel");
    assert t == "intel";
    assert Text.Lower(l.processor) == "intel";
    assert Text.OccursAt(Text.Lower(l.processor), t, 0);
    assert |Text.Lower(l.name)| == 1 && |Text.Lower(l.brand)| == 1;
  }

  /** `handleSaveProduct`: in add mode the record is appended to the local
      store (before, and whatever the outcome of, the remote call, which is
      not modelled); in edit mode it replaces the record with its id. */
  method HandleSaveProduct(store: AdminContext.AdminStore, mode: ProductModal.ModalMode, laptop: Laptop)
    modifies store
    ensures mode == ProductModal.AddMode ==>
      store.State() == AdminContext.AdminReducer(old(store.State()), AdminContext.AddLaptop(laptop))
    ensures mode == ProductModal.EditMode ==>
      store.State() == AdminContext.AdminReducer(old(store.State()), AdminContext.UpdateLaptop(laptop))
  {
    if mode == ProductModal.AddMode {
      store.AddLaptop(laptop);
    } else {
      store.UpdateLaptop(laptop);
    }
  }

  /** `handleDeleteProduct`: deletes only when the confirmation (the answer
      to `window.confirm`) is yes, and otherwise changes nothing. */
  method HandleDeleteProduct(store: AdminContext.AdminStore, laptopId: string, confirmed: bool)
    modifies store
    ensures confirmed ==>
      store.State() == AdminContext.AdminReducer(old(store.State()), AdminContext.DeleteLaptop(laptopId))
    ensures !confirmed ==> store.State() == old(store.State())
  {
    if confirmed {
      store.DeleteLaptop(laptopId);
    }
  }
}
