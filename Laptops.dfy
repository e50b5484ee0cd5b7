/** The catalogue fixture of src/data/laptops.ts and the option lists that
    the listing page's check boxes are built from. */
module Laptops {
  import opened Types
  import Seqs

  /** The six seed laptops, in the order of src/data/laptops.ts. */
  const Seed: seq<Laptop> := [
    Laptop(
      id := "1",
      name := "MacBook Pro 16-inch M3 Max",
      brand := "Apple",
      processor := "Apple M3 Max",
      ram := "32GB",
      storage := "1TB SSD",
      graphics := "Apple M3 Max GPU",
      display := "16.2\" Liquid Retina XDR",
      price := 3499,
      originalPrice := Some(3999),
      image := "https://images.pexels.com/photos/205421/pexels-photo-205421.jpeg?auto=compress&cs=tinysrgb&w=800",
      images := [
        "https://images.pexels.com/photos/205421/pexels-photo-205421.jpeg?auto=compress&cs=tinysrgb&w=800",
        "https://images.pexels.com/photos/18105/pexels-photo.jpg?auto=compress&cs=tinysrgb&w=800",
        "https://images.pexels.com/photos/812264/pexels-photo-812264.jpeg?auto=compress&cs=tinysrgb&w=800"],
      rating := 4.9,
      reviews := 2847,
      description := "The most powerful MacBook Pro ever built, featuring the revolutionary M3 Max chip with incredible performance for pro workflows.",
      features := [
        "Apple M3 Max chip with 16-core CPU",
        "40-core GPU for extreme graphics performance",
        "32GB unified memory",
        "Up to 22 hours battery life",
        "Liquid Retina XDR display",
        "Advanced camera and audio"]),
    Laptop(
      id := "2",
      name := "Dell XPS 15 OLED",
      brand := "Dell",
      processor := "Intel i9-13900H",
      ram := "32GB",
      storage := "1TB SSD",
      graphics := "NVIDIA RTX 4070",
      display := "15.6\" 4K OLED Touch",
      price := 2899,
      originalPrice := Some(3299),
      image := "https://images.pexels.com/photos/1229861/pexels-photo-1229861.jpeg?auto=compress&cs=tinysrgb&w=800",
      images := [
        "https://images.pexels.com/photos/1229861/pexels-photo-1229861.jpeg?auto=compress&cs=tinysrgb&w=800",
        "https://images.pexels.com/photos/777001/pexels-photo-777001.jpeg?auto=compress&cs=tinysrgb&w=800",
        "https://images.pexels.com/photos/1229861/pexels-photo-1229861.jpeg?auto=compress&cs=tinysrgb&w=800"],
      rating := 4.7,
      reviews := 1923,
      description := "Premium laptop with stunning 4K OLED display and powerful performance for creators and professionals.",
      features := [
        "13th Gen Intel Core i9 processor",
        "NVIDIA GeForce RTX 4070 GPU",
        "15.6\" 4K OLED InfinityEdge touch display",
        "Premium aluminum construction",
        "Windows 11 Pro",
        "Thunderbolt 4 ports"]),
    Laptop(
      id := "3",
      name := "ThinkPad X1 Carbon Gen 11",
      brand := "Lenovo",
      processor := "Intel i7-1365U",
      ram := "16GB",
      storage := "512GB SSD",
      graphics := "Intel Iris Xe",
      display := "14\" 2.8K OLED",
      price := 1899,
      originalPrice := Some(2199),
      image := "https://images.pexels.com/photos/1112598/pexels-photo-1112598.jpeg?auto=compress&cs=tinysrgb&w=800",
      images := [
        "https://images.pexels.com/photos/1112598/pexels-photo-1112598.jpeg?auto=compress&cs=tinysrgb&w=800",
        "https://images.pexels.com/photos/39284/macbook-apple-imac-computer-39284.jpeg?auto=compress&cs=tinysrgb&w=800",
        "https://images.pexels.com/photos/1229861/pexels-photo-1229861.jpeg?auto=compress&cs=tinysrgb&w=800"],
      rating := 4.6,
      reviews := 1456,
      description := "Ultra-lightweight business laptop with military-grade durability and exceptional battery life.",
      features := [
        "13th Gen Intel Core i7 processor",
        "Ultra-lightweight at 2.48 lbs",
        "14\" 2.8K OLED display",
        "Up to 29.5 hours battery life",
        "MIL-STD-810H tested durability",
        "Rapid Charge technology"]),
    Laptop(
      id := "4",
      name := "ASUS ROG Strix Scar 17",
      brand := "ASUS",
      processor := "AMD Ryzen 9 7945HX",
      ram := "32GB",
      storage := "2TB SSD",
      graphics := "NVIDIA RTX 4080",
      display := "17.3\" 240Hz QHD",
      price := 2599,
      originalPrice := Some(2999),
      image := "https://images.pexels.com/photos/1580271/pexels-photo-1580271.jpeg?auto=compress&cs=tinysrgb&w=800",
      images := [
        "https://images.pexels.com/photos/1580271/pexels-photo-1580271.jpeg?auto=compress&cs=tinysrgb&w=800",
        "https://images.pexels.com/photos/777001/pexels-photo-777001.jpeg?auto=compress&cs=tinysrgb&w=800",
        "https://images.pexels.com/photos/1229861/pexels-photo-1229861.jpeg?auto=compress&cs=tinysrgb&w=800"],
      rating := 4.8,
      reviews := 892,
      description := "High-performance gaming laptop with cutting-edge AMD processor and NVIDIA RTX graphics.",
      features := [
        "AMD Ryzen 9 7945HX processor",
        "NVIDIA GeForce RTX 4080 GPU",
        "17.3\" QHD 240Hz display",
        "Advanced cooling system",
        "Per-key RGB lighting",
        "Dolby Atmos audio"]),
    Laptop(
      id := "5",
      name := "Surface Laptop 5",
      brand := "Microsoft",
      processor := "Intel i7-1255U",
      ram := "16GB",
      storage := "512GB SSD",
      graphics := "Intel Iris Xe",
      display := "13.5\" PixelSense Touch",
      price := 1599,
      originalPrice := Some(1799),
      image := "https://images.pexels.com/photos/699459/pexels-photo-699459.jpeg?auto=compress&cs=tinysrgb&w=800",
      images := [
        "https://images.pexels.com/photos/699459/pexels-photo-699459.jpeg?auto=compress&cs=tinysrgb&w=800",
        "https://images.pexels.com/photos/18105/pexels-photo.jpg?auto=compress&cs=tinysrgb&w=800",
        "https://images.pexels.com/photos/812264/pexels-photo-812264.jpeg?auto=compress&cs=tinysrgb&w=800"],
      rating := 4.5,
      reviews := 1247,
      description := "Sleek and powerful laptop perfect for productivity and creativity with premium build quality.",
      features := [
        "12th Gen Intel Core i7 processor",
        "13.5\" PixelSense touchscreen",
        "Premium Alcantara keyboard",
        "Windows 11 optimized",
        "All-day battery life",
        "Studio Mics for clear calls"]),
    Laptop(
      id := "6",
      name := "HP Spectre x360 16",
      brand := "HP",
      processor := "Intel i7-12700H",
      ram := "16GB",
      storage := "1TB SSD",
      graphics := "Intel Arc A370M",
      display := "16\" 3K+ OLED Touch",
      price := 1799,
      originalPrice := Some(1999),
      image := "https://images.pexels.com/photos/1229861/pexels-photo-1229861.jpeg?auto=compress&cs=tinysrgb&w=800",
      images := [
        "https://images.pexels.com/photos/1229861/pexels-photo-1229861.jpeg?auto=compress&cs=tinysrgb&w=800",
        "https://images.pexels.com/photos/777001/pexels-photo-777001.jpeg?auto=compress&cs=tinysrgb&w=800",
        "https://images.pexels.com/photos/39284/macbook-apple-imac-computer-39284.jpeg?auto=compress&cs=tinysrgb&w=800"],
      rating := 4.4,
      reviews := 756,
      description := "2-in-1 convertible laptop with stunning OLED display and versatile design for work and creativity.",
      features := [
        "12th Gen Intel Core i7 processor",
        "16\" 3K+ OLED multitouch display",
        "360-degree convertible design",
        "Intel Arc A370M graphics",
        "Privacy camera with shutter",
        "Bang & Olufsen audio"])
  ]

  datatype FilterOptions = FilterOptions(brands: seq<string>, ram: seq<string>, processors: seq<string>)

  function BrandOf(l: Laptop): (r: string) { l.brand }

  function RamOf(l: Laptop): (r: string) { l.ram }

  function ProcessorOf(l: Laptop): (r: string) { l.processor }

  /** `[...new Set(ls.map(field))]`: each value some laptop carries, once, in
      the order in which the values first appear. */
  function DistinctValues(ls: seq<Laptop>, field: Laptop -> string): (r: seq<string>)
    ensures Seqs.NoDuplicates(r)
    ensures forall v :: v in r <==> v in Seqs.Map(field, ls)
    ensures forall v :: v in r <==> exists i :: 0 <= i < |ls| && field(ls[i]) == v
    ensures |r| <= |ls|
    ensures forall i, j :: 0 <= i < j < |r| ==>
      Seqs.FirstIndex(Seqs.Map(field, ls), r[i]) < Seqs.FirstIndex(Seqs.Map(field, ls), r[j])
  {
    var values := Seqs.Map(field, ls);
    assert forall v :: v in values <==> exists i :: 0 <= i < |ls| && field(ls[i]) == v by {
      forall v | v in values ensures exists i :: 0 <= i < |ls| && field(ls[i]) == v {
        var i :| 0 <= i < |values| && values[i] == v;
        assert field(ls[i]) == v;
      }
    }
    Seqs.Dedup(values)
  }

  /** `getFilterOptions()` over the seed catalogue. */
  function GetFilterOptions(): (r: FilterOptions) {
    FilterOptions(
      DistinctValues(Seed, BrandOf),
      DistinctValues(Seed, RamOf),
      DistinctValues(Seed, ProcessorOf))
  }

  /** The option lists the seed catalogue yields. */
  lemma SeedFilterOptions()
    ensures GetFilterOptions().brands == ["Apple", "Dell", "Lenovo", "ASUS", "Microsoft", "HP"]
    ensures GetFilterOptions().ram == ["32GB", "16GB"]
    ensures GetFilterOptions().processors ==
      ["Apple M3 Max", "Intel i9-13900H", "Intel i7-1365U", "AMD Ryzen 9 7945HX", "Intel i7-1255U", "Intel i7-12700H"]
  {
    SeedBrandOptions();
    SeedRamOptions();
    SeedProcessorOptions();
  }

  lemma SeedBrandOptions()
    ensures DistinctValues(Seed, BrandOf) == ["Apple", "Dell", "Lenovo", "ASUS", "Microsoft", "HP"]
  {
    SeedBrandColumn();
    BrandColumnRepeatFree();
    RepeatFreeColumn(Seed, BrandOf, ["Apple", "Dell", "Lenovo", "ASUS", "Microsoft", "HP"]);
  }

  lemma SeedRamOptions()
    ensures DistinctValues(Seed, RamOf) == ["32GB", "16GB"]
  {
    SeedRamColumn();
    RamColumnValuesDiffer();
    TwoValueColumn(Seed, RamOf, "32GB", "16GB");
  }

  lemma SeedProcessorOptions()
    ensures DistinctValues(Seed, ProcessorOf) ==
      ["Apple M3 Max", "Intel i9-13900H", "Intel i7-1365U", "AMD Ryzen 9 7945HX", "Intel i7-1255U", "Intel i7-12700H"]
  {
    SeedProcessorColumn();
    ProcessorColumnRepeatFree();
    RepeatFreeColumn(Seed, ProcessorOf,
      ["Apple M3 Max", "Intel i9-13900H", "Intel i7-1365U", "AMD Ryzen 9 7945HX", "Intel i7-1255U", "Intel i7-12700H"]);
  }

  /** A column without repeats is its own option list. */
  lemma RepeatFreeColumn(ls: seq<Laptop>, field: Laptop -> string, column: seq<string>)
    requires Seqs.Map(field, ls) == column && Seqs.NoDuplicates(column)
    ensures DistinctValues(ls, field) == column
  {
    Seqs.DedupNoDuplicates(column);
  }

  lemma SeedBrandColumn()
    ensures Seqs.Map(BrandOf, Seed) == ["Apple", "Dell", "Lenovo", "ASUS", "Microsoft", "HP"]
  {
  }

  lemma SeedRamColumn()
    ensures Seqs.Map(RamOf, Seed) == ["32GB", "32GB", "16GB", "32GB", "16GB", "16GB"]
  {
  }

  lemma SeedProcessorColumn()
    ensures Seqs.Map(ProcessorOf, Seed) ==
      ["Apple M3 Max", "Intel i9-13900H", "Intel i7-1365U", "AMD Ryzen 9 7945HX", "Intel i7-1255U", "Intel i7-12700H"]
  {
  }

  /** Any list meeting the contract of `DistinctValues` for the seed RAM
      column is ["32GB", "16GB"]: the contract pins the result down. */
  lemma TwoDistinctValues<T>(values: seq<T>, r: seq<T>, a: T, b: T)
    requires a != b && values == [a, a, b, a, b, b]
    requires Seqs.NoDuplicates(r)
    requires forall x :: x in r <==> x in values
    requires forall i, j :: 0 <= i < j < |r| ==>
      r[i] in values && r[j] in values && Seqs.FirstIndex(values, r[i]) < Seqs.FirstIndex(values, r[j])
    ensures r == [a, b]
  {
    assert forall x :: x in values ==> x == a || x == b;
    assert a in values && b in values;
    var ia :| 0 <= ia < |r| && r[ia] == a;
    var ib :| 0 <= ib < |r| && r[ib] == b;
    var n := |r|;
    assert n >= 2;
    assert r[0] in values && r[n - 1] in values && r[n - 2] in values;
    assert 0 == ia || 0 == ib;
    assert n - 1 == ia || n - 1 == ib;
    assert n - 2 == ia || n - 2 == ib;
    assert n == 2;
    assert values[2] == b;
    assert Seqs.FirstIndex(values, a) == 0;
    assert Seqs.FirstIndex(values, b) == 2;
    assert Seqs.FirstIndex(values, r[0]) < Seqs.FirstIndex(values, r[1]);
  }

  /** A column reading a, a, b, a, b, b yields the option list [a, b]. */
  lemma TwoValueColumn(ls: seq<Laptop>, field: Laptop -> string, a: string, b: string)
    requires a != b && Seqs.Map(field, ls) == [a, a, b, a, b, b]
    ensures DistinctValues(ls, field) == [a, b]
  {
    TwoDistinctValues(Seqs.Map(field, ls), DistinctValues(ls, field), a, b);
  }

  lemma RamColumnValuesDiffer()
    ensures "32GB" != "16GB"
  {
  }

  lemma BrandColumnRepeatFree()
    ensures Seqs.NoDuplicates(["Apple", "Dell", "Lenovo", "ASUS", "Microsoft", "HP"])
  {
  }

  lemma ProcessorColumnRepeatFree()
    ensures Seqs.NoDuplicates(
      ["Apple M3 Max", "Intel i9-13900H", "Intel i7-1365U", "AMD Ryzen 9 7945HX", "Intel i7-1255U", "Intel i7-12700H"])
  {
  }

  /** The seed ids '1'..'6' are pairwise distinct. */
  lemma SeedIdsDistinct()
    ensures forall i, j :: 0 <= i < j < |Seed| ==> Seed[i].id != Seed[j].id
  {
  }

  /** Every seed laptop carries an original price above its price, so the
      saving shown is positive. */
  lemma SeedSavingsPositive()
    ensures forall i :: 0 <= i < |Seed| ==>
      Seed[i].originalPrice.Some? && Seed[i].originalPrice.value > Seed[i].price
  {
  }
}
