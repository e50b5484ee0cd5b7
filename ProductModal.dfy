/** The product form of src/components/Admin/ProductModal.tsx: the form
    state, its reset, the per-field input handlers, the feature list parser,
    and the record the submit handler builds with `||` defaults. */
module ProductModal {
  import opened Types
  import Seqs
  import Text

  /** The mode the form was opened in. */
  datatype ModalMode = AddMode | EditMode

  /** A number typed into a numeric input, as `parseFloat` returns it
      (integral here). */
  datatype ParsedNumber = NaN | Number(n: int)

  /** `formData`. String fields are always defined (the initial form, a
      laptop and every text input give strings); `images` and `features` may
      be undefined (`None`), as the form's type allows. */
  datatype FormData = FormData(
    name: string,
    brand: string,
    processor: string,
    ram: string,
    storage: string,
    graphics: string,
    display: string,
    price: ParsedNumber,
    originalPrice: Option<int>,
    image: string,
    images: Option<seq<string>>,
    rating: real,
    reviews: int,
    description: string,
    features: Option<seq<string>>)

  const DefaultImage := "https://images.pexels.com/photos/205421/pexels-photo-205421.jpeg?auto=compress&cs=tinysrgb&w=800"

  const DefaultRating: real := 4.5

  /** The empty form of add mode. */
  const InitialForm := FormData(
    name := "", brand := "", processor := "", ram := "", storage := "", graphics := "", display := "",
    price := Number(0), originalPrice := Some(0), image := "", images := Some([]),
    rating := DefaultRating, reviews := 0, description := "", features := Some([]))

  /** The form of edit mode: the laptop's own fields. */
  function FromLaptop(l: Laptop): (r: FormData) {
    FormData(
      name := l.name, brand := l.brand, processor := l.processor, ram := l.ram, storage := l.storage,
      graphics := l.graphics, display := l.display, price := Number(l.price),
      originalPrice := l.originalPrice, image := l.image, images := Some(l.images),
      rating := l.rating, reviews := l.reviews, description := l.description, features := Some(l.features))
  }

  /** The reset effect: the laptop in edit mode, the empty form otherwise. */
  function ResetForm(laptop: Option<Laptop>, mode: ModalMode): (r: FormData) {
    if laptop.Some? && mode == EditMode then FromLaptop(laptop.value) else InitialForm
  }

  /** `handleSubmit`: the id of the laptop passed in when it has one,
      otherwise the timestamp `now`; every falsy field replaced by its
      default. */
  function Submit(form: FormData, laptop: Option<Laptop>, now: string): (r: Laptop) {
    var image := if form.image != "" then form.image else DefaultImage;
    Laptop(
      id := if laptop.Some? && laptop.value.id != "" then laptop.value.id else now,
      name := form.name, brand := form.brand, processor := form.processor, ram := form.ram,
      storage := form.storage, graphics := form.graphics, display := form.display,
      price := if form.price.Number? && form.price.n != 0 then form.price.n else 0,
      originalPrice := form.originalPrice,
      image := image,
      images := if form.images.Some? then form.images.value else [image],
      rating := if form.rating != 0.0 then form.rating else DefaultRating,
      reviews := form.reviews,
      description := form.description,
      features := if form.features.Some? then form.features.value else [])
  }

  /** `handleSubmit` for any form: the edited laptop's id is kept when it has
      one, and a fresh one is used otherwise; a rating of 0 becomes 4.5, an
      empty image the default one, a missing gallery `[image]` and missing
      features `[]`; the original price, the text fields and the review count
      are passed through. */
  lemma SubmitDefaults(form: FormData, laptop: Option<Laptop>, now: string)
    ensures var l := Submit(form, laptop, now);
      && (laptop.Some? && laptop.value.id != "" ==> l.id == laptop.value.id)
      && (laptop.None? || laptop.value.id == "" ==> l.id == now)
      && (form.rating == 0.0 ==> l.rating == DefaultRating)
      && (form.rating != 0.0 ==> l.rating == form.rating)
      && (form.image == "" ==> l.image == DefaultImage)
      && (form.image != "" ==> l.image == form.image)
      && (form.price.NaN? || form.price.n == 0 ==> l.price == 0)
      && (form.price.Number? ==> l.price == form.price.n)
      && l.originalPrice == form.originalPrice
      && (form.images.None? ==> l.images == [l.image])
      && (form.images.Some? ==> l.images == form.images.value)
      && (form.features.None? ==> l.features == [])
      && (form.features.Some? ==> l.features == form.features.value)
      && l.name == form.name && l.brand == form.brand && l.processor == form.processor
      && l.ram == form.ram && l.storage == form.storage && l.graphics == form.graphics
      && l.display == form.display && l.description == form.description
      && l.reviews == form.reviews
  {
  }

  /** Submitting the untouched add-mode form gives the id `now`, the default
      image, no gallery images (an empty array is kept, not defaulted), the
      default rating and an original price of 0. */
  lemma SubmitInitialForm(now: string)
    ensures var l := Submit(InitialForm, None, now);
      && l.id == now && l.image == DefaultImage && l.images == [] && l.rating == DefaultRating
      && l.originalPrice == Some(0) && l.price == 0 && l.features == [] && l.name == ""
  {
  }

  /** A submitted record never has an empty image or a zero rating, and its
      id is non-empty whenever the timestamp is. */
  lemma SubmitNeverBlank(form: FormData, laptop: Option<Laptop>, now: string)
    requires now != ""
    ensures var l := Submit(form, laptop, now);
      l.id != "" && l.image != "" && l.rating != 0.0
  {
  }

  /** Opening a laptop for editing and submitting it unchanged gives back the
      same laptop exactly when its id and image are non-empty and its rating
      is not 0; otherwise the `||` defaults rewrite it. */
  lemma EditRoundTrip(l: Laptop, now: string)
    requires now != ""
    ensures Submit(ResetForm(Some(l), EditMode), Some(l), now) == l <==>
      l.id != "" && l.image != "" && l.rating != 0.0
  {
    var r := Submit(FromLaptop(l), Some(l), now);
    if r == l {
      SubmitNeverBlank(FromLaptop(l), Some(l), now);
    }
  }

  // ---------------------------------------------------------------- features

  predicate NotBlank(s: string) { !Text.IsBlank(s) }

  /** `handleFeaturesChange`: the lines of the text that are not blank,
      unmodified, in order and as often as they occur. */
  function ParseFeatures(text: string): (r: seq<string>)
    ensures Seqs.IsSubsequence(r, Text.SplitLines(text))
    ensures forall f :: f in r <==> f in Text.SplitLines(text) && !Text.IsBlank(f)
    ensures forall f: string :: multiset(r)[f] == if !Text.IsBlank(f) then multiset(Text.SplitLines(text))[f] else 0
    ensures forall k :: 0 <= k < |r| ==> '\n' !in r[k]
  {
    var lines := Text.SplitLines(text);
    var r := Seqs.Filter(NotBlank, lines);
    assert forall k :: 0 <= k < |r| ==> '\n' !in r[k] by {
      forall k | 0 <= k < |r| ensures '\n' !in r[k] {
        assert r[k] in r;
        var j :| 0 <= j < |lines| && lines[j] == r[k];
      }
    }
    r
  }

  /** The features text area shows the list joined by newlines, or ''. */
  function FeaturesText(form: FormData): (r: string) {
    if form.features.Some? then Text.JoinLines(form.features.value) else ""
  }

  /** Showing a feature list in the text area and reading it back gives the
      same list, provided no feature holds a newline or is blank; the empty
      list comes back empty. */
  lemma {:induction false} FeaturesRoundTrip(features: seq<string>)
    requires forall k :: 0 <= k < |features| ==> '\n' !in features[k] && !Text.IsBlank(features[k])
    ensures ParseFeatures(Text.JoinLines(features)) == features
  {
    if |features| == 0 {
      assert Text.SplitLines("") == [""];
      assert Text.IsBlank("");
      assert Seqs.Filter(NotBlank, [""]) == [] by {
        assert [""][1..] == [];
      }
    } else {
      Text.SplitJoin(features);
      Seqs.FilterAll(NotBlank, features);
    }
  }

  /** The text area of a form holding a feature list reads back as that list,
      provided no feature holds a newline or is blank. */
  lemma FormFeaturesRoundTrip(form: FormData)
    requires form.features.Some?
    requires forall k :: 0 <= k < |form.features.value| ==>
      '\n' !in form.features.value[k] && !Text.IsBlank(form.features.value[k])
    ensures ParseFeatures(FeaturesText(form)) == form.features.value
  {
    FeaturesRoundTrip(form.features.value);
  }

  /** A newline typed at the end of the text area is lost: the parsed list
      is shown again, and "a\n" reads back as "a", so a new feature line
      cannot be started at the end. */
  lemma TrailingNewlineDropped()
    ensures ParseFeatures("a\n") == ["a"]
    ensures FeaturesText(InitialForm.(features := Some(ParseFeatures("a\n")))) == "a"
  {
    assert Text.JoinLines(["a", ""]) == "a\n";
    Text.SplitJoin(["a", ""]);
    assert Text.IsBlank("");
    assert !Text.IsBlank("a");
    assert ["a", ""][1..] == [""];
    assert [""][1..] == [];
  }

  /** Parsing what was parsed changes nothing: the pieces are newline-free and
      not blank. */
  lemma ParseFeaturesStable(text: string)
    ensures ParseFeatures(Text.JoinLines(ParseFeatures(text))) == ParseFeatures(text)
  {
    var r := ParseFeatures(text);
    assert forall k :: 0 <= k < |r| ==> r[k] in r;
    FeaturesRoundTrip(r);
  }

  // ---------------------------------------------------------------- inputs

  datatype TextField = Name | Brand | Processor | Ram | Storage | Graphics | Display | Image | Description

  /** One `handleInputChange` call, with the value as the input computes it. */
  datatype FormInput =
    | TextInput(field: TextField, value: string)
    | PriceInput(price: ParsedNumber)
    | OriginalPriceInput(originalPrice: ParsedNumber)

  function TextOf(form: FormData, field: TextField): (r: string) {
    match field
    case Name => form.name
    case Brand => form.brand
    case Processor => form.processor
    case Ram => form.ram
    case Storage => form.storage
    case Graphics => form.graphics
    case Display => form.display
    case Image => form.image
    case Description => form.description
  }

  function SetText(form: FormData, field: TextField, value: string): (r: FormData) {
    match field
    case Name => form.(name := value)
    case Brand => form.(brand := value)
    case Processor => form.(processor := value)
    case Ram => form.(ram := value)
    case Storage => form.(storage := value)
    case Graphics => form.(graphics := value)
    case Display => form.(display := value)
    case Image => form.(image := value)
    case Description => form.(description := value)
  }

  /** `{ ...prev, [field]: value }`; the original price input stores
      `parseFloat(v) || undefined`. */
  function ApplyInput(form: FormData, input: FormInput): (r: FormData) {
    match input
    case TextInput(field, value) => SetText(form, field, value)
    case PriceInput(p) => form.(price := p)
    case OriginalPriceInput(p) =>
      form.(originalPrice := if p.Number? && p.n != 0 then Some(p.n) else None)
  }

  /** A text input sets its own field to the value and changes no other
      field. */
  lemma TextInputChangesOnlyItsField(form: FormData, field: TextField, value: string)
    ensures var r := ApplyInput(form, TextInput(field, value));
      && TextOf(r, field) == value
      && (forall g :: g != field ==> TextOf(r, g) == TextOf(form, g))
      && r.price == form.price && r.originalPrice == form.originalPrice && r.images == form.images
      && r.rating == form.rating && r.reviews == form.reviews && r.features == form.features
  {
  }

  /** The price inputs touch only their own field; an empty, unparsable or
      zero original price clears it. */
  lemma PriceInputs(form: FormData, p: ParsedNumber)
    ensures ApplyInput(form, PriceInput(p)) == form.(price := p)
    ensures ApplyInput(form, OriginalPriceInput(p)).(originalPrice := form.originalPrice) == form
    ensures ApplyInput(form, OriginalPriceInput(p)).originalPrice.None? <==> p.NaN? || p.n == 0
  {
  }

  /** A price that did not parse is submitted as 0. */
  lemma UnparsedPriceSubmitsZero(form: FormData, laptop: Option<Laptop>, now: string)
    requires form.price.NaN?
    ensures Submit(form, laptop, now).price == 0
  {
  }

  /** The form's state. */
  class ProductForm {
    var data: FormData

    constructor ()
      ensures data == InitialForm
    {
      data := InitialForm;
    }

    method Reset(laptop: Option<Laptop>, mode: ModalMode)
      modifies this
      ensures data == ResetForm(laptop, mode)
    {
      data := ResetForm(laptop, mode);
    }

    method HandleInputChange(input: FormInput)
      modifies this
      ensures data == ApplyInput(old(data), input)
    {
      data := ApplyInput(data, input);
    }

    method HandleFeaturesChange(text: string)
      modifies this
      ensures data == old(data).(features := Some(ParseFeatures(text)))
      ensures forall k :: 0 <= k < |data.features.value| ==> !Text.IsBlank(data.features.value[k])
    {
      data := data.(features := Some(ParseFeatures(text)));
    }
  }
}
