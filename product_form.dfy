/** The admin product editor of src/components/Admin/ProductForm.jsx: the
    mapping from the product being edited to the form's fields, and the
    field handlers with their input rules. */
module ProductForm {

  import opened Wrappers
  import opened Text
  import opened Seqs

  /** The product handed to the form; `None` is a missing field. */
  datatype AdminProduct = AdminProduct(
    name: Option<string>,
    description: Option<string>,
    price: Option<int>,
    category: Option<string>,
    stock: Option<int>,
    imageUrl: Option<string>,
    images: Option<seq<string>>,
    brand: Option<string>,
    tags: Option<seq<string>>)

  /** The price field holds the text typed, or the number it was loaded with. */
  datatype PriceValue = PriceText(text: string) | PriceNumber(amount: int)

  /** The stock field holds a number, or `NaN` once emptied. */
  datatype StockValue = Stock(count: int) | StockNaN

  /** `productData`. */
  datatype Form = Form(
    name: string,
    description: string,
    price: PriceValue,
    category: string,
    stock: StockValue,
    imageUrl: string,
    brand: string,
    tags: seq<string>)

  /** The blank form of a new product. */
  const EmptyForm: Form := Form("", "", PriceText(""), "", Stock(0), "", "", [])

  /** `initialProduct.imageUrl || initialProduct.images?.[0]?.url || ''`. */
  function ImageOf(p: AdminProduct): (r: string)
    ensures p.imageUrl.Some? && p.imageUrl.value != "" ==> r == p.imageUrl.value
    ensures (p.imageUrl.None? || p.imageUrl.value == "") && p.images.Some? && |p.images.value| > 0 ==>
              r == p.images.value[0]
    ensures (p.imageUrl.None? || p.imageUrl.value == "") && (p.images.None? || |p.images.value| == 0) ==> r == ""
  {
    if p.imageUrl.Some? && p.imageUrl.value != "" then p.imageUrl.value
    else if p.images.Some? && |p.images.value| > 0 then p.images.value[0]
    else ""
  }

  /** The effect on `initialProduct`: each field copied, a missing text
      becoming `''` and missing tags `[]`; a price of 0 (falsy) also
      becomes `''`; the stock becomes 0 only when it is missing. With no
      product the form is blank. */
  function FormFrom(initial: Option<AdminProduct>): (r: Form)
    ensures initial.None? ==> r == EmptyForm
    ensures initial.Some? ==>
      var p := initial.value;
      && r.name == TextOr(p.name) && r.description == TextOr(p.description)
      && r.brand == TextOr(p.brand) && r.category == TextOr(p.category)
      && r.imageUrl == ImageOf(p)
      && (p.tags.Some? ==> r.tags == p.tags.value) && (p.tags.None? ==> r.tags == [])
      && (p.stock.Some? ==> r.stock == Stock(p.stock.value)) && (p.stock.None? ==> r.stock == Stock(0))
      && (p.price.Some? && p.price.value != 0 ==> r.price == PriceNumber(p.price.value))
      && (p.price.None? || p.price.value == 0 ==> r.price == PriceText(""))
  {
    match initial
    case None => EmptyForm
    case Some(p) =>
      Form(
        TextOr(p.name),
        TextOr(p.description),
        if p.price.Some? && p.price.value != 0 then PriceNumber(p.price.value) else PriceText(""),
        TextOr(p.category),
        if p.stock.Some? then Stock(p.stock.value) else Stock(0),
        ImageOf(p),
        TextOr(p.brand),
        if p.tags.Some? then p.tags.value else [])
  }

  // ---------------------------------------------------------------------
  // Tags
  // ---------------------------------------------------------------------

  /** Each piece trimmed. */
  function TrimAll(pieces: seq<string>): (r: seq<string>)
    ensures |r| == |pieces|
  {
    if pieces == [] then [] else [Trim(pieces[0])] + TrimAll(pieces[1..])
  }

  lemma {:induction false} TrimAllAppend(a: seq<string>, b: seq<string>)
    ensures TrimAll(a + b) == TrimAll(a) + TrimAll(b)
  {
    if a == [] {
      assert a + b == b;
    } else {
      assert (a + b)[1..] == a[1..] + b;
      TrimAllAppend(a[1..], b);
    }
  }

  /** A trimmed comma-free piece has no whitespace at either end and no
      comma. */
  lemma TrimClean(piece: string)
    requires ',' !in piece
    ensures Unspaced(Trim(piece)) && ',' !in Trim(piece)
  {
    TrimSubset(piece, ',');
  }

  /** Every piece has no whitespace at either end and no comma. */
  predicate AllClean(pieces: seq<string>)
  {
    forall k :: 0 <= k < |pieces| ==> Unspaced(pieces[k]) && ',' !in pieces[k]
  }

  lemma ConsClean(head: string, tail: seq<string>)
    requires Unspaced(head) && ',' !in head && AllClean(tail)
    ensures AllClean([head] + tail)
  {
  }

  lemma {:induction false} TrimAllClean(pieces: seq<string>)
    requires forall k :: 0 <= k < |pieces| ==> ',' !in pieces[k]
    ensures AllClean(TrimAll(pieces))
  {
    if pieces != [] {
      TrimClean(pieces[0]);
      TrimAllClean(pieces[1..]);
      ConsClean(Trim(pieces[0]), TrimAll(pieces[1..]));
    }
  }

  /** `value.split(',').map(tag => tag.trim()).filter(tag => tag)`. */
  function ParseTags(value: string): (tags: seq<string>)
  {
    Filter(TrimAll(Split(value, ',')), NonEmpty)
  }

  /** `filter(tag => tag)`: the empty string is falsy. */
  predicate NonEmpty(t: string)
  {
    t != ""
  }

  /** A tag as the parser yields it: non-empty, no surrounding whitespace,
      no comma. */
  predicate CleanTag(t: string)
  {
    t != "" && Unspaced(t) && ',' !in t
  }

  /** No whitespace at either end: what `trim` leaves. */
  predicate Unspaced(t: string)
  {
    t != [] ==> !IsSpace(t[0]) && !IsSpace(t[|t| - 1])
  }

  /** Every parsed tag is clean, and a tag is kept exactly when it is a
      non-empty trimmed piece of the input. */
  lemma ParseTagsClean(value: string)
    ensures forall t :: t in ParseTags(value) ==> CleanTag(t)
  {
    SplitJoin(value, ',');
    KeptPiecesClean(Split(value, ','));
  }

  lemma KeptPiecesClean(pieces: seq<string>)
    requires forall k :: 0 <= k < |pieces| ==> ',' !in pieces[k]
    ensures forall t :: t in Filter(TrimAll(pieces), NonEmpty) ==> CleanTag(t)
  {
    var trimmed := TrimAll(pieces);
    assert forall k :: 0 <= k < |trimmed| ==> Unspaced(trimmed[k]) && ',' !in trimmed[k] by {
      TrimAllClean(pieces);
    }
    forall t | t in Filter(trimmed, NonEmpty) ensures CleanTag(t) {
      assert t in trimmed && t != "" by { FilterMembers(trimmed, NonEmpty); }
    }
  }

  /** A tag is kept exactly when it is a non-empty trimmed piece of the
      input. */
  lemma ParseTagsMembers(value: string)
    ensures forall t :: t in ParseTags(value) <==> t != "" && t in TrimAll(Split(value, ','))
  {
    FilterMembers(TrimAll(Split(value, ',')), NonEmpty);
  }

  /** The parse respects the commas: the tags of `a,b` are the tags of
      `a` followed by the tags of `b`, so order is kept. */
  lemma ParseTagsConcat(a: string, b: string)
    ensures ParseTags(a + [','] + b) == ParseTags(a) + ParseTags(b)
  {
    SplitConcat(a, ',', b);
    TrimAllAppend(Split(a, ','), Split(b, ','));
    FilterAppend(TrimAll(Split(a, ',')), TrimAll(Split(b, ',')), NonEmpty);
  }

  /** A space after a comma makes no difference. */
  lemma ParseTagsLeadingSpace(s: string)
    ensures ParseTags([' '] + s) == ParseTags(s)
  {
    var pieces := Split(s, ',');
    var spaced := Split([' '] + s, ',');
    assert ([' '] + s)[1..] == s;
    assert spaced == [[' '] + pieces[0]] + pieces[1..];
    TrimLeadingSpace(pieces[0]);
    assert pieces == [pieces[0]] + pieces[1..];
    TrimAllAppend([[' '] + pieces[0]], pieces[1..]);
    TrimAllAppend([pieces[0]], pieces[1..]);
  }

  /** The text the tags field shows: `tags.join(', ')`. */
  function TagsText(tags: seq<string>): string
  {
    if tags == [] then []
    else if |tags| == 1 then tags[0]
    else tags[0] + [','] + ([' '] + TagsText(tags[1..]))
  }

  lemma ParseTagsEmpty()
    ensures ParseTags([]) == []
  {
    assert Split([], ',') == [[]];
    assert Trim([]) == [] by { assert AllSpace([]); }
    assert TrimAll([[]]) == [Trim([])] + TrimAll([]);
    assert Filter([[]], NonEmpty) == [] + Filter([], NonEmpty);
  }

  /** A clean tag on its own reads back as itself. */
  lemma ParseTagsSingle(t: string)
    requires CleanTag(t)
    ensures ParseTags(t) == [t]
  {
    assert Split(t, ',') == [t] by { SplitNoSeparator(t, ','); }
    assert TrimAll([t]) == [t] by { TrimUnspaced(t); }
  }

  /** A clean tag, `', '` and more text read as the tag followed by the
      tags of the text. */
  lemma ParseTagsJoined(t: string, rest: string)
    requires CleanTag(t)
    ensures ParseTags(t + [','] + ([' '] + rest)) == [t] + ParseTags(rest)
  {
    ParseTagsConcat(t, [' '] + rest);
    ParseTagsLeadingSpace(rest);
    ParseTagsSingle(t);
  }

  /** Putting a clean tag in front of tags that read back as themselves
      gives text that reads back as the longer list. */
  lemma TagsTextCons(tags: seq<string>)
    requires |tags| > 1 && CleanTag(tags[0])
    requires ParseTags(TagsText(tags[1..])) == tags[1..]
    ensures ParseTags(TagsText(tags)) == tags
  {
    var t, rest := tags[0], TagsText(tags[1..]);
    var text := t + [','] + ([' '] + rest);
    assert TagsText(tags) == text;
    ParseTagsJoined(t, rest);
    assert ParseTags(text) == [t] + tags[1..];
    assert [t] + tags[1..] == tags;
  }

  /** Showing clean tags and reading the field back gives the same tags. */
  lemma {:induction false} TagsRoundTrip(tags: seq<string>)
    requires forall k :: 0 <= k < |tags| ==> CleanTag(tags[k])
    ensures ParseTags(TagsText(tags)) == tags
  {
    if tags == [] {
      ParseTagsEmpty();
    } else if |tags| == 1 {
      ParseTagsSingle(tags[0]);
    } else {
      TagsRoundTrip(tags[1..]);
      TagsTextCons(tags);
    }
  }

  // ---------------------------------------------------------------------
  // Handlers
  // ---------------------------------------------------------------------

  /** The text fields `handleChange` serves. */
  datatype Field = Name | Description | ImageUrl | Category | Brand | Tags

  /** `handleChange` for a text input: the tags field is parsed, any other
      field takes the value as typed; nothing else changes. */
  function HandleChange(form: Form, field: Field, value: string): (r: Form)
    ensures r.price == form.price && r.stock == form.stock
    ensures field == Tags ==> r == form.(tags := ParseTags(value))
    ensures field != Tags ==> r.tags == form.tags
    ensures r.name == (if field == Name then value else form.name)
    ensures r.description == (if field == Description then value else form.description)
    ensures r.imageUrl == (if field == ImageUrl then value else form.imageUrl)
    ensures r.category == (if field == Category then value else form.category)
    ensures r.brand == (if field == Brand then value else form.brand)
  {
    match field
    case Name => form.(name := value)
    case Description => form.(description := value)
    case ImageUrl => form.(imageUrl := value)
    case Category => form.(category := value)
    case Brand => form.(brand := value)
    case Tags => form.(tags := ParseTags(value))
  }

  /** The meaning of `/^\d*\.?\d*$/`: digits, at most one dot, digits. */
  ghost predicate PricePattern(s: string)
  {
    AllDigits(s) || exists i :: DotAt(s, i)
  }

  /** `s` is digits, a dot at `i`, digits. */
  predicate DotAt(s: string, i: int)
  {
    0 <= i < |s| && s[i] == '.' && AllDigits(s[..i]) && AllDigits(s[i + 1..])
  }

  /** The regular expression's test, scanning left to right; `seenDot`
      records whether the one allowed dot has been read. */
  function MatchesPrice(s: string, seenDot: bool): (b: bool)
  {
    if s == [] then true
    else if IsDigit(s[0]) then MatchesPrice(s[1..], seenDot)
    else if s[0] == '.' && !seenDot then MatchesPrice(s[1..], true)
    else false
  }

  lemma {:induction false} MatchesPriceAfterDot(s: string)
    ensures MatchesPrice(s, true) <==> AllDigits(s)
  {
    if s != [] {
      MatchesPriceAfterDot(s[1..]);
    }
  }

  /** The scan accepts exactly the strings the pattern describes. */
  lemma {:induction false} MatchesPriceCorrect(s: string)
    ensures MatchesPrice(s, false) <==> PricePattern(s)
  {
    if s != [] {
      MatchesPriceCorrect(s[1..]);
      if IsDigit(s[0]) {
        if PricePattern(s[1..]) && !AllDigits(s[1..]) {
          var i :| DotAt(s[1..], i);
          assert s[..i + 1] == [s[0]] + s[1..][..i];
          assert DotAt(s, i + 1);
        }
        if exists i :: DotAt(s, i) {
          var i :| DotAt(s, i);
          assert i > 0;
          assert s[1..][..i - 1] == s[1..i];
          assert DotAt(s[1..], i - 1);
        }
      } else if s[0] == '.' {
        MatchesPriceAfterDot(s[1..]);
        if AllDigits(s[1..]) {
          assert DotAt(s, 0);
        }
        if exists i :: DotAt(s, i) {
          var i :| DotAt(s, i);
          if i > 0 { assert s[..i][0] == '.'; }
        }
      }
    }
  }

  /** `handlePriceChange`: a value matching the pattern becomes the price
      text; anything else leaves the form as it was. */
  function HandlePriceChange(form: Form, value: string): (r: Form)
    ensures PricePattern(value) ==> r == form.(price := PriceText(value))
    ensures !PricePattern(value) ==> r == form
  {
    MatchesPriceCorrect(value);
    if MatchesPrice(value, false) then form.(price := PriceText(value)) else form
  }

  /** `handleStockQuantityChange`: a digits-only value becomes
      `parseInt(value)` (`NaN` for the empty string); anything else leaves
      the form as it was. */
  function HandleStockChange(form: Form, value: string): (r: Form)
    ensures !AllDigits(value) ==> r == form
    ensures AllDigits(value) && value != "" ==> r == form.(stock := Stock(DigitsValue(value)))
    ensures value == "" ==> r == form.(stock := StockNaN)
  {
    if AllDigits(value) then
      ParseDigits(value);
      match ParseInt(value)
      case Some(n) => form.(stock := Stock(n))
      case None => form.(stock := StockNaN)
    else form
  }
}
