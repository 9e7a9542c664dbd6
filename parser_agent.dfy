/** `ParserAgent`: checks that a raw product record has every required field and
    normalizes it into the canonical product record. */
module ParserAgent {
  import opened Outcomes
  import opened Values
  import opened PyStrings
  import opened Lists

  const RequiredFields: seq<string> := [
    "product_name", "concentration", "skin_type", "key_ingredients",
    "benefits", "how_to_use", "side_effects", "price"
  ]

  /** The canonical product record `_normalize` builds. */
  datatype Product = Product(
    name: string,
    concentration: string,
    skinType: seq<string>,
    ingredients: seq<string>,
    benefits: seq<string>,
    usage: string,
    sideEffects: string,
    price: int)
  {
    /** The dict `_normalize` returns. */
    function ToValue(): (v: Value)
      ensures v.Dict? && v.fields.Keys == NormalizedKeys
    {
      Dict(map[
        "name" := Str(name),
        "concentration" := Str(concentration),
        "skin_type" := Strings(skinType),
        "ingredients" := Strings(ingredients),
        "benefits" := Strings(benefits),
        "usage" := Str(usage),
        "side_effects" := Str(sideEffects),
        "price" := Int(price)])
    }

    /** Every string and every list element is already trimmed. */
    predicate Trimmed()
    {
      && Strip(name) == name && Strip(concentration) == concentration
      && Strip(usage) == usage && Strip(sideEffects) == sideEffects
      && (forall k :: 0 <= k < |skinType| ==> Strip(skinType[k]) == skinType[k])
      && (forall k :: 0 <= k < |ingredients| ==> Strip(ingredients[k]) == ingredients[k])
      && (forall k :: 0 <= k < |benefits| ==> Strip(benefits[k]) == benefits[k])
    }

    /** The record written back in the raw input's shape: lists as lists, price as an int. */
    function AsRaw(): map<string, Value>
    {
      map[
        "product_name" := Str(name),
        "concentration" := Str(concentration),
        "skin_type" := Strings(skinType),
        "key_ingredients" := Strings(ingredients),
        "benefits" := Strings(benefits),
        "how_to_use" := Str(usage),
        "side_effects" := Str(sideEffects),
        "price" := Int(price)]
    }
  }

  const NormalizedKeys: set<string> := {
    "name", "concentration", "skin_type", "ingredients", "benefits", "usage", "side_effects", "price"
  }

  /** The fields of `fields` that are not keys of `data`, in the order of `fields`. */
  function Missing(fields: seq<string>, data: map<string, Value>): (missing: seq<string>)
    ensures forall f :: f in missing <==> f in fields && f !in data
    ensures IsSubsequence(missing, fields)
  {
    if |fields| == 0 then []
    else if fields[0] in data then Missing(fields[1..], data)
    else [fields[0]] + Missing(fields[1..], data)
  }

  /** `_validate`: one `ValueError` naming every missing required field. Only the
      presence of the keys is checked. */
  function Validate(data: map<string, Value>): (r: Result<()>)
    ensures r.Ok? <==> forall f :: f in RequiredFields ==> f in data
    ensures r.Err? ==> r.error == ValueError(MissingFields(Missing(RequiredFields, data)))
  {
    var missing := Missing(RequiredFields, data);
    if missing != [] then assert missing[0] in missing; Err(ValueError(MissingFields(missing)))
    else Ok(())
  }

  /** `value.strip()`: only a string has `strip`. */
  function StripValue(v: Value): (r: Result<string>)
    ensures r.Ok? <==> v.Str?
  {
    if v.Str? then Ok(Strip(v.s)) else Err(AttributeError(TypeName(v), "strip"))
  }

  /** Each string trimmed. */
  function StripEach(ss: seq<string>): (r: seq<string>)
    ensures |r| == |ss| && forall k :: 0 <= k < |ss| ==> r[k] == Strip(ss[k])
  {
    if |ss| == 0 then [] else [Strip(ss[0])] + StripEach(ss[1..])
  }

  /** `[v.strip() for v in items]`: raises at the first element that is not a string. */
  function StripItems(items: seq<Value>): (r: Result<seq<string>>)
    ensures r.Ok? <==> forall k :: 0 <= k < |items| ==> items[k].Str?
    ensures r.Ok? ==> |r.value| == |items| && forall k :: 0 <= k < |items| ==> r.value[k] == Strip(items[k].s)
  {
    if |items| == 0 then Ok([])
    else
      var head :- StripValue(items[0]);
      var tail :- StripItems(items[1..]);
      Ok([head] + tail)
  }

  /** `_normalize_list`: a list gives each element trimmed, a string gives its
      comma-separated pieces trimmed, anything else gives the empty list. */
  function NormalizeList(v: Value): (r: Result<seq<string>>)
    ensures !v.List? ==> r.Ok?
    ensures !v.List? && !v.Str? ==> r == Ok([])
  {
    match v
    case List(items) => StripItems(items)
    case Str(s) => Ok(StripEach(Split(s, ',')))
    case _ => Ok([])
  }

  /** The rupee sign removed by `_parse_price`. */
  const Rupee: char := '\U{20B9}'

  const Digits: set<char> := {'0', '1', '2', '3', '4', '5', '6', '7', '8', '9'}

  /** `int(float(text))` for a plain decimal numeral: an optional sign, digits, and an
      optional fraction after a point, with at least one digit overall. The fraction
      is dropped, which truncates toward zero. */
  function TruncatedDecimal(text: string): (r: Result<int>)
  {
    if |text| > 0 && text[0] == '-' then
      var magnitude :- TruncatedMagnitude(text[1..], text);
      Ok(-magnitude)
    else if |text| > 0 && text[0] == '+' then TruncatedMagnitude(text[1..], text)
    else TruncatedMagnitude(text, text)
  }

  /** The unsigned part of a numeral: the value of its digits before the point. */
  function TruncatedMagnitude(body: string, text: string): (r: Result<int>)
  {
    var whole := LeadingIn(body, Digits);
    var rest := body[whole..];
    if rest == [] && whole > 0 then Ok(DigitsValue(body))
    else if rest == [] || rest[0] != '.' then Err(ValueError(NotAFloat(text)))
    else if LeadingIn(rest[1..], Digits) == |rest| - 1 && (whole > 0 || |rest| > 1) then
      Ok(DigitsValue(body[..whole]))
    else Err(ValueError(NotAFloat(text)))
  }

  /** `_parse_price`: a number is kept (a bool counts as 0 or 1), a string loses every
      rupee sign and comma, is trimmed and read as a decimal, anything else raises. */
  function ParsePrice(price: Value): (r: Result<int>)
    ensures IsNumber(price) ==> r == Ok(Number(price))
    ensures !IsNumber(price) && !price.Str? ==> r == Err(ValueError(InvalidPriceFormat))
  {
    match price
    case Int(i) => Ok(i)
    case Bool(b) => Ok(if b then 1 else 0)
    case Str(s) => TruncatedDecimal(Strip(Remove(Remove(s, Rupee), ',')))
    case _ => Err(ValueError(InvalidPriceFormat))
  }

  /** The eight field names, one by one. */
  lemma RequiredPresent(data: map<string, Value>)
    requires forall f :: f in RequiredFields ==> f in data
    ensures "product_name" in data && "concentration" in data && "skin_type" in data
    ensures "key_ingredients" in data && "benefits" in data && "how_to_use" in data
    ensures "side_effects" in data && "price" in data
  {
    assert RequiredFields[0] == "product_name" && RequiredFields[1] == "concentration";
    assert RequiredFields[2] == "skin_type" && RequiredFields[3] == "key_ingredients";
    assert RequiredFields[4] == "benefits" && RequiredFields[5] == "how_to_use";
    assert RequiredFields[6] == "side_effects" && RequiredFields[7] == "price";
  }

  /** `_normalize`: the eight canonical fields, evaluated in the order of the dict literal,
      so the first field that cannot be normalized decides the exception. */
  function Normalize(data: map<string, Value>): (r: Result<Product>)
    requires forall f :: f in RequiredFields ==> f in data
    ensures r.Ok? ==> r.value.Trimmed()
  {
    RequiredPresent(data);
    var name := StripValue(data["product_name"]);
    var concentration := StripValue(data["concentration"]);
    var skinType := NormalizeList(data["skin_type"]);
    var ingredients := NormalizeList(data["key_ingredients"]);
    var benefits := NormalizeList(data["benefits"]);
    var usage := StripValue(data["how_to_use"]);
    var sideEffects := StripValue(data["side_effects"]);
    var price := ParsePrice(data["price"]);
    if name.Err? then Err(name.error)
    else if concentration.Err? then Err(concentration.error)
    else if skinType.Err? then Err(skinType.error)
    else if ingredients.Err? then Err(ingredients.error)
    else if benefits.Err? then Err(benefits.error)
    else if usage.Err? then Err(usage.error)
    else if sideEffects.Err? then Err(sideEffects.error)
    else if price.Err? then Err(price.error)
    else
      StripValueTrimmed(data["product_name"]);
      StripValueTrimmed(data["concentration"]);
      StripValueTrimmed(data["how_to_use"]);
      StripValueTrimmed(data["side_effects"]);
      NormalizeListTrimmed(data["skin_type"]);
      NormalizeListTrimmed(data["key_ingredients"]);
      NormalizeListTrimmed(data["benefits"]);
      Ok(Product(name.value, concentration.value, skinType.value, ingredients.value,
                 benefits.value, usage.value, sideEffects.value, price.value))
  }

  /** `ParserAgent.parse`: validation first, so a record missing fields is reported with
      all of them and is never normalized. */
  function Parse(raw: map<string, Value>): (r: Result<Product>)
    ensures Missing(RequiredFields, raw) != [] ==> r == Err(ValueError(MissingFields(Missing(RequiredFields, raw))))
    ensures r.Ok? ==> r.value.Trimmed()
  {
    var _ :- Validate(raw);
    Normalize(raw)
  }

  lemma StripEachTrimmed(ss: seq<string>)
    ensures forall k :: 0 <= k < |ss| ==> Strip(StripEach(ss)[k]) == StripEach(ss)[k]
  {
    forall k | 0 <= k < |ss| ensures Strip(StripEach(ss)[k]) == StripEach(ss)[k] {
      StripCharsIdempotent(ss[k], Whitespace);
    }
  }

  lemma NormalizeListTrimmed(v: Value)
    ensures NormalizeList(v).Ok? ==> forall k :: 0 <= k < |NormalizeList(v).value| ==>
      Strip(NormalizeList(v).value[k]) == NormalizeList(v).value[k]
  {
    if v.List? && NormalizeList(v).Ok? {
      var r := NormalizeList(v).value;
      forall k | 0 <= k < |r| ensures Strip(r[k]) == r[k] {
        StripCharsIdempotent(v.items[k].s, Whitespace);
      }
    } else if v.Str? {
      StripEachTrimmed(Split(v.s, ','));
    }
  }

  lemma StripValueTrimmed(v: Value)
    ensures StripValue(v).Ok? ==> Strip(StripValue(v).value) == StripValue(v).value
  {
    if v.Str? { StripCharsIdempotent(v.s, Whitespace); }
  }
}

/** Properties of `ParserAgent` that relate several calls. */
module ParserAgentProperties {
  import opened Outcomes
  import opened Values
  import opened PyStrings
  import opened ParserAgent

  /** A string list field is read exactly as the list of its comma-separated pieces. */
  lemma CommaStringAsList(s: string)
    ensures NormalizeList(Str(s)) == NormalizeList(Strings(Split(s, ',')))
  {
    var pieces := Split(s, ',');
    StripItemsOfStrings(pieces);
  }

  /** Trimming a list of strings element by element. */
  lemma StripItemsOfStrings(ss: seq<string>)
    ensures StripItems(Strings(ss).items) == Ok(StripEach(ss))
  {
    var items := Strings(ss).items;
    assert forall k :: 0 <= k < |items| ==> items[k].Str?;
    var r := StripItems(items);
    assert r.Ok?;
    assert |r.value| == |StripEach(ss)|;
    forall k | 0 <= k < |ss| ensures r.value[k] == StripEach(ss)[k] {
      assert items[k].s == ss[k];
    }
    assert r.value == StripEach(ss);
  }

  /** Normalizing an already normalized list changes nothing. */
  lemma NormalizeListStable(v: Value)
    requires NormalizeList(v).Ok?
    ensures NormalizeList(Strings(NormalizeList(v).value)) == NormalizeList(v)
  {
    var xs := NormalizeList(v).value;
    NormalizeListTrimmedAt(v);
    StripItemsOfStrings(xs);
    StripEachOfTrimmed(xs);
  }

  lemma StripEachOfTrimmed(xs: seq<string>)
    requires forall k :: 0 <= k < |xs| ==> Strip(xs[k]) == xs[k]
    ensures StripEach(xs) == xs
  {
    assert forall k :: 0 <= k < |xs| ==> StripEach(xs)[k] == xs[k];
  }

  lemma NormalizeListTrimmedAt(v: Value)
    requires NormalizeList(v).Ok?
    ensures forall k :: 0 <= k < |NormalizeList(v).value| ==>
      Strip(NormalizeList(v).value[k]) == NormalizeList(v).value[k]
  {
    var xs := NormalizeList(v).value;
    forall k | 0 <= k < |xs| ensures Strip(xs[k]) == xs[k] {
      if v.List? {
        StripCharsIdempotent(v.items[k].s, Whitespace);
      } else if v.Str? {
        StripCharsIdempotent(Split(v.s, ',')[k], Whitespace);
      }
    }
  }

  /** A normalized record, fed back in the raw shape, parses to itself. */
  lemma ParseStable(raw: map<string, Value>)
    requires Parse(raw).Ok?
    ensures Parse(Parse(raw).value.AsRaw()) == Parse(raw)
  {
    ReparseTrimmed(Parse(raw).value);
  }

  /** Any record whose strings are trimmed is what its raw shape parses to. */
  lemma ReparseTrimmed(p: Product)
    requires p.Trimmed()
    ensures Parse(p.AsRaw()) == Ok(p)
  {
    RawShapeIsComplete(p);
    RawShapeNormalizes(p);
    ParseIsNormalizeOnceValid(p.AsRaw(), p);
  }

  lemma RawShapeIsComplete(p: Product)
    ensures Validate(p.AsRaw()).Ok?
  {
    var again := p.AsRaw();
    forall f | f in RequiredFields ensures f in again { }
  }

  lemma RawShapeNormalizes(p: Product)
    requires p.Trimmed()
    ensures Normalize(p.AsRaw()) == Ok(p)
  {
    var again := p.AsRaw();
    AsRawFields(p);
    TrimmedListStable(p.skinType);
    TrimmedListStable(p.ingredients);
    TrimmedListStable(p.benefits);
    NormalizeOfFields(again, p);
  }

  /** `_normalize` succeeds with `p` when every field normalizes to the matching part of `p`. */
  lemma NormalizeOfFields(data: map<string, Value>, p: Product)
    requires "product_name" in data && "concentration" in data && "skin_type" in data
    requires "key_ingredients" in data && "benefits" in data && "how_to_use" in data
    requires "side_effects" in data && "price" in data
    requires StripValue(data["product_name"]) == Ok(p.name)
    requires StripValue(data["concentration"]) == Ok(p.concentration)
    requires NormalizeList(data["skin_type"]) == Ok(p.skinType)
    requires NormalizeList(data["key_ingredients"]) == Ok(p.ingredients)
    requires NormalizeList(data["benefits"]) == Ok(p.benefits)
    requires StripValue(data["how_to_use"]) == Ok(p.usage)
    requires StripValue(data["side_effects"]) == Ok(p.sideEffects)
    requires ParsePrice(data["price"]) == Ok(p.price)
    ensures forall f :: f in RequiredFields ==> f in data
    ensures Normalize(data) == Ok(p)
  {
    KeysPresent(data);
  }

  /** The fields of the raw shape, one by one. */
  lemma AsRawFields(p: Product)
    ensures var raw := p.AsRaw();
      && "product_name" in raw && raw["product_name"] == Str(p.name)
      && "concentration" in raw && raw["concentration"] == Str(p.concentration)
      && "skin_type" in raw && raw["skin_type"] == Strings(p.skinType)
      && "key_ingredients" in raw && raw["key_ingredients"] == Strings(p.ingredients)
      && "benefits" in raw && raw["benefits"] == Strings(p.benefits)
      && "how_to_use" in raw && raw["how_to_use"] == Str(p.usage)
      && "side_effects" in raw && raw["side_effects"] == Str(p.sideEffects)
      && "price" in raw && raw["price"] == Int(p.price)
  {
  }

  lemma KeysPresent(data: map<string, Value>)
    requires "product_name" in data && "concentration" in data && "skin_type" in data
    requires "key_ingredients" in data && "benefits" in data && "how_to_use" in data
    requires "side_effects" in data && "price" in data
    ensures forall f :: f in RequiredFields ==> f in data
  {
  }

  lemma ParseIsNormalizeOnceValid(raw: map<string, Value>, p: Product)
    requires Validate(raw).Ok?
    requires Normalize(raw) == Ok(p)
    ensures Parse(raw) == Ok(p)
  {
  }

  /** A list of trimmed strings normalizes to itself. */
  lemma TrimmedListStable(xs: seq<string>)
    requires forall k :: 0 <= k < |xs| ==> Strip(xs[k]) == xs[k]
    ensures NormalizeList(Strings(xs)) == Ok(xs)
  {
    StripItemsOfStrings(xs);
    StripEachOfTrimmed(xs);
  }
}

/** How `ParserAgent._parse_price` reads price strings. */
module ParserPriceProperties {
  import opened Outcomes
  import opened Values
  import opened PyStrings
  import opened ParserAgent

  /** A price string with no rupee sign, no comma and no surrounding whitespace is read
      as a decimal numeral directly. */
  lemma ParsePriceOfClean(s: string)
    requires Rupee !in s && ',' !in s && Strip(s) == s
    ensures ParsePrice(Str(s)) == TruncatedDecimal(s)
  {
    RemoveAbsent(s, Rupee);
    RemoveAbsent(s, ',');
  }

  /** A numeral with a leading minus sign is the negated magnitude of the rest. */
  lemma NegativeNumeral(text: string, m: int)
    requires |text| > 0 && text[0] == '-' && TruncatedMagnitude(text[1..], text) == Ok(m)
    ensures TruncatedDecimal(text) == Ok(-m)
  {
  }

  /** A numeral with no sign is its magnitude. */
  lemma UnsignedNumeral(text: string)
    requires |text| > 0 && IsDigit(text[0])
    ensures TruncatedDecimal(text) == TruncatedMagnitude(text, text)
  {
  }

  /** The digits before a non-digit are exactly the leading digits. */
  lemma {:induction false} LeadingDigitsOfNumeral(w: string, rest: string)
    requires AllDigits(w)
    requires |rest| > 0 ==> rest[0] !in Digits
    ensures LeadingIn(w + rest, Digits) == |w|
  {
    if |w| > 0 {
      assert (w + rest)[1..] == w[1..] + rest;
      LeadingDigitsOfNumeral(w[1..], rest);
    }
  }

  /** Digits alone are read as their value. */
  lemma MagnitudeOfDigits(w: string, text: string)
    requires |w| > 0 && AllDigits(w)
    ensures TruncatedMagnitude(w, text) == Ok(DigitsValue(w))
  {
    AllDigitsLeading(w);
  }

  /** The magnitude, given where the digits stop and what follows them. */
  lemma MagnitudeOfParts(body: string, w: string, tail: string, text: string)
    requires |w| > 0 && AllDigits(w)
    requires |tail| > 0 && tail[0] == '.' && LeadingIn(tail[1..], Digits) == |tail| - 1
    requires LeadingIn(body, Digits) == |w| && body[|w|..] == tail && body[..|w|] == w
    ensures TruncatedMagnitude(body, text) == Ok(DigitsValue(w))
  {
  }

  /** Digits, a point and more digits are read as the value of the digits before the
      point: the fraction is dropped. */
  lemma MagnitudeOfDecimal(w: string, f: string, text: string)
    requires |w| > 0 && AllDigits(w) && AllDigits(f)
    ensures TruncatedMagnitude(w + ['.'] + f, text) == Ok(DigitsValue(w))
  {
    var tail := ['.'] + f;
    var body := w + ['.'] + f;
    assert body == w + tail;
    LeadingDigitsOfNumeral(w, tail);
    AllDigitsLeading(f);
    assert body[|w|..] == tail;
    assert tail[1..] == f;
    assert body[..|w|] == w;
    MagnitudeOfParts(body, w, tail, text);
  }

  /** A negative decimal is truncated toward zero: `"-" + w + "." + f` gives minus
      the value of `w`. */
  lemma NegativeDecimal(w: string, f: string)
    requires |w| > 0 && AllDigits(w) && AllDigits(f)
    ensures TruncatedDecimal(['-'] + (w + ['.'] + f)).Ok?
    ensures TruncatedDecimal(['-'] + (w + ['.'] + f)).value == -(DigitsValue(w) as int)
  {
    var body := w + ['.'] + f;
    var text := ['-'] + body;
    var m: int := DigitsValue(w);
    assert TruncatedMagnitude(text[1..], text) == Ok(m) by {
      assert text[1..] == body;
      MagnitudeOfDecimal(w, f, text);
    }
    NegativeNumeral(text, m);
  }

  /** Digits followed by anything but a digit or a point are not a number. */
  lemma TrailingJunkRejected(w: string, rest: string, text: string)
    requires AllDigits(w) && |rest| > 0 && rest[0] !in Digits && rest[0] != '.'
    ensures TruncatedMagnitude(w + rest, text) == Err(ValueError(NotAFloat(text)))
  {
    LeadingDigitsOfNumeral(w, rest);
    assert (w + rest)[|w|..] == rest;
  }

  /** Removing a character from a concatenation removes it from each part. */
  lemma {:induction false} RemoveConcat(a: string, b: string, c: char)
    ensures Remove(a + b, c) == Remove(a, c) + Remove(b, c)
  {
    if |a| > 0 {
      assert (a + b)[1..] == a[1..] + b;
      RemoveConcat(a[1..], b, c);
    } else {
      assert a + b == b;
    }
  }

  /** A rupee sign or a comma anywhere in a price string is ignored. */
  lemma SeparatorIgnored(a: string, b: string, sep: char)
    requires sep == Rupee || sep == ','
    ensures ParsePrice(Str(a + [sep] + b)) == ParsePrice(Str(a + b))
  {
    if sep == Rupee {
      RupeeRemoved(a, b);
    } else {
      CommaRemoved(a, b);
    }
  }

  lemma RupeeRemoved(a: string, b: string)
    ensures Remove(a + [Rupee] + b, Rupee) == Remove(a + b, Rupee)
  {
    RemoveConcat(a + [Rupee], b, Rupee);
    RemoveConcat(a, [Rupee], Rupee);
    RemoveConcat(a, b, Rupee);
    assert Remove([Rupee], Rupee) == [];
  }

  lemma CommaRemoved(a: string, b: string)
    ensures Remove(Remove(a + [','] + b, Rupee), ',') == Remove(Remove(a + b, Rupee), ',')
  {
    var ra, rb := Remove(a, Rupee), Remove(b, Rupee);
    assert Remove(a + [','] + b, Rupee) == ra + [','] + rb by {
      RemoveConcat(a + [','], b, Rupee);
      RemoveConcat(a, [','], Rupee);
    }
    assert Remove(a + b, Rupee) == ra + rb by {
      RemoveConcat(a, b, Rupee);
    }
    assert Remove(ra + [','], ',') == Remove(ra, ',') by {
      RemoveConcat(ra, [','], ',');
      assert Remove([','], ',') == [];
    }
    RemoveConcat(ra + [','], rb, ',');
    RemoveConcat(ra, rb, ',');
  }

  /** `True` is read as 1, because a bool is an int; `None` raises. */
  lemma NonStringPriceExamples()
    ensures ParsePrice(Bool(true)) == Ok(1)
    ensures ParsePrice(Null) == Err(ValueError(InvalidPriceFormat))
  {
  }

  /** The decimal rendering of any integer is read back as that integer. */
  lemma ParsePriceOfIntText(n: int)
    ensures ParsePrice(Str(IntToString(n))) == Ok(n)
  {
    var t := IntToString(n);
    var m: nat := if n < 0 then -n else n;
    var digits := NatToString(m);
    DigitsValueOfNatToString(m);
    MagnitudeOfDigits(digits, t);
    if n < 0 {
      assert t == ['-'] + digits;
      assert t[1..] == digits;
      assert IsDigit(digits[|digits| - 1]);
      StripOfGraphicEnds(t);
      ParsePriceOfClean(t);
      NegativeNumeral(t, m);
    } else {
      assert t == digits;
      assert IsDigit(digits[0]) && IsDigit(digits[|digits| - 1]);
      StripOfGraphicEnds(t);
      ParsePriceOfClean(t);
      UnsignedNumeral(t);
    }
  }

  lemma {:induction false} RemoveAbsent(s: string, c: char)
    requires c !in s
    ensures Remove(s, c) == s
  {
    if |s| > 0 { RemoveAbsent(s[1..], c); }
  }

  lemma {:induction false} AllDigitsLeading(s: string)
    requires AllDigits(s)
    ensures LeadingIn(s, Digits) == |s|
  {
    if |s| > 0 { AllDigitsLeading(s[1..]); }
  }
}
