/**
 * The request schemas of the inventory API: `CreateItemSchema` and
 * `CreateMoveSchema` (each a validity predicate over the JSON body plus the
 * function that yields the normalised data), and the location schema used by
 * the locations route. An object schema keeps only its own keys; other keys
 * are dropped. Parsing whether a string is an absolute URL is a foreign call
 * and is the parameter `urlParses`.
 */
module Validations {
  import opened Wrappers
  import opened Json
  import opened Entities

  const MaxAmount: real := 999999999.0
  const MinMoveQty: real := 0.01
  const DefaultUom: string := "pcs"

  datatype ItemInput = ItemInput(
    sku: string,
    name: string,
    category: Option<string>,
    uom: string,
    barcode: Option<string>,
    minQty: real,
    imageUrl: Option<string>)

  datatype MoveInput = MoveInput(
    itemId: int,
    locationId: int,
    moveType: MoveType,
    qty: real,
    unitCost: Option<real>,
    sellPrice: Option<real>,
    ref: Option<string>,
    note: Option<string>,
    userName: Option<string>)

  // ---------------------------------------------------------------------------
  // Field rules, over the value stored under a key (None when the key is absent)

  /** The SKU character class: letters, digits, hyphen and underscore. */
  predicate SkuChar(c: char)
  {
    ('A' <= c <= 'Z') || ('a' <= c <= 'z') || ('0' <= c <= '9') || c == '-' || c == '_'
  }

  predicate IsSku(s: string)
  {
    1 <= Utf16Length(s) <= 50 && forall i :: 0 <= i < |s| ==> SkuChar(s[i])
  }

  /** A present string whose length lies in [lo, hi]; zod measures lengths in UTF-16 code units. */
  predicate StringIn(f: Option<Value>, lo: nat, hi: nat)
  {
    f.Some? && f.value.Str? && lo <= Utf16Length(f.value.s) <= hi
  }

  /** `.max(hi).nullable().optional()`: absent, null, or a string of at most `hi` characters. */
  predicate NullableString(f: Option<Value>, hi: nat)
  {
    f.None? || f.value.Null? || (f.value.Str? && Utf16Length(f.value.s) <= hi)
  }

  /** `.transform(val => val === null ? undefined : val)` on a nullable string. */
  function NullToAbsent(f: Option<Value>): Option<string>
  {
    if f.Some? && f.value.Str? then Some(f.value.s) else None
  }

  /** `.default(d)` on a string: absent, or a string whose length lies in [lo, hi]. */
  predicate DefaultedString(f: Option<Value>, lo: nat, hi: nat)
  {
    f.None? || (f.value.Str? && lo <= Utf16Length(f.value.s) <= hi)
  }

  function StringOr(f: Option<Value>, d: string): string
  {
    if f.Some? && f.value.Str? then f.value.s else d
  }

  /** A present number in [lo, hi]. */
  predicate NumberIn(f: Option<Value>, lo: real, hi: real)
  {
    f.Some? && f.value.Num? && lo <= f.value.n <= hi
  }

  /** `.default(0)` on a number: absent, or a number in [lo, hi]. */
  predicate DefaultedNumber(f: Option<Value>, lo: real, hi: real)
  {
    f.None? || (f.value.Num? && lo <= f.value.n <= hi)
  }

  function NumberOr(f: Option<Value>, d: real): real
  {
    if f.Some? && f.value.Num? then f.value.n else d
  }

  /** `.nullable().optional()` on a number in [lo, hi]. */
  predicate NullableNumber(f: Option<Value>, lo: real, hi: real)
  {
    f.None? || f.value.Null? || (f.value.Num? && lo <= f.value.n <= hi)
  }

  function NullNumberToAbsent(f: Option<Value>): Option<real>
  {
    if f.Some? && f.value.Num? then Some(f.value.n) else None
  }

  /** `z.number().int().min(1)`. */
  predicate PositiveInteger(f: Option<Value>)
  {
    f.Some? && f.value.Num? && IsInteger(f.value.n) && f.value.n >= 1.0
  }

  function MoveTypeOf(s: string): Option<MoveType>
  {
    if s == "IN" then Some(IN)
    else if s == "OUT" then Some(OUT)
    else if s == "ADJUST" then Some(ADJUST)
    else None
  }

  /** `z.enum(['IN', 'OUT', 'ADJUST'])`. */
  predicate MoveTypeField(f: Option<Value>)
  {
    f.Some? && f.value.Str? && MoveTypeOf(f.value.s).Some?
  }

  predicate StartsWithSlash(s: string)
  {
    |s| > 0 && s[0] == '/'
  }

  /** The first union branch: a string of at most 500 characters that is root-relative or parses as a URL. */
  predicate AcceptedImageUrl(s: string, urlParses: string -> bool)
  {
    Utf16Length(s) <= 500 && (StartsWithSlash(s) || urlParses(s))
  }

  /** The imageUrl union: absent, null, the empty string, or an accepted URL. */
  predicate ImageUrlField(f: Option<Value>, urlParses: string -> bool)
  {
    f.None? || f.value.Null?
    || (f.value.Str? && (f.value.s == "" || AcceptedImageUrl(f.value.s, urlParses)))
  }

  /** The imageUrl transform: null, "" and absent all become absent. */
  function ImageUrlValue(f: Option<Value>): Option<string>
  {
    if f.Some? && f.value.Str? && f.value.s != "" then Some(f.value.s) else None
  }

  // ---------------------------------------------------------------------------
  // How a parsed field relates to the value in the body

  /** An optional string field: a string in the body carries it; absent or null carries nothing. */
  predicate CarriesString(f: Option<Value>, v: Option<string>)
  {
    match v
    case Some(x) => f == Some(Str(x))
    case None => f == None || f == Some(Null)
  }

  /** An optional number field: a number in the body carries it; absent or null carries nothing. */
  predicate CarriesNumber(f: Option<Value>, v: Option<real>)
  {
    match v
    case Some(x) => f == Some(Num(x))
    case None => f == None || f == Some(Null)
  }

  /** A defaulted string field: the body's string, or the default when the key is absent. */
  predicate CarriesStringOr(f: Option<Value>, v: string, d: string)
  {
    f == Some(Str(v)) || (f == None && v == d)
  }

  /** A defaulted number field: the body's number, or the default when the key is absent. */
  predicate CarriesNumberOr(f: Option<Value>, v: real, d: real)
  {
    f == Some(Num(v)) || (f == None && v == d)
  }

  /** The imageUrl field: a non-empty string in the body carries it; absent, null and "" carry nothing. */
  predicate CarriesImageUrl(f: Option<Value>, v: Option<string>)
  {
    match v
    case Some(x) => x != "" && f == Some(Str(x))
    case None => f == None || f == Some(Null) || f == Some(Str(""))
  }

  lemma NullToAbsentCarries(f: Option<Value>, hi: nat)
    requires NullableString(f, hi)
    ensures CarriesString(f, NullToAbsent(f))
    ensures NullToAbsent(f).Some? ==> Utf16Length(NullToAbsent(f).value) <= hi
  {
  }

  lemma NullNumberCarries(f: Option<Value>, lo: real, hi: real)
    requires NullableNumber(f, lo, hi)
    ensures CarriesNumber(f, NullNumberToAbsent(f))
    ensures NullNumberToAbsent(f).Some? ==> lo <= NullNumberToAbsent(f).value <= hi
  {
  }

  lemma StringOrCarries(f: Option<Value>, lo: nat, hi: nat, d: string)
    requires DefaultedString(f, lo, hi) && lo <= Utf16Length(d) <= hi
    ensures CarriesStringOr(f, StringOr(f, d), d)
    ensures lo <= Utf16Length(StringOr(f, d)) <= hi
  {
  }

  lemma NumberOrCarries(f: Option<Value>, lo: real, hi: real, d: real)
    requires DefaultedNumber(f, lo, hi) && lo <= d <= hi
    ensures CarriesNumberOr(f, NumberOr(f, d), d)
    ensures lo <= NumberOr(f, d) <= hi
  {
  }

  lemma ImageUrlCarries(f: Option<Value>, urlParses: string -> bool)
    requires ImageUrlField(f, urlParses)
    ensures CarriesImageUrl(f, ImageUrlValue(f))
    ensures ImageUrlValue(f).Some? ==> AcceptedImageUrl(ImageUrlValue(f).value, urlParses)
  {
  }

  // ---------------------------------------------------------------------------
  // CreateItemSchema

  predicate ValidItem(body: Value, urlParses: string -> bool)
  {
    && body.Obj?
    && var f := body.fields;
    && StringIn(Lookup(f, "sku"), 1, 50) && IsSku(Lookup(f, "sku").value.s)
    && StringIn(Lookup(f, "name"), 1, 255)
    && NullableString(Lookup(f, "category"), 100)
    && DefaultedString(Lookup(f, "uom"), 1, 20)
    && NullableString(Lookup(f, "barcode"), 100)
    && DefaultedNumber(Lookup(f, "minQty"), 0.0, MaxAmount)
    && ImageUrlField(Lookup(f, "imageUrl"), urlParses)
  }

  function NormalizeItem(body: Value, urlParses: string -> bool): ItemInput
    requires ValidItem(body, urlParses)
  {
    var f := body.fields;
    ItemInput(
      Lookup(f, "sku").value.s,
      Lookup(f, "name").value.s,
      NullToAbsent(Lookup(f, "category")),
      StringOr(Lookup(f, "uom"), DefaultUom),
      NullToAbsent(Lookup(f, "barcode")),
      NumberOr(Lookup(f, "minQty"), 0.0),
      ImageUrlValue(Lookup(f, "imageUrl")))
  }

  /** What `CreateItemSchema` guarantees about the data it lets through. */
  predicate WellFormedItem(i: ItemInput, urlParses: string -> bool)
  {
    && IsSku(i.sku)
    && 1 <= Utf16Length(i.name) <= 255
    && (i.category.Some? ==> Utf16Length(i.category.value) <= 100)
    && 1 <= Utf16Length(i.uom) <= 20
    && (i.barcode.Some? ==> Utf16Length(i.barcode.value) <= 100)
    && 0.0 <= i.minQty <= MaxAmount
    && (i.imageUrl.Some? ==> i.imageUrl.value != "" && AcceptedImageUrl(i.imageUrl.value, urlParses))
  }

  /** `CreateItemSchema.parse(body)`: None where zod throws. */
  function ParseItem(body: Value, urlParses: string -> bool): (r: Option<ItemInput>)
    ensures r.Some? ==> body.Obj? && WellFormedItem(r.value, urlParses)
    ensures r.Some? ==> (Lookup(body.fields, "sku") == Some(Str(r.value.sku))
                         && Lookup(body.fields, "name") == Some(Str(r.value.name)))
    ensures r.Some? ==> (CarriesString(Lookup(body.fields, "category"), r.value.category)
                         && CarriesStringOr(Lookup(body.fields, "uom"), r.value.uom, DefaultUom)
                         && CarriesString(Lookup(body.fields, "barcode"), r.value.barcode)
                         && CarriesNumberOr(Lookup(body.fields, "minQty"), r.value.minQty, 0.0)
                         && CarriesImageUrl(Lookup(body.fields, "imageUrl"), r.value.imageUrl))
    ensures ValidItem(body, urlParses) ==> r.Some?
    ensures !body.Obj? ==> r == None
  {
    if ValidItem(body, urlParses) then
      var f := body.fields;
      NullToAbsentCarries(Lookup(f, "category"), 100);
      NullToAbsentCarries(Lookup(f, "barcode"), 100);
      assert Utf16Length(DefaultUom) == 3;
      StringOrCarries(Lookup(f, "uom"), 1, 20, DefaultUom);
      NumberOrCarries(Lookup(f, "minQty"), 0.0, MaxAmount, 0.0);
      ImageUrlCarries(Lookup(f, "imageUrl"), urlParses);
      Some(NormalizeItem(body, urlParses))
    else None
  }

  /** A present optional item field outside its rule makes the whole body fail. */
  lemma ItemFieldRulesEnforced(body: Value, urlParses: string -> bool, x: real, s: string)
    requires body.Obj?
    ensures Lookup(body.fields, "minQty") == Some(Num(x)) && (x < 0.0 || x > MaxAmount) ==>
              ParseItem(body, urlParses) == None
    ensures Lookup(body.fields, "category") == Some(Str(s)) && Utf16Length(s) > 100 ==>
              ParseItem(body, urlParses) == None
    ensures Lookup(body.fields, "uom") == Some(Str(s)) && (s == "" || Utf16Length(s) > 20) ==>
              ParseItem(body, urlParses) == None
    ensures Lookup(body.fields, "barcode") == Some(Str(s)) && Utf16Length(s) > 100 ==>
              ParseItem(body, urlParses) == None
    ensures Lookup(body.fields, "imageUrl") == Some(Str(s)) && s != "" && !AcceptedImageUrl(s, urlParses) ==>
              ParseItem(body, urlParses) == None
    ensures Lookup(body.fields, "category") == Some(Num(x)) ==> ParseItem(body, urlParses) == None
  {
  }

  /**
   * A body with a valid sku and name, no uom and no minQty, and each optional
   * field absent, null or (for imageUrl) "" is accepted with the defaults:
   * uom "pcs", minQty 0 and no category, barcode or imageUrl. Other keys are dropped.
   */
  lemma ItemDefaultsApplied(fields: map<string, Value>, sku: string, name: string, urlParses: string -> bool)
    requires Lookup(fields, "sku") == Some(Str(sku)) && IsSku(sku)
    requires Lookup(fields, "name") == Some(Str(name)) && 1 <= Utf16Length(name) <= 255
    requires "uom" !in fields && "minQty" !in fields
    requires Lookup(fields, "category") in {None, Some(Null)}
    requires Lookup(fields, "barcode") in {None, Some(Null)}
    requires Lookup(fields, "imageUrl") in {None, Some(Null), Some(Str(""))}
    ensures ParseItem(Obj(fields), urlParses) == Some(ItemInput(sku, name, None, DefaultUom, None, 0.0, None))
  {
    assert ValidItem(Obj(fields), urlParses);
  }

  function OptionalStringEntry(m: map<string, Value>, key: string, v: Option<string>): map<string, Value>
  {
    if v.Some? then m[key := Str(v.value)] else m
  }

  function OptionalNumberEntry(m: map<string, Value>, key: string, v: Option<real>): map<string, Value>
  {
    if v.Some? then m[key := Num(v.value)] else m
  }

  /** The body a client sends for already-normalised item data: absent fields are left out. */
  function EncodeItem(i: ItemInput): Value
  {
    var m := map["sku" := Str(i.sku), "name" := Str(i.name), "uom" := Str(i.uom), "minQty" := Num(i.minQty)];
    var m := OptionalStringEntry(m, "category", i.category);
    var m := OptionalStringEntry(m, "barcode", i.barcode);
    Obj(OptionalStringEntry(m, "imageUrl", i.imageUrl))
  }

  /** Every well-formed item survives encoding and parsing unchanged. */
  lemma ItemRoundTrip(i: ItemInput, urlParses: string -> bool)
    requires WellFormedItem(i, urlParses)
    ensures ParseItem(EncodeItem(i), urlParses) == Some(i)
  {
    var f := EncodeItem(i).fields;
    assert Lookup(f, "sku") == Some(Str(i.sku));
    assert Lookup(f, "imageUrl") == if i.imageUrl.Some? then Some(Str(i.imageUrl.value)) else None;
    assert ValidItem(EncodeItem(i), urlParses);
  }

  /** Normalisation is idempotent: parsing the normalised data gives it back. */
  lemma ItemNormalizationIdempotent(body: Value, urlParses: string -> bool)
    requires ParseItem(body, urlParses).Some?
    ensures ParseItem(EncodeItem(ParseItem(body, urlParses).value), urlParses) == ParseItem(body, urlParses)
  {
    ItemRoundTrip(ParseItem(body, urlParses).value, urlParses);
  }

  // ---------------------------------------------------------------------------
  // CreateMoveSchema

  /** The move schema's rules on the fields a client fills in itself: all but locationId and userName. */
  predicate MoveFieldRules(f: map<string, Value>)
  {
    && PositiveInteger(Lookup(f, "itemId"))
    && MoveTypeField(Lookup(f, "type"))
    && NumberIn(Lookup(f, "qty"), MinMoveQty, MaxAmount)
    && NullableNumber(Lookup(f, "unitCost"), 0.0, MaxAmount)
    && NullableNumber(Lookup(f, "sellPrice"), 0.0, MaxAmount)
    && NullableString(Lookup(f, "ref"), 100)
    && NullableString(Lookup(f, "note"), 500)
  }

  predicate ValidMove(body: Value)
  {
    && body.Obj?
    && MoveFieldRules(body.fields)
    && PositiveInteger(Lookup(body.fields, "locationId"))
    && NullableString(Lookup(body.fields, "userName"), 100)
  }

  function NormalizeMove(body: Value): MoveInput
    requires ValidMove(body)
  {
    var f := body.fields;
    MoveInput(
      Lookup(f, "itemId").value.n.Floor,
      Lookup(f, "locationId").value.n.Floor,
      MoveTypeOf(Lookup(f, "type").value.s).value,
      Lookup(f, "qty").value.n,
      NullNumberToAbsent(Lookup(f, "unitCost")),
      NullNumberToAbsent(Lookup(f, "sellPrice")),
      NullToAbsent(Lookup(f, "ref")),
      NullToAbsent(Lookup(f, "note")),
      NullToAbsent(Lookup(f, "userName")))
  }

  /** What `CreateMoveSchema` guarantees about the data it lets through. */
  predicate WellFormedMove(m: MoveInput)
  {
    && m.itemId >= 1 && m.locationId >= 1
    && MinMoveQty <= m.qty <= MaxAmount
    && (m.unitCost.Some? ==> 0.0 <= m.unitCost.value <= MaxAmount)
    && (m.sellPrice.Some? ==> 0.0 <= m.sellPrice.value <= MaxAmount)
    && (m.ref.Some? ==> Utf16Length(m.ref.value) <= 100)
    && (m.note.Some? ==> Utf16Length(m.note.value) <= 500)
    && (m.userName.Some? ==> Utf16Length(m.userName.value) <= 100)
  }

  /** `CreateMoveSchema.parse(body)`: None where zod throws. */
  function ParseMove(body: Value): (r: Option<MoveInput>)
    ensures r.Some? ==> body.Obj? && WellFormedMove(r.value) && r.value.qty > 0.0
    ensures r.Some? ==> (Lookup(body.fields, "itemId") == Some(Num(r.value.itemId as real))
                         && Lookup(body.fields, "locationId") == Some(Num(r.value.locationId as real))
                         && Lookup(body.fields, "qty") == Some(Num(r.value.qty)))
    ensures r.Some? ==> (Lookup(body.fields, "type") == Some(Str(MoveTypeName(r.value.moveType)))
                         && CarriesNumber(Lookup(body.fields, "unitCost"), r.value.unitCost)
                         && CarriesNumber(Lookup(body.fields, "sellPrice"), r.value.sellPrice)
                         && CarriesString(Lookup(body.fields, "ref"), r.value.ref)
                         && CarriesString(Lookup(body.fields, "note"), r.value.note)
                         && CarriesString(Lookup(body.fields, "userName"), r.value.userName))
    ensures ValidMove(body) ==> r.Some?
    ensures (body.Obj? && ("itemId" !in body.fields || "locationId" !in body.fields
                           || "type" !in body.fields || "qty" !in body.fields)) ==> r == None
    ensures !body.Obj? ==> r == None
  {
    if ValidMove(body) then
      var f := body.fields;
      NullNumberCarries(Lookup(f, "unitCost"), 0.0, MaxAmount);
      NullNumberCarries(Lookup(f, "sellPrice"), 0.0, MaxAmount);
      NullToAbsentCarries(Lookup(f, "ref"), 100);
      NullToAbsentCarries(Lookup(f, "note"), 500);
      NullToAbsentCarries(Lookup(f, "userName"), 100);
      var t := MoveTypeOf(Lookup(f, "type").value.s).value;
      assert Lookup(f, "type") == Some(Str(MoveTypeName(t)));
      Some(NormalizeMove(body))
    else None
  }

  /** A present move field outside its rule makes the whole body fail. */
  lemma MoveFieldRulesEnforced(body: Value, x: real, s: string)
    requires body.Obj?
    ensures Lookup(body.fields, "type") == Some(Str(s)) && MoveTypeOf(s).None? ==> ParseMove(body) == None
    ensures Lookup(body.fields, "qty") == Some(Num(x)) && (x < MinMoveQty || x > MaxAmount) ==>
              ParseMove(body) == None
    ensures Lookup(body.fields, "unitCost") == Some(Num(x)) && (x < 0.0 || x > MaxAmount) ==>
              ParseMove(body) == None
    ensures Lookup(body.fields, "sellPrice") == Some(Num(x)) && (x < 0.0 || x > MaxAmount) ==>
              ParseMove(body) == None
    ensures Lookup(body.fields, "ref") == Some(Str(s)) && Utf16Length(s) > 100 ==> ParseMove(body) == None
    ensures Lookup(body.fields, "note") == Some(Str(s)) && Utf16Length(s) > 500 ==> ParseMove(body) == None
    ensures Lookup(body.fields, "userName") == Some(Str(s)) && Utf16Length(s) > 100 ==> ParseMove(body) == None
  {
    if Lookup(body.fields, "type") == Some(Str(s)) && ParseMove(body).Some? {
      assert MoveTypeOf(MoveTypeName(ParseMove(body).value.moveType)).Some?;
    }
  }

  function MoveTypeName(t: MoveType): string
  {
    match t
    case IN => "IN"
    case OUT => "OUT"
    case ADJUST => "ADJUST"
  }

  /** The body a client sends for already-normalised move data: absent fields are left out. */
  function EncodeMove(m: MoveInput): Value
  {
    var f := map["itemId" := Num(m.itemId as real), "locationId" := Num(m.locationId as real),
                 "type" := Str(MoveTypeName(m.moveType)), "qty" := Num(m.qty)];
    var f := OptionalNumberEntry(f, "unitCost", m.unitCost);
    var f := OptionalNumberEntry(f, "sellPrice", m.sellPrice);
    var f := OptionalStringEntry(f, "ref", m.ref);
    var f := OptionalStringEntry(f, "note", m.note);
    Obj(OptionalStringEntry(f, "userName", m.userName))
  }

  /** Every well-formed move survives encoding and parsing unchanged. */
  lemma MoveRoundTrip(m: MoveInput)
    requires WellFormedMove(m)
    ensures ParseMove(EncodeMove(m)) == Some(m)
  {
    var body := EncodeMove(m);
    var f := body.fields;
    assert Lookup(f, "itemId") == Some(Num(m.itemId as real));
    assert Lookup(f, "locationId") == Some(Num(m.locationId as real));
    assert Lookup(f, "type") == Some(Str(MoveTypeName(m.moveType)));
    assert Lookup(f, "qty") == Some(Num(m.qty));
    assert Lookup(f, "unitCost") == if m.unitCost.Some? then Some(Num(m.unitCost.value)) else None;
    assert Lookup(f, "sellPrice") == if m.sellPrice.Some? then Some(Num(m.sellPrice.value)) else None;
    assert Lookup(f, "ref") == if m.ref.Some? then Some(Str(m.ref.value)) else None;
    assert Lookup(f, "note") == if m.note.Some? then Some(Str(m.note.value)) else None;
    assert Lookup(f, "userName") == if m.userName.Some? then Some(Str(m.userName.value)) else None;
    assert MoveTypeOf(MoveTypeName(m.moveType)) == Some(m.moveType);
    assert (m.itemId as real).Floor == m.itemId;
    assert (m.locationId as real).Floor == m.locationId;
    assert ValidMove(body);
    assert NormalizeMove(body) == m;
  }

  /** Normalisation is idempotent: parsing the normalised data gives it back. */
  lemma MoveNormalizationIdempotent(body: Value)
    requires ParseMove(body).Some?
    ensures ParseMove(EncodeMove(ParseMove(body).value)) == ParseMove(body)
  {
    MoveRoundTrip(ParseMove(body).value);
  }

  // ---------------------------------------------------------------------------
  // CreateLocationSchema (declared in the locations route)

  /** One zod issue: where it is, and its message. */
  datatype Issue = Issue(path: seq<string>, message: string)

  /**
   * `CreateLocationSchema.parse(body)`: the name, or the issues zod reports.
   * Messages other than the schema's own two are zod's defaults.
   */
  function ParseLocation(body: Value): (r: Result<string, seq<Issue>>)
    ensures r.Ok? <==> body.Obj? && StringIn(Lookup(body.fields, "name"), 1, 100)
    ensures r.Ok? ==> Lookup(body.fields, "name") == Some(Str(r.value)) && 1 <= Utf16Length(r.value) <= 100
    ensures r.Err? ==> |r.error| == 1
  {
    if !body.Obj? then Err([Issue([], "Expected object, received " + TypeName(body))])
    else match Lookup(body.fields, "name")
      case None => Err([Issue(["name"], "Required")])
      case Some(v) =>
        if !v.Str? then Err([Issue(["name"], "Expected string, received " + TypeName(v))])
        else if Utf16Length(v.s) < 1 then Err([Issue(["name"], "Location name is required")])
        else if Utf16Length(v.s) > 100 then Err([Issue(["name"], "Location name must be 100 characters or less")])
        else Ok(v.s)
  }

  /** Every name of 1 to 100 UTF-16 code units is accepted as it is. */
  lemma LocationNameAccepted(name: string)
    requires 1 <= Utf16Length(name) <= 100
    ensures ParseLocation(Obj(map["name" := Str(name)])) == Ok(name)
  {
  }

  /**
   * A name of 60 emoji is 60 characters but 120 UTF-16 code units, so zod
   * rejects it as longer than 100.
   */
  lemma AstralNameRejected()
    ensures var name := seq(60, _ => '\U{1F600}');
            ParseLocation(Obj(map["name" := Str(name)]))
              == Err([Issue(["name"], "Location name must be 100 characters or less")])
  {
    var name := seq(60, _ => '\U{1F600}');
    Utf16LengthOfAstral(name);
  }
}
