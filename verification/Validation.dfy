/** Input checks made before anything touches the store. Lengths are byte lengths of the
    UTF-8 encoding. Whether an address parses is decided by a library and is a parameter. */
module Validation {
  import opened Domain
  import opened Pricing
  import opened Canonical

  datatype ValidationError =
    | BadMode | ItemsRequired | TooManyItems | EmailTooLong | EmailInvalid
    | ProductIdRequired | QuantityOutOfRange | DuplicateProduct
    | TooManyMetadataKeys | ReservedMetadataKey | MetadataKeyTooLong | MetadataValueTooLong
    | IdempotencyKeyTooLong

  const HOSTED := "hosted"
  const EMBEDDED := "embedded"
  const MAX_EMAIL := 254
  const MAX_METADATA := 50
  const MAX_METADATA_KEY := 40
  const MAX_METADATA_VALUE := 500
  const MAX_IDEMPOTENCY_KEY := 128

  function Utf8Width(c: char): nat {
    if (c as int) < 0x80 then 1 else if (c as int) < 0x800 then 2 else if (c as int) < 0x1_0000 then 3 else 4
  }

  function ByteLength(s: string): nat {
    if s == "" then 0 else Utf8Width(s[0]) + ByteLength(s[1..])
  }

  predicate IsSpace(c: char) {
    var n := c as int;
    || 9 <= n <= 13 || n == 0x20 || n == 0x85 || n == 0xA0 || n == 0x1680
    || 0x2000 <= n <= 0x200A || n == 0x2028 || n == 0x2029 || n == 0x202F || n == 0x205F || n == 0x3000
  }

  predicate Blank(s: string) {
    forall i :: 0 <= i < |s| ==> IsSpace(s[i])
  }

  predicate ItemOk(item: Item) {
    !Blank(item.productId) && 1 <= item.quantity <= MAX_QUANTITY
  }

  predicate EntryOk(key: string, value: string) {
    !("_" <= key) && ByteLength(key) <= MAX_METADATA_KEY && ByteLength(value) <= MAX_METADATA_VALUE
  }

  predicate ItemsOk(items: seq<Item>) {
    && (forall i :: 0 <= i < |items| ==> ItemOk(items[i]))
    && (forall i, j :: 0 <= i < j < |items| ==> items[i].productId != items[j].productId)
  }

  predicate AcceptedItems(items: seq<Item>) {
    |items| <= MAX_ITEMS && ItemsOk(items)
  }

  predicate MetadataOk(metadata: map<string, string>) {
    |metadata| <= MAX_METADATA && forall k :: k in metadata ==> EntryOk(k, metadata[k])
  }

  predicate ShapeOk(r: Request, emailParses: bool) {
    && (r.mode == HOSTED || r.mode == EMBEDDED)
    && 1 <= |r.items| <= MAX_ITEMS
    && (r.email != "" ==> ByteLength(r.email) <= MAX_EMAIL && emailParses)
  }

  /** What an accepted request looks like. */
  predicate ValidRequest(r: Request, emailParses: bool) {
    ShapeOk(r, emailParses) && ItemsOk(r.items) && MetadataOk(r.metadata)
  }

  predicate ValidKey(key: string) {
    ByteLength(key) <= MAX_IDEMPOTENCY_KEY
  }

  // ---- What each error means -------------------------------------------------------

  ghost predicate ItemProblem(items: seq<Item>, i: nat, error: ValidationError)
    requires i < |items|
  {
    match error
    case ProductIdRequired => Blank(items[i].productId)
    case QuantityOutOfRange => !Blank(items[i].productId) && !(1 <= items[i].quantity <= MAX_QUANTITY)
    case DuplicateProduct => ItemOk(items[i]) && exists j :: 0 <= j < i && items[j].productId == items[i].productId
    case _ => false
  }

  /** The first offending item is the one reported. */
  ghost predicate ItemsExplain(items: seq<Item>, error: ValidationError) {
    exists i :: 0 <= i < |items| && ItemsOk(items[..i]) && ItemProblem(items, i, error)
  }

  ghost predicate MetadataExplains(metadata: map<string, string>, error: ValidationError) {
    match error
    case TooManyMetadataKeys => |metadata| > MAX_METADATA
    case ReservedMetadataKey => exists k :: k in metadata && "_" <= k
    case MetadataKeyTooLong => exists k :: k in metadata && ByteLength(k) > MAX_METADATA_KEY
    case MetadataValueTooLong => exists k :: k in metadata && ByteLength(metadata[k]) > MAX_METADATA_VALUE
    case _ => false
  }

  /** The reported error is really the case, and nothing checked earlier is wrong. */
  ghost predicate Explains(r: Request, emailParses: bool, error: ValidationError) {
    var modeOk := r.mode == HOSTED || r.mode == EMBEDDED;
    match error
    case BadMode => !modeOk
    case ItemsRequired => modeOk && r.items == []
    case TooManyItems => modeOk && |r.items| > MAX_ITEMS
    case EmailTooLong => modeOk && 1 <= |r.items| <= MAX_ITEMS && ByteLength(r.email) > MAX_EMAIL
    case EmailInvalid =>
      modeOk && 1 <= |r.items| <= MAX_ITEMS && r.email != "" && ByteLength(r.email) <= MAX_EMAIL && !emailParses
    case _ =>
      && ShapeOk(r, emailParses)
      && (ItemsExplain(r.items, error) || (ItemsOk(r.items) && MetadataExplains(r.metadata, error)))
  }

  /** Rejects exactly the requests that are not `ValidRequest`, and says why. */
  method ValidateCheckoutInput(r: Request, emailParses: bool) returns (error: Option<ValidationError>)
    ensures error == None <==> ValidRequest(r, emailParses)
    ensures error.Some? ==> Explains(r, emailParses, error.value)
  {
    if r.mode != HOSTED && r.mode != EMBEDDED {
      return Some(BadMode);
    }
    if |r.items| == 0 {
      return Some(ItemsRequired);
    }
    if |r.items| > MAX_ITEMS {
      return Some(TooManyItems);
    }
    if r.email != "" && ByteLength(r.email) > MAX_EMAIL {
      return Some(EmailTooLong);
    }
    if r.email != "" && !emailParses {
      return Some(EmailInvalid);
    }
    error := ValidateItems(r.items);
    if error == None {
      error := ValidateMetadata(r.metadata);
    }
  }

  /** The first offending item decides the error. */
  method ValidateItems(items: seq<Item>) returns (error: Option<ValidationError>)
    ensures error == None <==> ItemsOk(items)
    ensures error.Some? ==> ItemsExplain(items, error.value)
  {
    var seenProducts: set<string> := {};
    var i := 0;
    while i < |items|
      invariant 0 <= i <= |items|
      invariant ItemsOk(items[..i])
      invariant forall p :: p in seenProducts <==> exists j :: 0 <= j < i && items[j].productId == p
    {
      var item := items[i];
      if Blank(item.productId) {
        assert ItemProblem(items, i, ProductIdRequired);
        return Some(ProductIdRequired);
      }
      if item.quantity < 1 || item.quantity > MAX_QUANTITY {
        assert ItemProblem(items, i, QuantityOutOfRange);
        return Some(QuantityOutOfRange);
      }
      if item.productId in seenProducts {
        assert ItemProblem(items, i, DuplicateProduct);
        return Some(DuplicateProduct);
      }
      seenProducts := seenProducts + {item.productId};
      i := i + 1;
    }
    assert items[..i] == items;
    return None;
  }

  /** Visits the entries in whatever order the map yields them; which offending entry is
      reported may vary, whether one is reported does not. */
  method ValidateMetadata(metadata: map<string, string>) returns (error: Option<ValidationError>)
    ensures error == None <==> MetadataOk(metadata)
    ensures error.Some? ==> MetadataExplains(metadata, error.value)
  {
    if |metadata| > MAX_METADATA {
      return Some(TooManyMetadataKeys);
    }
    var rest := metadata.Keys;
    while rest != {}
      invariant rest <= metadata.Keys
      invariant forall k :: k in metadata.Keys - rest ==> EntryOk(k, metadata[k])
      decreases rest
    {
      var key :| key in rest;
      var value := metadata[key];
      if "_" <= key {
        return Some(ReservedMetadataKey);
      }
      if ByteLength(key) > MAX_METADATA_KEY {
        return Some(MetadataKeyTooLong);
      }
      if ByteLength(value) > MAX_METADATA_VALUE {
        return Some(MetadataValueTooLong);
      }
      rest := rest - {key};
    }
    return None;
  }

  method ValidateIdempotencyKey(key: string) returns (error: Option<ValidationError>)
    ensures error == if ValidKey(key) then None else Some(IdempotencyKeyTooLong)
  {
    if key == "" {
      return None;
    }
    if ByteLength(key) > MAX_IDEMPOTENCY_KEY {
      return Some(IdempotencyKeyTooLong);
    }
    return None;
  }

  /** For a validated cart with unit prices up to 1,084,587 the stored 32-bit total is
      positive and is exactly what Stripe charges. */
  lemma AcceptedCartTotalIsExact(r: Request, emailParses: bool, products: map<string, Product>)
    requires ValidRequest(r, emailParses) && PriceItems(r.items, products).Ok?
    requires forall p :: p in products ==> 1 <= products[p].unit <= SAFE_UNIT
    ensures var priced := PriceItems(r.items, products).value;
            priced.total == ExactTotal(priced.lines) && 0 < priced.total <= MAX_INT32
  {
    PricingSucceedsIff(r.items, products);
    var lines := PriceItems(r.items, products).value.lines;
    forall i | 0 <= i < |lines|
      ensures lines[i] == MakeLine(r.items[i], products[r.items[i].productId]) && ItemOk(r.items[i])
    {
    }
    assert AcceptedLines(lines, SAFE_UNIT);
    SafeTotalIsExact(lines);
  }

  // ---- Accepted requests, spelled out -------------------------------------------------

  /** The UTF-8 encoding of a character (section 3 of RFC 3629). */
  function Utf8Char(c: char): seq<int> {
    var n := c as int;
    if n <= 0x7F then [n]
    else if n <= 0x7FF then [0xC0 + n / 64, 0x80 + n % 64]
    else if n <= 0xFFFF then [0xE0 + n / 4096, 0x80 + n / 64 % 64, 0x80 + n % 64]
    else [0xF0 + n / 262144, 0x80 + n / 4096 % 64, 0x80 + n / 64 % 64, 0x80 + n % 64]
  }

  function Utf8(s: string): seq<int> {
    if s == "" then [] else Utf8Char(s[0]) + Utf8(s[1..])
  }

  lemma {:induction false} ByteLengthExactly(s: string)
    ensures ByteLength(s) == |Utf8(s)|
  {
    if s != "" {
      ByteLengthExactly(s[1..]);
    }
  }

  /** The white space of Unicode. */
  const SPACES: set<int> := {
    9, 10, 11, 12, 13, 0x20, 0x85, 0xA0, 0x1680, 0x2000, 0x2001, 0x2002, 0x2003, 0x2004, 0x2005, 0x2006,
    0x2007, 0x2008, 0x2009, 0x200A, 0x2028, 0x2029, 0x202F, 0x205F, 0x3000}

  lemma IsSpaceExactly(c: char)
    ensures IsSpace(c) <==> (c as int) in SPACES
  {
  }

  predicate HasText(s: string) {
    exists i :: 0 <= i < |s| && (s[i] as int) !in SPACES
  }

  lemma HasTextExactly(s: string)
    ensures HasText(s) <==> !Blank(s)
  {
    forall i | 0 <= i < |s|
      ensures IsSpace(s[i]) <==> (s[i] as int) in SPACES
    {
      IsSpaceExactly(s[i]);
    }
  }

  predicate PlainEntry(key: string, value: string) {
    (key == "" || key[0] != '_') && |Utf8(key)| <= 40 && |Utf8(value)| <= 500
  }

  lemma EntryExactly(key: string, value: string)
    ensures EntryOk(key, value) <==> PlainEntry(key, value)
  {
    ByteLengthExactly(key);
    ByteLengthExactly(value);
  }

  /** What is accepted, in numbers: twenty items of up to 99 each, no product twice, and so on. */
  lemma ValidRequestExactly(r: Request, emailParses: bool)
    ensures ValidRequest(r, emailParses) <==>
            && (r.mode == "hosted" || r.mode == "embedded")
            && 1 <= |r.items| <= 20
            && (r.email == "" || (|Utf8(r.email)| <= 254 && emailParses))
            && (forall i :: 0 <= i < |r.items| ==> HasText(r.items[i].productId) && 1 <= r.items[i].quantity <= 99)
            && (forall i, j :: 0 <= i < j < |r.items| ==> r.items[i].productId != r.items[j].productId)
            && |r.metadata| <= 50 && (forall k :: k in r.metadata ==> PlainEntry(k, r.metadata[k]))
  {
    ByteLengthExactly(r.email);
    forall i | 0 <= i < |r.items|
      ensures HasText(r.items[i].productId) <==> !Blank(r.items[i].productId)
    {
      HasTextExactly(r.items[i].productId);
    }
    forall k | k in r.metadata
      ensures EntryOk(k, r.metadata[k]) <==> PlainEntry(k, r.metadata[k])
    {
      EntryExactly(k, r.metadata[k]);
    }
  }

  lemma ValidKeyExactly(key: string)
    ensures ValidKey(key) <==> |Utf8(key)| <= 128
  {
    ByteLengthExactly(key);
  }
}
