/** Server-side pricing. The order total is a 32-bit sum that may wrap; the Stripe
    line items carry 64-bit amounts, so Stripe charges the exact sum. */
module Pricing {
  import opened Domain

  datatype Item = Item(productId: string, quantity: int)

  /** A catalogue row; the table admits only positive 32-bit prices. */
  datatype Product = Product(name: string, unit: int, currency: string)

  datatype Line = Line(productId: string, name: string, quantity: int, unit: int, lineTotal: int)

  datatype Priced = Priced(currency: string, total: int, lines: seq<Line>)

  datatype PricingError = ProductNotFound(productId: string) | MixedCurrency

  const MAX_INT32 := 2_147_483_647
  const MAX_ITEMS := 20
  const MAX_QUANTITY := 99

  /** The largest unit price for which no accepted cart can wrap. */
  const SAFE_UNIT := 1_084_587

  /** The largest unit price for which no accepted cart can wrap all the way round to a
      positive total again. */
  const SAFE_STORED_UNIT := 2_169_175

  /** Two's-complement 32-bit value of an integer. */
  function Wrap32(x: int): (r: int)
    ensures -0x8000_0000 <= r < 0x8000_0000
    ensures Congruent(x, r)
    ensures -0x8000_0000 <= x < 0x8000_0000 ==> r == x
  {
    (x + 0x8000_0000) % 0x1_0000_0000 - 0x8000_0000
  }

  predicate Congruent(a: int, b: int) {
    (a - b) % 0x1_0000_0000 == 0
  }

  predicate ValidProduct(p: Product) {
    1 <= p.unit <= MAX_INT32
  }

  function MakeLine(item: Item, p: Product): Line {
    Line(item.productId, p.name, item.quantity, p.unit, Wrap32(p.unit * item.quantity))
  }

  /** The total the order row stores: every addition wraps. */
  function WrapTotal(lines: seq<Line>): int {
    if lines == [] then 0
    else Wrap32(WrapTotal(lines[..|lines| - 1]) + lines[|lines| - 1].lineTotal)
  }

  /** The total Stripe charges: unit amount times quantity, summed without wrapping. */
  function ExactTotal(lines: seq<Line>): int {
    if lines == [] then 0
    else ExactTotal(lines[..|lines| - 1]) + lines[|lines| - 1].unit * lines[|lines| - 1].quantity
  }

  /** What the pricing loop has computed once it has consumed `items`. */
  function PriceItems(items: seq<Item>, products: map<string, Product>): Result<Priced, PricingError> {
    if items == [] then Ok(Priced("", 0, []))
    else
      var n := |items| - 1;
      var item := items[n];
      match PriceItems(items[..n], products)
      case Err(e) => Err(e)
      case Ok(soFar) =>
        if item.productId !in products then Err(ProductNotFound(item.productId))
        else
          var p := products[item.productId];
          if n > 0 && p.currency != soFar.currency then Err(MixedCurrency)
          else
            Ok(AddLine(soFar, item, p))
  }

  lemma {:induction false} ErrorsStick(items: seq<Item>, products: map<string, Product>, n: nat)
    requires n <= |items| && PriceItems(items[..n], products).Err?
    ensures PriceItems(items, products) == PriceItems(items[..n], products)
    decreases |items|
  {
    if n == |items| {
      assert items[..n] == items;
    } else {
      assert items[..|items| - 1][..n] == items[..n];
      ErrorsStick(items[..|items| - 1], products, n);
    }
  }

  /** One more item, priced on top of what came before. */
  lemma PriceOneMore(items: seq<Item>, products: map<string, Product>, n: nat, soFar: Priced)
    requires n < |items| && PriceItems(items[..n], products) == Ok(soFar)
    ensures items[n].productId !in products ==>
              PriceItems(items[..n + 1], products) == Err(ProductNotFound(items[n].productId))
    ensures items[n].productId in products ==>
              var p := products[items[n].productId];
              PriceItems(items[..n + 1], products) ==
              if n > 0 && p.currency != soFar.currency then Err(MixedCurrency) else Ok(AddLine(soFar, items[n], p))
  {
    assert items[..n + 1][..n] == items[..n];
  }

  /** The loop over the cart, accumulating the 32-bit total and the line items. */
  method BuildCheckoutLineItems(items: seq<Item>, products: map<string, Product>)
    returns (r: Result<Priced, PricingError>)
    ensures r == PriceItems(items, products)
  {
    var currency, total, lines := "", 0, [];
    var index := 0;
    while index < |items|
      invariant 0 <= index <= |items|
      invariant PriceItems(items[..index], products) == Ok(Priced(currency, total, lines))
    {
      PriceOneMore(items, products, index, Priced(currency, total, lines));
      var item := items[index];
      if item.productId !in products {
        ErrorsStick(items, products, index + 1);
        return Err(ProductNotFound(item.productId));
      }
      var product := products[item.productId];
      if index == 0 {
        currency := product.currency;
      } else if product.currency != currency {
        ErrorsStick(items, products, index + 1);
        return Err(MixedCurrency);
      }
      var line := MakeLine(item, product);
      total := Wrap32(total + line.lineTotal);
      lines := lines + [line];
      index := index + 1;
    }
    assert items[..index] == items;
    return Ok(Priced(currency, total, lines));
  }

  ghost predicate OneCurrency(items: seq<Item>, products: map<string, Product>, currency: string) {
    forall i :: 0 <= i < |items| ==>
      items[i].productId in products && products[items[i].productId].currency == currency
  }

  /** The lines are, position by position, those of the cart. */
  ghost predicate LinesOf(p: Priced, items: seq<Item>, products: map<string, Product>) {
    && |p.lines| == |items|
    && (forall i :: 0 <= i < |items| ==>
          items[i].productId in products &&
          var product := products[items[i].productId];
          p.lines[i] == Line(items[i].productId, product.name, items[i].quantity, product.unit,
                             Wrap32(product.unit * items[i].quantity)))
  }

  lemma WrapTotalSnoc(lines: seq<Line>, line: Line)
    ensures WrapTotal(lines + [line]) == Wrap32(WrapTotal(lines) + line.lineTotal)
  {
    assert (lines + [line])[..|lines|] == lines;
  }

  ghost predicate PricedFor(p: Priced, items: seq<Item>, products: map<string, Product>) {
    LinesOf(p, items, products) && p.total == WrapTotal(p.lines) && OneCurrency(items, products, p.currency)
  }

  /** What was priced so far, with one more item on top. */
  function AddLine(soFar: Priced, item: Item, p: Product): Priced {
    var line := MakeLine(item, p);
    Priced(p.currency, Wrap32(soFar.total + line.lineTotal), soFar.lines + [line])
  }

  lemma {:induction false} PricedLines(items: seq<Item>, products: map<string, Product>)
    requires PriceItems(items, products).Ok?
    ensures PricedFor(PriceItems(items, products).value, items, products)
  {
    if items != [] {
      var n := |items| - 1;
      var soFar := PriceItems(items[..n], products).value;
      PricedLines(items[..n], products);
      PricedSnoc(items, products, n, soFar);
      PriceOneMore(items, products, n, soFar);
      assert items[..n + 1] == items;
    }
  }

  lemma PricedSnoc(items: seq<Item>, products: map<string, Product>, n: nat, soFar: Priced)
    requires n + 1 == |items| && PricedFor(soFar, items[..n], products)
    ensures items[n].productId in products && (n == 0 || products[items[n].productId].currency == soFar.currency) ==>
              PricedFor(AddLine(soFar, items[n], products[items[n].productId]), items, products)
  {
    assert forall i :: 0 <= i < n ==> items[..n][i] == items[i];
    if items[n].productId in products {
      WrapTotalSnoc(soFar.lines, MakeLine(items[n], products[items[n].productId]));
    }
  }

  lemma {:induction false} OneCurrencySucceeds(items: seq<Item>, products: map<string, Product>, c: string)
    requires OneCurrency(items, products, c)
    ensures PriceItems(items, products).Ok?
    ensures items != [] ==> PriceItems(items, products).value.currency == c
  {
    if items != [] {
      var n := |items| - 1;
      assert OneCurrency(items[..n], products, c);
      OneCurrencySucceeds(items[..n], products, c);
    }
  }

  /** Pricing succeeds exactly when every product exists and all share one currency;
      the priced lines are then, position by position, those of the cart. */
  lemma PricingSucceedsIff(items: seq<Item>, products: map<string, Product>)
    ensures PriceItems(items, products).Ok? <==> exists c :: OneCurrency(items, products, c)
    ensures PriceItems(items, products).Ok? ==>
              PricedFor(PriceItems(items, products).value, items, products)
  {
    if PriceItems(items, products).Ok? {
      PricedLines(items, products);
    }
    forall c | OneCurrency(items, products, c)
      ensures PriceItems(items, products).Ok?
    {
      OneCurrencySucceeds(items, products, c);
    }
  }

  /** The first item that cannot be priced decides the error. */
  ghost predicate FirstUnpriced(items: seq<Item>, products: map<string, Product>, n: nat, e: PricingError)
    requires n < |items|
  {
    && PriceItems(items[..n], products).Ok?
    && var id := items[n].productId;
       match e
       case ProductNotFound(missing) => missing == id && id !in products
       case MixedCurrency =>
         && id in products && n > 0 && items[0].productId in products
         && products[id].currency != products[items[0].productId].currency
  }

  lemma {:induction false} PricingErrorIsFirst(items: seq<Item>, products: map<string, Product>)
    requires PriceItems(items, products).Err?
    ensures exists n :: 0 <= n < |items| && FirstUnpriced(items, products, n, PriceItems(items, products).error)
  {
    var n := |items| - 1;
    var e := PriceItems(items, products).error;
    if PriceItems(items[..n], products).Err? {
      PricingErrorIsFirst(items[..n], products);
      var m :| 0 <= m < n && FirstUnpriced(items[..n], products, m, e);
      assert items[..n][..m] == items[..m];
      assert FirstUnpriced(items, products, m, e);
    } else {
      PricedLines(items[..n], products);
      assert n > 0 ==> items[..n][0] == items[0];
      assert FirstUnpriced(items, products, n, e);
    }
  }

  /** Whatever the prices, the stored total agrees with Stripe's sum modulo 2^32. */
  lemma {:induction false} TotalCongruentToStripe(lines: seq<Line>)
    requires forall i :: 0 <= i < |lines| ==> lines[i].lineTotal == Wrap32(lines[i].unit * lines[i].quantity)
    ensures Congruent(ExactTotal(lines), WrapTotal(lines))
    ensures -0x8000_0000 <= WrapTotal(lines) < 0x8000_0000
  {
    if lines != [] {
      var n := |lines| - 1;
      TotalCongruentToStripe(lines[..n]);
      CongruenceAdds(ExactTotal(lines[..n]), WrapTotal(lines[..n]),
                     lines[n].unit * lines[n].quantity, lines[n].lineTotal);
    }
  }

  lemma CongruenceAdds(a: int, b: int, c: int, d: int)
    requires Congruent(a, b) && Congruent(c, d)
    ensures Congruent(a + c, Wrap32(b + d))
  {
  }

  /** If the stored total equals the amount Stripe charged, nothing wrapped on balance. */
  lemma NoNetWrapWhenAmountsAgree(lines: seq<Line>)
    requires forall i :: 0 <= i < |lines| ==> lines[i].lineTotal == Wrap32(lines[i].unit * lines[i].quantity)
    ensures WrapTotal(lines) == ExactTotal(lines) <==> -0x8000_0000 <= ExactTotal(lines) <= MAX_INT32
  {
    TotalCongruentToStripe(lines);
  }

  /** Lines a validated cart can produce when no unit price exceeds `cap`. */
  ghost predicate AcceptedLines(lines: seq<Line>, cap: int) {
    && |lines| <= MAX_ITEMS
    && (forall i :: 0 <= i < |lines| ==>
          && 1 <= lines[i].quantity <= MAX_QUANTITY
          && 1 <= lines[i].unit <= cap
          && lines[i].lineTotal == Wrap32(lines[i].unit * lines[i].quantity))
    && (forall i, j :: 0 <= i < j < |lines| ==> lines[i].productId != lines[j].productId)
  }

  lemma MultiplyMonotone(a: int, b: int, c: int)
    requires a <= b && c >= 0
    ensures a * c <= b * c
  {
    assert (b - a) * c >= 0;
  }

  lemma ProductBounds(unit: int, quantity: int, cap: int)
    requires 1 <= unit <= cap && 1 <= quantity <= MAX_QUANTITY
    ensures 1 <= unit * quantity <= cap * MAX_QUANTITY
  {
    MultiplyMonotone(1, unit, quantity);
    MultiplyMonotone(unit, cap, quantity);
  }

  lemma {:induction false} SafeTotalIsExact(lines: seq<Line>)
    requires AcceptedLines(lines, SAFE_UNIT)
    ensures WrapTotal(lines) == ExactTotal(lines)
    ensures |lines| <= ExactTotal(lines) <= |lines| * (SAFE_UNIT * MAX_QUANTITY)
  {
    if lines != [] {
      var n := |lines| - 1;
      SafeTotalIsExact(lines[..n]);
      ProductBounds(lines[n].unit, lines[n].quantity, SAFE_UNIT);
    }
  }

  lemma {:induction false} StoredTotalBound(lines: seq<Line>)
    requires AcceptedLines(lines, SAFE_STORED_UNIT)
    ensures |lines| <= ExactTotal(lines) <= |lines| * (SAFE_STORED_UNIT * MAX_QUANTITY)
  {
    if lines != [] {
      var n := |lines| - 1;
      StoredTotalBound(lines[..n]);
      ProductBounds(lines[n].unit, lines[n].quantity, SAFE_STORED_UNIT);
    }
  }

  /** Up to that price a positive total is an exact one. */
  lemma PositiveTotalIsExact(lines: seq<Line>, cap: int)
    requires AcceptedLines(lines, cap) && cap <= SAFE_STORED_UNIT && WrapTotal(lines) > 0
    ensures WrapTotal(lines) == ExactTotal(lines)
  {
    TotalCongruentToStripe(lines);
    StoredTotalBound(lines);
  }

  /** A full cart of the dearest lines, on distinct products. */
  function DearestCart(n: nat, cap: int): seq<Line> {
    seq(n, i requires 0 <= i => Line(seq(i + 1, _ => 'a'), "", MAX_QUANTITY, cap, Wrap32(cap * MAX_QUANTITY)))
  }

  lemma {:induction false} DearestCartTotal(n: nat, cap: int)
    ensures ExactTotal(DearestCart(n, cap)) == n * (cap * MAX_QUANTITY)
  {
    if n > 0 {
      DearestCartTotal(n - 1, cap);
      assert DearestCart(n, cap)[..n - 1] == DearestCart(n - 1, cap);
      var each := cap * MAX_QUANTITY;
      assert ExactTotal(DearestCart(n, cap)) == ExactTotal(DearestCart(n - 1, cap)) + each;
      assert n * each == (n - 1) * each + each;
    }
  }

  lemma DearestCartIsAccepted(n: nat, cap: int)
    requires n <= MAX_ITEMS && 1 <= cap
    ensures AcceptedLines(DearestCart(n, cap), cap)
  {
    var cart := DearestCart(n, cap);
    forall i, j | 0 <= i < j < |cart|
      ensures cart[i].productId != cart[j].productId
    {
      assert |cart[i].productId| == i + 1 && |cart[j].productId| == j + 1;
    }
  }

  /** 1,084,587 cents is exactly the price cap below which no accepted cart wraps. */
  lemma SafeUnitIsExact(cap: int)
    requires 1 <= cap <= MAX_INT32
    ensures (forall lines :: AcceptedLines(lines, cap) ==> WrapTotal(lines) == ExactTotal(lines))
            <==> cap <= 1_084_587
  {
    if cap <= SAFE_UNIT {
      forall lines | AcceptedLines(lines, cap)
        ensures WrapTotal(lines) == ExactTotal(lines)
      {
        SafeTotalIsExact(lines);
      }
    } else {
      var cart := DearestCart(MAX_ITEMS, cap);
      DearestCartTotal(MAX_ITEMS, cap);
      TotalCongruentToStripe(cart);
      DearestCartIsAccepted(MAX_ITEMS, cap);
    }
  }
}
