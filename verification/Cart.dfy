/** Cart contents, the snapshot Place prices, and Cart.Total
    (internal/features/cart/service.go, internal/features/cart/domain/cart.go). */
module Cart {
  import opened Common
  import opened Inventory

  datatype Line = Line(product: ProductId, quantity: int)

  /** The product data a cart line is priced from; a product the lookup does not know is
      shown as unavailable with a zero price. */
  datatype Product = Product(price: Money, published: bool)

  type Catalog = map<ProductId, Product>

  datatype Entry = Entry(product: ProductId, quantity: int, price: Money, published: bool)

  datatype Item = Item(product: ProductId, price: Money, quantity: int, subtotal: Money)

  function EntryOf(line: Line, catalog: Catalog): Entry {
    if line.product in catalog
    then Entry(line.product, line.quantity, catalog[line.product].price, catalog[line.product].published)
    else Entry(line.product, line.quantity, Money(0, ""), false)
  }

  function Snapshot(lines: seq<Line>, catalog: Catalog): (r: seq<Entry>)
    ensures |r| == |lines|
    ensures forall i | 0 <= i < |lines| :: r[i] == EntryOf(lines[i], catalog)
  {
    seq(|lines|, i requires 0 <= i < |lines| => EntryOf(lines[i], catalog))
  }

  function ItemOf(e: Entry): Item {
    Item(e.product, e.price, e.quantity, e.price.MulQty(e.quantity))
  }

  function ItemsOf(es: seq<Entry>): (r: seq<Item>)
    ensures |r| == |es|
    ensures forall i | 0 <= i < |es| :: r[i] == ItemOf(es[i])
  {
    seq(|es|, i requires 0 <= i < |es| => ItemOf(es[i]))
  }

  /** The running subtotal of Place after the entries in `es`, or the error that stopped it. */
  function Priced(es: seq<Entry>, currency: string): Result<Money> {
    if es == [] then Ok(Money(0, currency))
    else
      match Priced(es[..|es| - 1], currency)
      case Err(e) => Err(e)
      case Ok(m) =>
        var last := es[|es| - 1];
        if !last.published then Err(BadRequest) else m.Add(last.price.MulQty(last.quantity))
  }

  /** Later lines of one product overwrite earlier ones, as in a Go map. */
  function QuantitiesOf(items: seq<Item>): Quantities {
    if items == [] then map[]
    else
      var last := items[|items| - 1];
      QuantitiesOf(items[..|items| - 1])[last.product := last.quantity]
  }

  /** The amount an order owes for its items: the sum of the item subtotals. */
  function SumOfSubtotals(items: seq<Item>): int {
    if items == [] then 0 else SumOfSubtotals(items[..|items| - 1]) + items[|items| - 1].subtotal.amount
  }

  /** Cart.Total skips unsellable lines and takes its currency from the first sellable one. */
  function Total(es: seq<Entry>): Result<Option<Money>> {
    if es == [] then Ok(None)
    else
      match Total(es[..|es| - 1])
      case Err(e) => Err(e)
      case Ok(t) =>
        var last := es[|es| - 1];
        if !last.published then Ok(t)
        else
          var start := if t.Some? then t.value else Money(0, last.price.currency);
          match start.Add(last.price.MulQty(last.quantity))
          case Err(e) => Err(e)
          case Ok(m) => Ok(Some(m))
  }

  /** Cart.Total's loop. */
  method CartTotal(es: seq<Entry>) returns (r: Result<Option<Money>>)
    ensures r == Total(es)
  {
    var total := Money(0, "");
    var seeded := false;
    for i := 0 to |es|
      invariant Total(es[..i]) == Ok(if seeded then Some(total) else None)
    {
      assert es[..i + 1][..i] == es[..i];
      if es[i].published {
        if !seeded {
          total := Money(0, es[i].price.currency);
          seeded := true;
        }
        var sum := total.Add(es[i].price.MulQty(es[i].quantity));
        if sum.Err? {
          TotalStops(es, i + 1);
          return Err(sum.error);
        }
        total := sum.value;
      }
    }
    assert es[..|es|] == es;
    return Ok(if seeded then Some(total) else None);
  }

  lemma {:induction false} TotalStops(es: seq<Entry>, k: nat)
    requires k <= |es| && Total(es[..k]).Err?
    ensures Total(es) == Total(es[..k])
    decreases |es|
  {
    if k < |es| {
      assert es[..|es| - 1][..k] == es[..k];
      TotalStops(es[..|es| - 1], k);
    } else {
      assert es[..k] == es;
    }
  }

  function Sellable(es: seq<Entry>): seq<Entry> {
    if es == [] then []
    else Sellable(es[..|es| - 1]) + if es[|es| - 1].published then [es[|es| - 1]] else []
  }

  /** The cart shows the price of its sellable lines, as Place would price them alone. */
  lemma {:induction false} TotalPricesSellable(es: seq<Entry>)
    ensures var sold := Sellable(es);
            if sold == [] then Total(es) == Ok(None)
            else
              match Priced(sold, sold[0].price.currency)
              case Ok(m) => Total(es) == Ok(Some(m))
              case Err(_) => Total(es).Err?
    decreases |es|
  {
    if es != [] {
      var front, last := es[..|es| - 1], es[|es| - 1];
      TotalPricesSellable(front);
      if last.published {
        var sold := Sellable(front) + [last];
        assert sold[..|sold| - 1] == Sellable(front);
        if Sellable(front) == [] {
          assert Priced(sold[..0], last.price.currency) == Ok(Money(0, last.price.currency));
        }
      } else {
        assert Sellable(es) == Sellable(front);
      }
    }
  }

  /** What Place charges is the sum of its item subtotals and the total the cart shows. */
  lemma {:induction false} PricedMeans(es: seq<Entry>, currency: string)
    requires Priced(es, currency).Ok?
    ensures Priced(es, currency).value == Money(SumOfSubtotals(ItemsOf(es)), currency)
    ensures forall e | e in es :: e.published && e.price.currency == currency
    ensures es != [] ==> Total(es) == Ok(Some(Priced(es, currency).value))
    decreases |es|
  {
    if es != [] {
      var front := es[..|es| - 1];
      PricedMeans(front, currency);
      assert ItemsOf(es)[..|es| - 1] == ItemsOf(front);
      forall e | e in es ensures e.published && e.price.currency == currency {
        assert e in front || e == es[|es| - 1];
      }
    }
  }

  lemma {:induction false} QuantitiesMember(items: seq<Item>, p: ProductId)
    ensures p in QuantitiesOf(items) <==> exists i :: 0 <= i < |items| && items[i].product == p
    ensures p in QuantitiesOf(items) ==>
              exists i :: 0 <= i < |items| && items[i].product == p && items[i].quantity == QuantitiesOf(items)[p]
    decreases |items|
  {
    if items != [] {
      QuantitiesMember(items[..|items| - 1], p);
      var last := items[|items| - 1];
      if last.product == p {
        assert items[|items| - 1].product == p;
      } else {
        var front := items[..|items| - 1];
        if i :| 0 <= i < |front| && front[i].product == p {
          assert items[i].product == p;
        }
        if p in QuantitiesOf(front) {
          var i :| 0 <= i < |front| && front[i].product == p && front[i].quantity == QuantitiesOf(front)[p];
          assert items[i].product == p && items[i].quantity == QuantitiesOf(items)[p];
        }
        if i :| 0 <= i < |items| && items[i].product == p {
          assert front[i].product == p;
        }
      }
    }
  }

  /** The pricing loop stops at the first entry it cannot price. */
  lemma {:induction false} PricedStops(es: seq<Entry>, k: nat, currency: string)
    requires k <= |es| && Priced(es[..k], currency).Err?
    ensures Priced(es, currency) == Priced(es[..k], currency)
    decreases |es|
  {
    if k < |es| {
      assert es[..|es| - 1][..k] == es[..k];
      PricedStops(es[..|es| - 1], k, currency);
    } else {
      assert es[..k] == es;
    }
  }
}
