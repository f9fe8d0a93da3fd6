/**
 * The settlement and its transactions, as the payment API hands them to the
 * converter. Every value here is read-only: the converter never changes it.
 */
module Settlement {
  import opened Wrappers

  /** An API amount object: a currency code and a value, kept in cents. */
  datatype Amount = Amount(currency: string, cents: int)

  /** The optional `details` object of a transaction. */
  datatype Details = Details(
    consumerName: Option<string>,
    consumerAccount: Option<string>,
    consumerBic: Option<string>)

  /** The fields the converter reads from every kind of transaction resource. */
  datatype Common = Common(
    id: Option<string>,
    createdAt: string,
    amount: Amount,
    settlementAmount: Amount,
    status: Option<string>,
    details: Option<Details>,
    amountRefunded: Option<int>)

  /** The four transaction resources, with the fields only one of them has. */
  datatype Transaction =
    | Capture(info: Common, paymentId: string)
    | Payment(info: Common, paymentMethod: Option<string>, description: string)
    | Refund(info: Common, description: string)
    | Chargeback(info: Common)

  /**
   * A paginated collection: the page the collection call returns, then the
   * pages that successive calls of `next()` return until it gives null.
   */
  datatype PageStream = PageStream(first: seq<Transaction>, following: seq<seq<Transaction>>)
  {
    /** Every page of the collection, in the order they are fetched. */
    function Pages(): (ps: seq<seq<Transaction>>)
      ensures |ps| == |following| + 1 && ps[0] == first
    {
      [first] + following
    }

    /** `next()` called on the page after `cursor` earlier calls; None is PHP's null. */
    function Next(cursor: nat): (r: Option<seq<Transaction>>)
      ensures r.Some? <==> cursor + 1 < |Pages()|
      ensures r.Some? ==> r.value == Pages()[cursor + 1]
    {
      if cursor < |following| then Some(following[cursor]) else None
    }
  }

  /** One entry of a month's `revenue` list. */
  datatype Revenue = Revenue(count: int)

  /** One entry of a month's `costs` list: `amountGross.value`, in cents. */
  datatype Cost = Cost(amountGross: int)

  /** The breakdown of one month of a settlement period. */
  datatype MonthlySettlement = MonthlySettlement(
    revenue: seq<Revenue>,
    costs: seq<Cost>,
    invoiceReference: string)

  /**
   * A settlement. `periods` lists the years in order, each as the list of its
   * months in order; the year and month keys themselves are never read.
   */
  datatype Settlement = Settlement(
    id: string,
    reference: string,
    createdAt: string,
    periods: seq<seq<MonthlySettlement>>,
    captures: PageStream,
    payments: PageStream,
    refunds: PageStream,
    chargebacks: PageStream)

  /** The concatenation of a sequence of sequences, in order. */
  function Concat<T>(xss: seq<seq<T>>): seq<T>
  {
    if xss == [] then [] else Concat(xss[..|xss| - 1]) + xss[|xss| - 1]
  }

  lemma {:induction false} ConcatAppend<T>(a: seq<seq<T>>, b: seq<seq<T>>)
    ensures Concat(a + b) == Concat(a) + Concat(b)
    decreases |b|
  {
    if b == [] {
      assert a + b == a;
    } else {
      var n := |b| - 1;
      var ab := a + b;
      assert ab[..|ab| - 1] == a + b[..n];
      assert ab[|ab| - 1] == b[n];
      assert Concat(ab) == Concat(a + b[..n]) + b[n];
      ConcatAppend(a, b[..n]);
      assert Concat(b) == Concat(b[..n]) + b[n];
      assert Concat(a) + Concat(b[..n]) + b[n] == Concat(a) + (Concat(b[..n]) + b[n]);
    }
  }

  /** Taking one more part appends that part. */
  lemma ConcatSnoc<T>(xss: seq<seq<T>>, n: nat)
    requires n < |xss|
    ensures Concat(xss[..n + 1]) == Concat(xss[..n]) + xss[n]
  {
    assert xss[..n + 1][..n] == xss[..n];
  }

  /** The transactions of one collection, across all its pages. */
  function StreamItems(ps: PageStream): seq<Transaction>
  {
    Concat(ps.Pages())
  }

  /** The collections in the order the converter walks them. */
  function Kinds(s: Settlement): (ks: seq<PageStream>)
    ensures |ks| == 4
  {
    [s.captures, s.payments, s.refunds, s.chargebacks]
  }

  /** The transactions of the collections `ks`, walked in order. */
  function ItemsOf(ks: seq<PageStream>): seq<Transaction>
  {
    if ks == [] then [] else ItemsOf(ks[..|ks| - 1]) + StreamItems(ks[|ks| - 1])
  }

  /** Every transaction the converter is offered, in the order it is offered. */
  function AllItems(s: Settlement): seq<Transaction>
  {
    ItemsOf(Kinds(s))
  }

  /** The order of the walk: captures, then payments, then refunds, then chargebacks. */
  lemma AllItemsOrder(s: Settlement)
    ensures AllItems(s) == StreamItems(s.captures) + StreamItems(s.payments)
                           + StreamItems(s.refunds) + StreamItems(s.chargebacks)
  {
    var ks := Kinds(s);
    assert ks[..4] == ks;
    assert ks[..3][..2] == ks[..2] && ks[..2][..1] == ks[..1] && ks[..1][..0] == [];
    assert ItemsOf(ks[..1]) == StreamItems(s.captures);
    assert ItemsOf(ks[..2]) == ItemsOf(ks[..1]) + StreamItems(s.payments);
    assert ItemsOf(ks[..3]) == ItemsOf(ks[..2]) + StreamItems(s.refunds);
    assert ItemsOf(ks) == ItemsOf(ks[..3]) + StreamItems(s.chargebacks);
  }

  lemma ItemsOfSnoc(ks: seq<PageStream>, k: nat)
    requires k < |ks|
    ensures ItemsOf(ks[..k + 1]) == ItemsOf(ks[..k]) + StreamItems(ks[k])
  {
    assert ks[..k + 1][..k] == ks[..k];
  }

  lemma {:induction false} ItemsOfAppend(a: seq<PageStream>, b: seq<PageStream>)
    ensures ItemsOf(a + b) == ItemsOf(a) + ItemsOf(b)
    decreases |b|
  {
    if b == [] {
      assert a + b == a;
    } else {
      var n := |b| - 1;
      var ab := a + b;
      assert ab[..|ab| - 1] == a + b[..n];
      assert ab[|ab| - 1] == b[n];
      assert ItemsOf(ab) == ItemsOf(a + b[..n]) + StreamItems(b[n]);
      ItemsOfAppend(a, b[..n]);
      assert ItemsOf(b) == ItemsOf(b[..n]) + StreamItems(b[n]);
      assert ItemsOf(a) + ItemsOf(b[..n]) + StreamItems(b[n]) == ItemsOf(a) + (ItemsOf(b[..n]) + StreamItems(b[n]));
    }
  }

  /** Pages are walked in order, starting with the first page, which is always walked. */
  lemma {:induction false} StreamItemsPages(ps: PageStream)
    ensures StreamItems(ps) == ps.first + Concat(ps.following)
  {
    ConcatAppend([ps.first], ps.following);
    assert [ps.first][..0] == [];
  }
}
