/**
 * Walking the four paginated transaction collections of a settlement,
 * dropping the entries that are not exported and mapping the rest to rows.
 */
module Collect {
  import opened Wrappers
  import opened Settlement
  import opened Rows

  /** A transaction is exported when it has an id and is not a failed refund. */
  predicate Keep(t: Transaction)
  {
    t.info.id.Some? && !(t.Refund? && t.info.status == Some("failed"))
  }

  /** The exported transactions of `xs`, in their order. */
  function Kept(xs: seq<Transaction>): (r: seq<Transaction>)
    ensures |r| <= |xs|
    ensures forall i :: 0 <= i < |r| ==> Keep(r[i])
  {
    if xs == [] then []
    else
      var init, t := xs[..|xs| - 1], xs[|xs| - 1];
      Kept(init) + (if Keep(t) then [t] else [])
  }

  /** Filtering commutes with concatenation, so a page boundary changes nothing. */
  lemma {:induction false} KeptAppend(a: seq<Transaction>, b: seq<Transaction>)
    ensures Kept(a + b) == Kept(a) + Kept(b)
    decreases |b|
  {
    if b == [] {
      assert a + b == a;
    } else {
      var n := |b| - 1;
      assert (a + b)[..|a + b| - 1] == a + b[..n];
      KeptAppend(a, b[..n]);
    }
  }

  /**
   * Nothing exported is dropped or duplicated: an exported transaction occurs
   * in `Kept(xs)` as often as in `xs`, any other never.
   */
  lemma {:induction false} KeptCounts(xs: seq<Transaction>, t: Transaction)
    ensures multiset(Kept(xs))[t] == if Keep(t) then multiset(xs)[t] else 0
  {
    if xs != [] {
      var init, u := xs[..|xs| - 1], xs[|xs| - 1];
      assert xs == init + [u];
      KeptCounts(init, t);
    }
  }

  /** One more transaction mapped onto the rows so far; a failure, earlier or now, is kept. */
  function StepRow(acc: Result<seq<Row>, Error>, t: Transaction, s: Settlement, payments: map<string, string>)
    : Result<seq<Row>, Error>
  {
    match acc
    case Failure(e) => Failure(e)
    case Success(rows) =>
      match TransactionRow(t, s, payments)
      case Failure(e) => Failure(e)
      case Success(row) => Success(rows + [row])
  }

  /** Every transaction of `xs` as a row, stopping at the first one that fails. */
  function MapAll(xs: seq<Transaction>, s: Settlement, payments: map<string, string>): (r: Result<seq<Row>, Error>)
    ensures r.Success? ==> |r.value| == |xs|
  {
    if xs == [] then Success([])
    else StepRow(MapAll(xs[..|xs| - 1], s, payments), xs[|xs| - 1], s, payments)
  }

  /** Mapping succeeds exactly when every transaction maps, and then row `i` is the row of transaction `i`. */
  lemma {:induction false} MapAllRows(xs: seq<Transaction>, s: Settlement, payments: map<string, string>)
    ensures MapAll(xs, s, payments).Success? <==>
      forall i :: 0 <= i < |xs| ==> TransactionRow(xs[i], s, payments).Success?
    ensures MapAll(xs, s, payments).Success? ==>
      forall i :: 0 <= i < |xs| ==> MapAll(xs, s, payments).value[i] == TransactionRow(xs[i], s, payments).value
  {
    if xs != [] {
      var n := |xs| - 1;
      var init := xs[..n];
      MapAllRows(init, s, payments);
      assert forall i :: 0 <= i < n ==> init[i] == xs[i];
    }
  }

  /** A capture the lookup cannot resolve. */
  predicate Unresolved(t: Transaction, payments: map<string, string>)
  {
    t.Capture? && t.paymentId !in payments
  }

  /**
   * A failed mapping names the payment of the FIRST capture, in order, whose
   * payment the lookup lacks: the lookup throws there and nothing after it runs.
   */
  lemma {:induction false} MapAllFailure(xs: seq<Transaction>, s: Settlement, payments: map<string, string>)
    requires MapAll(xs, s, payments).Failure?
    ensures exists i :: 0 <= i < |xs| && Unresolved(xs[i], payments) &&
                        MapAll(xs, s, payments).error == PaymentNotFound(xs[i].paymentId) &&
                        forall j :: 0 <= j < i ==> !Unresolved(xs[j], payments)
  {
    var n := |xs| - 1;
    var init := xs[..n];
    if MapAll(init, s, payments).Failure? {
      MapAllFailure(init, s, payments);
      var i :| 0 <= i < n && Unresolved(init[i], payments) &&
               MapAll(init, s, payments).error == PaymentNotFound(init[i].paymentId) &&
               forall j :: 0 <= j < i ==> !Unresolved(init[j], payments);
      assert forall j :: 0 <= j <= i ==> xs[j] == init[j];
    } else {
      MapAllRows(init, s, payments);
      assert forall j :: 0 <= j < n ==> xs[j] == init[j];
      assert TransactionRow(xs[n], s, payments).Failure?;
    }
  }

  /**
   * The rows the walk has produced after walking `xs`: a transaction without
   * an id and a failed refund are skipped, any other is mapped and its row
   * appended; the first transaction that cannot be mapped aborts the walk.
   */
  function Walk(xs: seq<Transaction>, s: Settlement, payments: map<string, string>): Result<seq<Row>, Error>
  {
    if xs == [] then Success([])
    else
      var init, t := xs[..|xs| - 1], xs[|xs| - 1];
      if Keep(t) then StepRow(Walk(init, s, payments), t, s, payments) else Walk(init, s, payments)
  }

  /** Walking is filtering, then mapping what is left. */
  lemma {:induction false} WalkIsMapOfKept(xs: seq<Transaction>, s: Settlement, payments: map<string, string>)
    ensures Walk(xs, s, payments) == MapAll(Kept(xs), s, payments)
  {
    if xs != [] {
      var init, t := xs[..|xs| - 1], xs[|xs| - 1];
      WalkIsMapOfKept(init, s, payments);
      if Keep(t) {
        var kept := Kept(init) + [t];
        assert Kept(xs) == kept;
        assert kept[..|kept| - 1] == Kept(init) && kept[|kept| - 1] == t;
        assert MapAll(kept, s, payments) == StepRow(MapAll(Kept(init), s, payments), t, s, payments);
        assert Walk(xs, s, payments) == StepRow(Walk(init, s, payments), t, s, payments);
      } else {
        assert Kept(xs) == Kept(init);
      }
    }
  }

  /** Once the walk has aborted, later transactions do not change the outcome. */
  lemma {:induction false} WalkFailureSticks(xs: seq<Transaction>, ys: seq<Transaction>,
                                             s: Settlement, payments: map<string, string>)
    requires Walk(xs, s, payments).Failure?
    ensures Walk(xs + ys, s, payments) == Walk(xs, s, payments)
    decreases |ys|
  {
    if ys == [] {
      assert xs + ys == xs;
    } else {
      var n := |ys| - 1;
      assert (xs + ys)[..|xs + ys| - 1] == xs + ys[..n];
      WalkFailureSticks(xs, ys[..n], s, payments);
    }
  }

  /** The outcome of the collection walk: the rows of every exported transaction. */
  function Collected(s: Settlement, payments: map<string, string>): Result<seq<Row>, Error>
  {
    Walk(AllItems(s), s, payments)
  }

  /**
   * The transaction part of the export: walks captures, payments, refunds and
   * chargebacks, each page by page, and maps every exported transaction.
   */
  method CollectRows(s: Settlement, payments: map<string, string>) returns (res: Result<seq<Row>, Error>)
    ensures res == Collected(s, payments)
  {
    res := WalkCollections(Kinds(s), s, payments);
  }

  /** The walk over the given collections, in order. */
  method WalkCollections(kinds: seq<PageStream>, s: Settlement, payments: map<string, string>)
    returns (res: Result<seq<Row>, Error>)
    ensures res == Walk(ItemsOf(kinds), s, payments)
  {
    var rows: seq<Row> := [];
    ghost var done: seq<Transaction> := [];
    for k := 0 to |kinds|
      invariant done == ItemsOf(kinds[..k])
      invariant Walk(done, s, payments) == Success(rows)
    {
      var drained := DrainCollection(kinds[k], s, payments, done, rows);
      ItemsOfSnoc(kinds, k);
      if drained.Failure? {
        assert kinds == kinds[..k + 1] + kinds[k + 1..];
        ItemsOfAppend(kinds[..k + 1], kinds[k + 1..]);
        WalkFailureSticks(done + StreamItems(kinds[k]), ItemsOf(kinds[k + 1..]), s, payments);
        assert done + StreamItems(kinds[k]) + ItemsOf(kinds[k + 1..]) == ItemsOf(kinds);
        return drained;
      }
      rows := drained.value;
      done := done + StreamItems(kinds[k]);
    }
    assert kinds[..|kinds|] == kinds;
    return Success(rows);
  }

  /**
   * The walk over every page of one collection, continuing from the rows of
   * the transactions `done` already walked: the first page is always walked,
   * then each page `next()` gives until it gives null.
   */
  method DrainCollection(stream: PageStream, s: Settlement, payments: map<string, string>,
                         ghost done: seq<Transaction>, rows0: seq<Row>)
    returns (res: Result<seq<Row>, Error>)
    requires Walk(done, s, payments) == Success(rows0)
    ensures res == Walk(done + StreamItems(stream), s, payments)
  {
    var rows := rows0;
    ghost var pages := stream.Pages();
    ghost var walked := done;
    var page := stream.first;
    var cursor: nat := 0;
    while true
      invariant cursor < |pages| && page == pages[cursor]
      invariant walked == done + Concat(pages[..cursor])
      invariant Walk(walked, s, payments) == Success(rows)
      decreases |pages| - cursor
    {
      var pageResult := WalkPage(page, s, payments, walked, rows);
      PagesStep(done, pages, cursor);
      if pageResult.Failure? {
        LaterPagesAfterFailure(done, pages, cursor + 1, s, payments);
        return pageResult;
      }
      rows := pageResult.value;
      walked := walked + page;
      var next := stream.Next(cursor);
      if next.None? {
        assert pages[..cursor + 1] == pages;
        return Success(rows);
      }
      page := next.value;
      cursor := cursor + 1;
    }
  }

  /** Walking one more page extends the walked transactions by that page. */
  lemma PagesStep(done: seq<Transaction>, pages: seq<seq<Transaction>>, n: nat)
    requires n < |pages|
    ensures done + Concat(pages[..n]) + pages[n] == done + Concat(pages[..n + 1])
  {
    ConcatSnoc(pages, n);
  }

  /** Once a page has aborted the walk, the later pages of the collection do not change the outcome. */
  lemma LaterPagesAfterFailure(done: seq<Transaction>, pages: seq<seq<Transaction>>, n: nat,
                               s: Settlement, payments: map<string, string>)
    requires n <= |pages|
    requires Walk(done + Concat(pages[..n]), s, payments).Failure?
    ensures Walk(done + Concat(pages), s, payments) == Walk(done + Concat(pages[..n]), s, payments)
  {
    assert pages == pages[..n] + pages[n..];
    ConcatAppend(pages[..n], pages[n..]);
    WalkFailureSticks(done + Concat(pages[..n]), Concat(pages[n..]), s, payments);
    assert done + Concat(pages[..n]) + Concat(pages[n..]) == done + Concat(pages);
  }

  /**
   * The walk over one page, continuing from the rows of the transactions
   * `done` already walked.
   */
  method WalkPage(page: seq<Transaction>, s: Settlement, payments: map<string, string>,
                  ghost done: seq<Transaction>, rows0: seq<Row>)
    returns (res: Result<seq<Row>, Error>)
    requires Walk(done, s, payments) == Success(rows0)
    ensures res == Walk(done + page, s, payments)
  {
    var rows := rows0;
    assert done + page[..0] == done;
    for i := 0 to |page|
      invariant Walk(done + page[..i], s, payments) == Success(rows)
    {
      assert (done + page[..i]) + [page[i]] == done + page[..i + 1];
      var step := WalkItem(page[i], s, payments, done + page[..i], rows);
      if step.Failure? {
        assert done + page == (done + page[..i + 1]) + page[i + 1..];
        WalkFailureSticks(done + page[..i + 1], page[i + 1..], s, payments);
        return step;
      }
      rows := step.value;
    }
    assert page[..|page|] == page;
    return Success(rows);
  }

  /**
   * One transaction of a page: one without an id and a failed refund are
   * skipped, any other is mapped and its row appended.
   */
  method WalkItem(t: Transaction, s: Settlement, payments: map<string, string>,
                  ghost done: seq<Transaction>, rows: seq<Row>)
    returns (res: Result<seq<Row>, Error>)
    requires Walk(done, s, payments) == Success(rows)
    ensures res == Walk(done + [t], s, payments)
  {
    assert (done + [t])[..|done|] == done;
    if t.info.id.Some? {
      if t.Refund? && t.info.status == Some("failed") {
        return Success(rows);
      }
      var row := TransactionRow(t, s, payments);
      if row.Failure? {
        return Failure(row.error);
      }
      return Success(rows + [row.value]);
    }
    return Success(rows);
  }

  /**
   * The walk aborts exactly when an exported capture refers to a payment the
   * lookup lacks.
   */
  lemma CollectedOutcome(s: Settlement, payments: map<string, string>)
    ensures Collected(s, payments).Success? <==>
      forall t :: t in Kept(AllItems(s)) && t.Capture? ==> t.paymentId in payments
  {
    var kept := Kept(AllItems(s));
    WalkIsMapOfKept(AllItems(s), s, payments);
    MapAllRows(kept, s, payments);
    if !Collected(s, payments).Success? {
      var i :| 0 <= i < |kept| && TransactionRow(kept[i], s, payments).Failure?;
      assert kept[i] in kept;
    }
  }

  /**
   * What a successful walk yields: one row per exported transaction, in
   * walking order, each with the transaction's id in its id slot.
   */
  lemma CollectedRows(s: Settlement, payments: map<string, string>)
    requires Collected(s, payments).Success?
    ensures
      var rows, kept := Collected(s, payments).value, Kept(AllItems(s));
      |rows| == |kept| &&
      forall i :: 0 <= i < |rows| ==>
        TransactionRow(kept[i], s, payments).Success? &&
        rows[i] == TransactionRow(kept[i], s, payments).value &&
        rows[i][IdColumn] == Text(kept[i].info.id.value)
  {
    var kept := Kept(AllItems(s));
    WalkIsMapOfKept(AllItems(s), s, payments);
    MapAllRows(kept, s, payments);
    var rows := Collected(s, payments).value;
    forall i | 0 <= i < |rows|
      ensures rows[i][IdColumn] == Text(kept[i].info.id.value)
    {
      var row := TransactionRowSlots(kept[i], s, payments);
    }
  }

  /**
   * A page boundary neither drops nor repeats anything: a collection of two
   * pages yields the exported transactions of the first, then of the second.
   */
  lemma PageBoundary(first: seq<Transaction>, second: seq<Transaction>)
    ensures Kept(StreamItems(PageStream(first, [second]))) == Kept(first) + Kept(second)
  {
    StreamItemsPages(PageStream(first, [second]));
    assert Concat([second]) == second by {
      assert [second][..0] == [];
    }
    KeptAppend(first, second);
  }
}
