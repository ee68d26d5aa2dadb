/**
 The mock-transaction loop. Each pass draws a product, a customer, a sales
 representative (region affinity first), a quantity and a day offset, and
 appends the resulting 6-tuple. Every random draw is a nondeterministic
 choice, so what is proved holds for every outcome of the random source.
 */
module Generator {
  import opened Schema
  import opened RepFilter

  /** Number of passes of the loop. */
  const SalesCount: nat := 100
  /** Inclusive bounds of the random quantity. */
  const MinQuantity: int := 1
  const MaxQuantity: int := 10
  /** Largest random day offset: the sale date lies within the last 180 days. */
  const WindowDays: int := 180

  datatype Table = Products | Customers | SalesReps

  /** `random.choice` on an empty list raises IndexError. */
  datatype GenError = EmptyChoice(table: Table)

  datatype Result<+T> = Success(value: T) | Failure(error: GenError) {
    predicate IsFailure() { Failure? }

    function PropagateFailure<U>(): Result<U>
      requires Failure?
    {
      Failure(error)
    }

    function Extract(): T
      requires Success?
    {
      value
    }
  }

  /** The three lists fetched back from the dimension tables. */
  datatype Tables = Tables(products: seq<ProductRow>, customers: seq<RegionRow>, reps: seq<RegionRow>)

  /** The representative with `repId` may serve a customer of `region`. */
  predicate AssignedRep(reps: seq<RegionRow>, region: Region, repId: int)
  {
    exists r :: r in reps && r.id == repId && (HasMatch(reps, region) ==> r.region == region)
  }

  /**
   What a generated sale promises: its product, customer and representative
   ids are those of fetched rows, the representative is of the customer's
   region whenever one is, the amount is quantity times that product's price,
   and quantity and day offset are within their ranges.
   */
  predicate ValidSale(t: Tables, s: SaleEntry)
  {
    && (exists p :: p in t.products && p.id == s.productId
                    && s.totalAmount == TotalAmount(s.quantity, p.price))
    && (exists c :: c in t.customers && c.id == s.customerId
                    && AssignedRep(t.reps, c.region, s.repId))
    && MinQuantity <= s.quantity <= MaxQuantity
    && 0 <= s.daysAgo <= WindowDays
  }

  /**
   One outcome of the random source for one pass: positions in the lists
   `random.choice` is applied to (the representative position indexes the
   selection pool), and the two `random.randint` results.
   */
  datatype Draw = Draw(product: nat, customer: nat, rep: nat, quantity: int, daysAgo: int)

  predicate DrawInRange(t: Tables, d: Draw)
  {
    && d.product < |t.products|
    && d.customer < |t.customers|
    && d.rep < |SelectionPool(t.reps, t.customers[d.customer].region)|
    && MinQuantity <= d.quantity <= MaxQuantity
    && 0 <= d.daysAgo <= WindowDays
  }

  /** The sale one pass of the loop appends, given the outcome of its draws. */
  function MakeEntry(t: Tables, d: Draw): (s: SaleEntry)
    requires DrawInRange(t, d)
    ensures ValidSale(t, s)
  {
    var p := t.products[d.product];
    var c := t.customers[d.customer];
    var r := SelectionPool(t.reps, c.region)[d.rep];
    SaleEntry(p.id, c.id, r.id, d.quantity, TotalAmount(d.quantity, p.price), d.daysAgo)
  }

  /** A position at which a member of a list occurs. */
  lemma PositionOf<T>(xs: seq<T>, x: T) returns (k: nat)
    requires x in xs
    ensures k < |xs| && xs[k] == x
  {
    k :| 0 <= k < |xs| && xs[k] == x;
  }

  /** Every valid sale is what the loop appends for some outcome of its draws. */
  lemma ValidSaleDraw(t: Tables, s: SaleEntry) returns (d: Draw)
    requires ValidSale(t, s)
    ensures DrawInRange(t, d) && MakeEntry(t, d) == s
  {
    var p :| p in t.products && p.id == s.productId
             && s.totalAmount == TotalAmount(s.quantity, p.price);
    var c :| c in t.customers && c.id == s.customerId && AssignedRep(t.reps, c.region, s.repId);
    var r :| r in t.reps && r.id == s.repId && (HasMatch(t.reps, c.region) ==> r.region == c.region);
    var i := PositionOf(t.products, p);
    var j := PositionOf(t.customers, c);
    var pool := SelectionPool(t.reps, c.region);
    var k := PositionOf(pool, r);
    d := Draw(i, j, k, s.quantity, s.daysAgo);
    assert DrawInRange(t, d);
  }

  /**
   The valid sales are exactly the sales some outcome of the random source
   produces: the generator can emit nothing else, and it can emit each of them.
   */
  lemma ValidSaleIffProducible(t: Tables, s: SaleEntry)
    ensures ValidSale(t, s) <==> exists d :: DrawInRange(t, d) && MakeEntry(t, d) == s
  {
    if ValidSale(t, s) {
      var d := ValidSaleDraw(t, s);
    }
  }

  /**
   Where every customer's region has a representative, the fallback never
   fires: every valid sale's representative is of its customer's region.
   */
  lemma FallbackNeverFires(t: Tables, s: SaleEntry)
    requires forall c :: c in t.customers ==> HasMatch(t.reps, c.region)
    requires ValidSale(t, s)
    ensures exists c, r :: c in t.customers && c.id == s.customerId
                           && r in t.reps && r.id == s.repId && r.region == c.region
  {
  }

  /** `random.choice(xs)`: any element of a non-empty list. */
  method Choose<T>(xs: seq<T>, table: Table) returns (r: Result<T>)
    ensures r.Success? <==> |xs| > 0
    ensures r.Success? ==> r.value in xs
    ensures r.Failure? ==> r.error == EmptyChoice(table)
  {
    if |xs| == 0 {
      return Failure(EmptyChoice(table));
    }
    var i :| 0 <= i < |xs|;
    return Success(xs[i]);
  }

  /**
   Choose a representative for a customer of `region`: from the matching
   representatives when there are any, otherwise from the whole list.
   */
  method ChooseRep(reps: seq<RegionRow>, region: Region) returns (r: Result<RegionRow>)
    ensures r.Success? <==> |reps| > 0
    ensures r.Success? ==> r.value in reps
    ensures r.Success? && HasMatch(reps, region) ==> r.value.region == region
    ensures r.Success? ==> r.value in SelectionPool(reps, region)
    ensures r.Failure? ==> r.error == EmptyChoice(SalesReps)
  {
    var matching := MatchingReps(reps, region);
    if |matching| > 0 {
      r := Choose(matching, SalesReps);
    } else {
      r := Choose(reps, SalesReps);
    }
  }

  /**
   The table whose empty list `random.choice` fails on first: products are
   drawn before customers, and customers before representatives.
   */
  function FirstEmpty(t: Tables): (table: Table)
    ensures table == Products <==> |t.products| == 0
    ensures table == Customers <==> |t.products| > 0 && |t.customers| == 0
    ensures table == SalesReps ==> |t.products| > 0 && |t.customers| > 0
  {
    if |t.products| == 0 then Products
    else if |t.customers| == 0 then Customers
    else SalesReps
  }

  /** The loop building `sales_entries`, run for `count` passes. */
  method GenerateSales(t: Tables, count: nat) returns (r: Result<seq<SaleEntry>>)
    ensures r.Failure? <==> count > 0 && (|t.products| == 0 || |t.customers| == 0 || |t.reps| == 0)
    ensures r.Failure? ==> r.error == EmptyChoice(FirstEmpty(t))
    ensures r.Success? ==> |r.value| == count
    ensures r.Success? ==> forall i :: 0 <= i < |r.value| ==> ValidSale(t, r.value[i])
  {
    var entries: seq<SaleEntry> := [];
    var k := 0;
    while k < count
      invariant k <= count
      invariant |entries| == k
      invariant forall i :: 0 <= i < k ==> ValidSale(t, entries[i])
      invariant k > 0 ==> |t.products| > 0 && |t.customers| > 0 && |t.reps| > 0
    {
      var prod :- Choose(t.products, Products);
      var cust :- Choose(t.customers, Customers);
      var rep :- ChooseRep(t.reps, cust.region);
      var qty :| MinQuantity <= qty <= MaxQuantity;
      var total := TotalAmount(qty, prod.price);
      var daysAgo :| 0 <= daysAgo <= WindowDays;
      var s := SaleEntry(prod.id, cust.id, rep.id, qty, total, daysAgo);
      assert AssignedRep(t.reps, cust.region, rep.id);
      entries := entries + [s];
      k := k + 1;
    }
    return Success(entries);
  }
}
