/**
 The fixed master data and the whole database build: the three dimension
 tables are filled from the seed lists, read back as (id, price) and
 (id, region) lists, 100 sales are generated from them and stored. Every
 customer region of the seed has a representative, so each stored sale
 joins with a product, a customer and a representative of that customer's
 region.
 */
module SeedData {
  import opened Schema
  import opened RepFilter
  import opened Generator

  /** The catalogue; every price is a whole number of currency units. */
  const SeedProducts: seq<Product> := [
    Product("SAP HANA License", "Software", 50000.0),
    Product("SAP S/4HANA Cloud", "Cloud", 15000.0),
    Product("SAP Fiori Implementation", "Service", 12000.0),
    Product("Business Consulting", "Service", 2000.0),
    Product("Cloud Hosting (AWS/Azure)", "Cloud", 500.0),
    Product("Data Migration Service", "Service", 8000.0),
    Product("Oracle DB License", "Software", 45000.0),
    Product("Cybersecurity Audit", "Service", 5000.0)
  ]

  const SeedCustomers: seq<Customer> := [
    Customer("TechNova Inc", "Technology", "East"),
    Customer("Global Mfg Corp", "Manufacturing", "North"),
    Customer("Retail Giants Ltd", "Retail", "South"),
    Customer("AutoWorks", "Automotive", "North"),
    Customer("FinSafe Bank", "Finance", "East"),
    Customer("GreenEnergy", "Energy", "West"),
    Customer("HealthPlus", "Healthcare", "South"),
    Customer("EduTech Solutions", "Education", "West")
  ]

  const SeedReps: seq<Rep> := [
    Rep("Alice Smith", "East"),
    Rep("Bob Johnson", "North"),
    Rep("Charlie Brown", "South"),
    Rep("Diana Prince", "West")
  ]

  datatype Database = Database(
    products: seq<Stored<Product>>,
    customers: seq<Stored<Customer>>,
    reps: seq<Stored<Rep>>,
    sales: seq<Stored<SaleEntry>>)

  /**
   The lists the generator works from, read back from the dimension tables:
   one entry per stored row, and in tables numbered by insertion every entry
   joins back to the stored record with the same price or region.
   */
  function FetchedLists(db: Database): (t: Tables)
    ensures |t.products| == |db.products| && |t.customers| == |db.customers| && |t.reps| == |db.reps|
    ensures IdsSequential(db.products) ==> forall p :: p in t.products ==>
              Lookup(db.products, p.id).Some? && Lookup(db.products, p.id).value.price == p.price
    ensures IdsSequential(db.customers) ==> forall c :: c in t.customers ==>
              Lookup(db.customers, c.id).Some? && Lookup(db.customers, c.id).value.region == c.region
    ensures IdsSequential(db.reps) ==> forall r :: r in t.reps ==>
              Lookup(db.reps, r.id).Some? && Lookup(db.reps, r.id).value.region == r.region
  {
    Tables(SelectIdPrice(db.products), SelectRegions(db.customers, CustomerRegion), SelectRegions(db.reps, RepRegion))
  }

  function CustomerRegion(c: Customer): Region { c.region }

  function RepRegion(r: Rep): Region { r.region }

  /** Every customer region has at least one representative. */
  predicate RegionsCovered(t: Tables)
  {
    forall c :: c in t.customers ==> HasMatch(t.reps, c.region)
  }

  /**
   A sale as the verification join sees it: its three foreign keys resolve,
   the amount is quantity times the joined product's price, the joined
   representative works in the joined customer's region, and quantity and
   day offset lie in their ranges.
   */
  predicate JoinsConsistently(db: Database, s: SaleEntry)
  {
    match (Lookup(db.products, s.productId), Lookup(db.customers, s.customerId), Lookup(db.reps, s.repId))
    case (Some(p), Some(c), Some(r)) =>
      && s.totalAmount == TotalAmount(s.quantity, p.price)
      && r.region == c.region
      && MinQuantity <= s.quantity <= MaxQuantity
      && 0 <= s.daysAgo <= WindowDays
    case _ => false
  }

  /**
   With sequentially numbered dimension tables whose customer regions all
   have a representative, a sale valid for the fetched lists joins consistently.
   */
  lemma ValidSaleJoins(db: Database, s: SaleEntry)
    requires IdsSequential(db.products) && IdsSequential(db.customers) && IdsSequential(db.reps)
    requires RegionsCovered(FetchedLists(db))
    requires ValidSale(FetchedLists(db), s)
    ensures JoinsConsistently(db, s)
  {
  }

  /** Position in the seed's representatives of one serving each seed customer's region. */
  const RepOfSeedCustomer: seq<nat> := [0, 1, 2, 1, 0, 3, 2, 3]

  /** Each of the four customer regions of the seed has a representative. */
  lemma SeedRegionsCovered(db: Database)
    requires NumberedFrom(db.customers, SeedCustomers) && NumberedFrom(db.reps, SeedReps)
    ensures RegionsCovered(FetchedLists(db))
  {
    var t := FetchedLists(db);
    SeedRegionRowsCovered(t.customers, t.reps);
  }

  /** The region lists read back from the seed tables: every customer region has a representative. */
  lemma SeedRegionRowsCovered(customers: seq<RegionRow>, reps: seq<RegionRow>)
    requires |customers| == |SeedCustomers|
    requires forall j :: 0 <= j < |customers| ==> customers[j].region == SeedCustomers[j].region
    requires |reps| == |SeedReps|
    requires forall k :: 0 <= k < |reps| ==> reps[k].region == SeedReps[k].region
    ensures forall c :: c in customers ==> HasMatch(reps, c.region)
  {
    forall c | c in customers
      ensures HasMatch(reps, c.region)
    {
      var j := PositionOf(customers, c);
      var k := RepOfSeedCustomer[j];
      assert reps[k].region == SeedReps[k].region == SeedCustomers[j].region;
      assert reps[k] in reps;
    }
  }

  /**
   The whole script: fresh tables filled from the seed lists, 100 generated
   sales stored with ids 1..100, each joining consistently.
   */
  method BuildDatabase() returns (db: Database)
    ensures NumberedFrom(db.products, SeedProducts)
    ensures NumberedFrom(db.customers, SeedCustomers)
    ensures NumberedFrom(db.reps, SeedReps)
    ensures |db.sales| == SalesCount && IdsSequential(db.sales)
    ensures forall i :: 0 <= i < |db.sales| ==> JoinsConsistently(db, db.sales[i].rec)
  {
    var products := CreateAndInsert(SeedProducts);
    var customers := CreateAndInsert(SeedCustomers);
    var reps := CreateAndInsert(SeedReps);
    var dims := Database(products, customers, reps, []);
    var t := FetchedLists(dims);
    var r := GenerateSales(t, SalesCount);
    var entries := r.value;
    SeedRegionsCovered(dims);
    forall i | 0 <= i < |entries|
      ensures JoinsConsistently(dims, entries[i])
    {
      ValidSaleJoins(dims, entries[i]);
    }
    var sales := CreateAndInsert(entries);
    db := dims.(sales := sales);
  }
}
