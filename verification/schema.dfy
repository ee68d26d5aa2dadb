/**
 The four tables of the demo sales database: products, customers, sales
 representatives and sales. Each table is a sequence of stored rows whose
 `id` column is an AUTOINCREMENT primary key. The database file is deleted
 before it is rebuilt, so every table starts empty and the n-th row inserted
 receives id n.
 */
module Schema {

  datatype Option<+T> = None | Some(value: T)

  /** Regions are plain text, compared by equality ("North", "East", ...). */
  type Region = string

  /** products(name, category, price); the price is an exact real. */
  datatype Product = Product(name: string, category: string, price: real)

  /** customers(company_name, industry, region) */
  datatype Customer = Customer(companyName: string, industry: string, region: Region)

  /** sales_reps(name, region) */
  datatype Rep = Rep(name: string, region: Region)

  /**
   One generated sales record, the 6-tuple appended to the fact table.
   The calendar date is `today - daysAgo`; only the offset is kept here.
   */
  datatype SaleEntry = SaleEntry(
    productId: int,
    customerId: int,
    repId: int,
    quantity: int,
    totalAmount: real,
    daysAgo: int)

  /**
   The amount of a sale: quantity times unit price, computed exactly. Dividing
   it by the unit price gives the quantity back, and a positive quantity of a
   positive price costs at least one unit's price.
   */
  function TotalAmount(quantity: int, unitPrice: real): (amount: real)
    ensures unitPrice != 0.0 ==> amount / unitPrice == quantity as real
    ensures quantity >= 1 && unitPrice > 0.0 ==> amount >= unitPrice
    ensures quantity == 0 || unitPrice == 0.0 ==> amount == 0.0
  {
    quantity as real * unitPrice
  }

  /** A row of a table: the primary key and the inserted record. */
  datatype Stored<T> = Stored(id: int, rec: T)

  /** A product read back as its id and price. */
  datatype ProductRow = ProductRow(id: int, price: real)

  /** A customer or a sales representative read back as its id and region. */
  datatype RegionRow = RegionRow(id: int, region: Region)

  /** The ids of a table are 1, 2, ..., in insertion order. */
  predicate IdsSequential<T>(t: seq<Stored<T>>)
  {
    forall i :: 0 <= i < |t| ==> t[i].id == i + 1
  }

  /**
   A bulk insert: each record gets the next AUTOINCREMENT
   id, one past the largest id of the table, which for a table whose ids are
   sequential is its length plus one.
   */
  function InsertMany<T>(table: seq<Stored<T>>, data: seq<T>): (t: seq<Stored<T>>)
    requires IdsSequential(table)
    ensures IdsSequential(t)
    ensures |t| == |table| + |data|
    ensures t[..|table|] == table
    ensures forall i :: 0 <= i < |data| ==> t[|table| + i].rec == data[i]
    decreases |data|
  {
    if |data| == 0 then table
    else InsertMany(table + [Stored(|table| + 1, data[0])], data[1..])
  }

  /**
   The products' ids and prices, in insertion order. In a table numbered by
   insertion, each row read back joins to the stored product of that price.
   */
  function SelectIdPrice(t: seq<Stored<Product>>): (rows: seq<ProductRow>)
    ensures |rows| == |t|
    ensures forall i :: 0 <= i < |rows| ==> rows[i].id == t[i].id
    ensures IdsSequential(t) ==> forall p :: p in rows ==>
              Lookup(t, p.id).Some? && Lookup(t, p.id).value.price == p.price
  {
    seq(|t|, i requires 0 <= i < |t| => ProductRow(t[i].id, t[i].rec.price))
  }

  /**
   The ids and regions of customers or of sales representatives (`region`
   reads the region of a record), in insertion order. In a table numbered by
   insertion, each row read back joins to the stored record of that region.
   */
  function SelectRegions<T>(t: seq<Stored<T>>, region: T -> Region): (rows: seq<RegionRow>)
    ensures |rows| == |t|
    ensures forall i :: 0 <= i < |rows| ==> rows[i].id == t[i].id
    ensures IdsSequential(t) ==> forall c :: c in rows ==>
              Lookup(t, c.id).Some? && region(Lookup(t, c.id).value) == c.region
  {
    seq(|t|, i requires 0 <= i < |t| => RegionRow(t[i].id, region(t[i].rec)))
  }

  /** The record a foreign key resolves to, as a join on `id` finds it. */
  function Lookup<T>(t: seq<Stored<T>>, id: int): (r: Option<T>)
    ensures r.None? <==> forall i :: 0 <= i < |t| ==> t[i].id != id
    ensures r.Some? ==> exists i :: 0 <= i < |t| && t[i].id == id && t[i].rec == r.value
  {
    if |t| == 0 then None
    else if t[0].id == id then Some(t[0].rec)
    else
      var r := Lookup(t[1..], id);
      assert forall i :: 1 <= i < |t| ==> t[i] == t[1..][i - 1];
      r
  }

  /** In a table with sequential ids, id k resolves to the k-th inserted record. */
  lemma LookupSequential<T>(t: seq<Stored<T>>, id: int)
    requires IdsSequential(t)
    ensures 1 <= id <= |t| ==> Lookup(t, id) == Some(t[id - 1].rec)
    ensures id < 1 || |t| < id ==> Lookup(t, id) == None
  {
  }

  /** `t` holds exactly `data`, numbered 1, 2, ... in order. */
  predicate NumberedFrom<T(==)>(t: seq<Stored<T>>, data: seq<T>)
  {
    |t| == |data| && forall i :: 0 <= i < |data| ==> t[i].id == i + 1 && t[i].rec == data[i]
  }

  /**
   A table created empty and then bulk-filled: it holds the
   records in insertion order, numbered from 1.
   */
  method CreateAndInsert<T(==)>(data: seq<T>) returns (t: seq<Stored<T>>)
    ensures NumberedFrom(t, data)
    ensures IdsSequential(t)
  {
    t := InsertMany([], data);
  }
}
