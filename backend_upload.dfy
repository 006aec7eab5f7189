/**
 * The upload step (backend/main.py, upload_file): raw sales rows are
 * aggregated to one record per (date, product), summing quantities and
 * money and averaging the two prices, and a summary is returned.
 */
module BackendUpload {
  import opened Common
  import opened Sorting
  import opened Series

  /** One parsed row of the uploaded CSV whose date could be read. */
  datatype RawRow = RawRow(
    date: int, product: string, produced: int, sold: int,
    price: real, unitCost: real, revenue: real, expense: real)

  /** The group-by key. */
  datatype Key = Key(date: int, product: string)

  /** Running aggregates of one group; the means are kept as sums and a count. */
  datatype Group = Group(
    count: nat, produced: int, sold: int, priceSum: real, unitCostSum: real, revenue: real, expense: real)

  const EmptyGroup := Group(0, 0, 0, 0.0, 0.0, 0.0, 0.0)

  function KeyOf(r: RawRow): Key
  {
    Key(r.date, r.product)
  }

  function AddRow(g: Group, r: RawRow): (h: Group)
    ensures h.count == g.count + 1
  {
    Group(g.count + 1, g.produced + r.produced, g.sold + r.sold, g.priceSum + r.price,
          g.unitCostSum + r.unitCost, g.revenue + r.revenue, g.expense + r.expense)
  }

  /** The aggregates of a list of rows, whatever their keys. */
  function Fold(rows: seq<RawRow>): (g: Group)
    ensures g.count == |rows|
  {
    if rows == [] then EmptyGroup else AddRow(Fold(rows[..|rows| - 1]), rows[|rows| - 1])
  }

  /** The rows of one group, in input order. */
  function GroupRows(rows: seq<RawRow>, k: Key): (r: seq<RawRow>)
    ensures forall x :: x in r ==> x in rows && KeyOf(x) == k
  {
    if rows == [] then []
    else
      var n := |rows| - 1;
      var head := GroupRows(rows[..n], k);
      if KeyOf(rows[n]) == k then head + [rows[n]] else head
  }

  function KeysOf(rows: seq<RawRow>): set<Key>
  {
    set r | r in rows :: KeyOf(r)
  }

  /** `groupby(['date', 'product_name'])`, one pass over the rows. */
  function Groups(rows: seq<RawRow>): (m: map<Key, Group>)
    ensures m.Keys == KeysOf(rows)
    ensures forall k :: k in m ==> m[k].count > 0
  {
    if rows == [] then map[]
    else
      var n := |rows| - 1;
      var m := Groups(rows[..n]);
      var k := KeyOf(rows[n]);
      assert KeysOf(rows) == KeysOf(rows[..n]) + {k} by {
        assert forall r :: r in rows <==> r in rows[..n] || r == rows[n];
      }
      m[k := AddRow(if k in m then m[k] else EmptyGroup, rows[n])]
  }

  /** Each group holds exactly the sums over the input rows with its key; keys not in the input have no group. */
  lemma {:induction false} GroupsAreGroupSums(rows: seq<RawRow>, k: Key)
    ensures k in Groups(rows) <==> |GroupRows(rows, k)| > 0
    ensures k in Groups(rows) ==> Groups(rows)[k] == Fold(GroupRows(rows, k))
  {
    if rows != [] {
      var n := |rows| - 1;
      GroupsAreGroupSums(rows[..n], k);
      if KeyOf(rows[n]) == k {
        var g := GroupRows(rows, k);
        assert g[..|g| - 1] == GroupRows(rows[..n], k);
        if k !in Groups(rows[..n]) {
          assert GroupRows(rows[..n], k) == [];
        }
      }
    }
  }

  /** `x + x + ... + x`, n times. */
  function Repeated(n: nat, x: real): real
  {
    if n == 0 then 0.0 else Repeated(n - 1, x) + x
  }

  lemma {:induction false} RepeatedIsProduct(n: nat, x: real)
    ensures Repeated(n, x) == n as real * x
  {
    if n > 0 {
      RepeatedIsProduct(n - 1, x);
    }
  }

  /** The rows of a group that all carry the same price sum to that price repeated. */
  lemma {:induction false} FoldConstantPrice(rows: seq<RawRow>, price: real)
    requires forall i :: 0 <= i < |rows| ==> rows[i].price == price
    ensures Fold(rows).priceSum == Repeated(|rows|, price)
  {
    if rows != [] {
      FoldConstantPrice(rows[..|rows| - 1], price);
    }
  }

  lemma FoldMeanOfConstant(group: seq<RawRow>, price: real)
    requires |group| > 0 && forall i :: 0 <= i < |group| ==> group[i].price == price
    ensures Fold(group).priceSum / |group| as real == price
  {
    FoldConstantPrice(group, price);
    RepeatedMean(|group|, price);
  }

  lemma RepeatedMean(n: nat, x: real)
    requires n > 0
    ensures Repeated(n, x) / n as real == x
  {
    RepeatedIsProduct(n, x);
  }

  /** One aggregated daily record, as stored for training. */
  datatype DailyRecord = DailyRecord(
    date: int, product: string, produced: int, sold: int,
    price: real, unitCost: real, revenue: real, expense: real)

  function Finish(k: Key, g: Group): (d: DailyRecord)
    requires g.count > 0
    ensures d.date == k.date && d.product == k.product
    ensures d.price * g.count as real == g.priceSum && d.unitCost * g.count as real == g.unitCostSum
    ensures d.sold == g.sold && d.produced == g.produced && d.revenue == g.revenue && d.expense == g.expense
  {
    DailyRecord(k.date, k.product, g.produced, g.sold, g.priceSum / g.count as real,
                g.unitCostSum / g.count as real, g.revenue, g.expense)
  }

  /** The daily record of a key present in the upload. */
  function Daily(rows: seq<RawRow>, k: Key): (d: DailyRecord)
    requires k in KeysOf(rows)
    ensures d.date == k.date && d.product == k.product
  {
    Finish(k, Groups(rows)[k])
  }

  /** With a single price in a group, the daily price is that price; quantities are the group's totals. */
  lemma DailyOfUniformGroup(rows: seq<RawRow>, k: Key, price: real)
    requires k in KeysOf(rows)
    requires forall i :: 0 <= i < |GroupRows(rows, k)| ==> GroupRows(rows, k)[i].price == price
    ensures Daily(rows, k).price == price
    ensures Daily(rows, k).sold == Fold(GroupRows(rows, k)).sold
  {
    GroupsAreGroupSums(rows, k);
    var group := GroupRows(rows, k);
    FoldMeanOfConstant(group, price);
    assert Daily(rows, k) == Finish(k, Fold(group));
  }

  /** The summary the upload returns (session and sales means left out). */
  datatype UploadStats = UploadStats(
    totalRecords: nat, start: int, end: int, days: int, productCount: nat, names: seq<string>)

  function Dates(rows: seq<RawRow>): (s: seq<int>)
    ensures |s| == |rows| && forall i :: 0 <= i < |rows| ==> s[i] == rows[i].date
  {
    seq(|rows|, i requires 0 <= i < |rows| => rows[i].date)
  }

  function Products(rows: seq<RawRow>): (s: seq<string>)
    ensures |s| == |rows| && forall i :: 0 <= i < |rows| ==> s[i] == rows[i].product
  {
    seq(|rows|, i requires 0 <= i < |rows| => rows[i].product)
  }

  /**
   * The upload summary; an upload with no dated rows fails (the date range
   * of an empty frame cannot be formatted).
   */
  function Stats(rows: seq<RawRow>): (r: Option<UploadStats>)
    ensures r.None? <==> rows == []
    ensures r.Some? ==> r.value.totalRecords == |Groups(rows)|
    ensures r.Some? ==> r.value.days >= 0 && r.value.days == r.value.end - r.value.start
    ensures r.Some? ==> forall i :: 0 <= i < |rows| ==> r.value.start <= rows[i].date <= r.value.end
    ensures r.Some? ==> exists i :: 0 <= i < |rows| && rows[i].date == r.value.start
    ensures r.Some? ==> exists j :: 0 <= j < |rows| && rows[j].date == r.value.end
    ensures r.Some? ==> StrictlySorted(r.value.names) && r.value.productCount == |r.value.names|
    ensures r.Some? ==> forall p :: p in r.value.names <==> exists i :: 0 <= i < |rows| && rows[i].product == p
  {
    if rows == [] then None
    else
      var ds := Dates(rows);
      assert forall i :: 0 <= i < |rows| ==> ds[i] in ds;
      var names := SortedUnique(Products(rows));
      SortedUniqueCorrect(Products(rows));
      assert forall p :: p in Products(rows) <==> exists i :: 0 <= i < |rows| && rows[i].product == p by {
        forall p | p in Products(rows) ensures exists i :: 0 <= i < |rows| && rows[i].product == p {
          var i :| 0 <= i < |rows| && Products(rows)[i] == p;
        }
        forall p | exists i :: 0 <= i < |rows| && rows[i].product == p ensures p in Products(rows) {
          var i :| 0 <= i < |rows| && rows[i].product == p;
          assert Products(rows)[i] == p;
        }
      }
      var i :| 0 <= i < |ds| && ds[i] == MinOf(ds);
      var j :| 0 <= j < |ds| && ds[j] == MaxOf(ds);
      assert rows[i].date == MinOf(ds) && rows[j].date == MaxOf(ds);
      Some(UploadStats(|Groups(rows)|, MinOf(ds), MaxOf(ds), MaxOf(ds) - MinOf(ds), |names|, names))
  }
}
