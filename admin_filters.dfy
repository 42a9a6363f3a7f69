/**
 * The two list filters of the product admin (app/admin.py): a price-range filter with three
 * buckets and a category drop-down. A queryset is modelled as the sequence of its rows;
 * filtering keeps the rows' order.
 */
module AdminFilters {
  import opened Wrappers
  import opened Records

  /** `a` is obtained from `b` by deleting elements, keeping the order of the rest. */
  ghost predicate Subsequence(a: seq<Product>, b: seq<Product>)
    decreases |b|
  {
    a == [] || (b != [] && ((a[0] == b[0] && Subsequence(a[1..], b[1..])) || Subsequence(a, b[1..])))
  }

  /** queryset.filter(...): the rows satisfying `keep`, in their original order. */
  function Select(rows: seq<Product>, keep: Product -> bool): (r: seq<Product>)
    ensures forall p :: p in r <==> p in rows && keep(p)
    ensures forall p :: multiset(r)[p] == if keep(p) then multiset(rows)[p] else 0
    ensures Subsequence(r, rows)
    ensures |r| <= |rows|
  {
    if rows == [] then []
    else
      assert rows == [rows[0]] + rows[1..];
      if keep(rows[0]) then [rows[0]] + Select(rows[1..], keep)
      else Select(rows[1..], keep)
  }

  /** The three choices PriceRangeFilter.lookups offers, with their labels as displayed. */
  function PriceLookups(): seq<(string, string)> {
    [("low", "Low (Under 500)"), ("mid", "Mid (500 - 1000)"), ("high", "High (Above 1500)")]
  }

  predicate InLowBucket(p: Product) { p.price < 500.0 }

  predicate InMidBucket(p: Product) { 50.0 <= p.price <= 1000.0 }

  predicate InHighBucket(p: Product) { p.price > 1500.0 }

  /**
   * PriceRangeFilter.queryset. For a value other than the three choices (or no value) the method
   * runs off its end and returns None, which the admin takes as "leave the queryset as it is".
   */
  function PriceRangeQueryset(value: Option<string>, rows: seq<Product>): (r: Option<seq<Product>>)
    ensures r.Some? <==> value in {Some("low"), Some("mid"), Some("high")}
    ensures value == Some("low") ==> forall p :: p in r.value <==> p in rows && p.price < 500.0
    ensures value == Some("mid") ==> forall p :: p in r.value <==> p in rows && 50.0 <= p.price <= 1000.0
    ensures value == Some("high") ==> forall p :: p in r.value <==> p in rows && p.price > 1500.0
    ensures r.Some? ==> Subsequence(r.value, rows)
  {
    if value == Some("low") then Some(Select(rows, InLowBucket))
    else if value == Some("mid") then Some(Select(rows, InMidBucket))
    else if value == Some("high") then Some(Select(rows, InHighBucket))
    else None
  }

  /** Every choice PriceLookups offers is one the queryset handles. */
  lemma PriceLookupsHandled(rows: seq<Product>)
    ensures forall i :: 0 <= i < |PriceLookups()| ==> PriceRangeQueryset(Some(PriceLookups()[i].0), rows).Some?
  {
  }

  /** A product priced in [50, 500) is listed under "low" and under "mid" alike. */
  lemma LowMidOverlap(p: Product, rows: seq<Product>)
    requires p in rows && 50.0 <= p.price < 500.0
    ensures p in PriceRangeQueryset(Some("low"), rows).value
    ensures p in PriceRangeQueryset(Some("mid"), rows).value
  {
  }

  /** A product priced in (1000, 1500] is listed under no bucket. */
  lemma MidHighGap(p: Product, rows: seq<Product>)
    requires 1000.0 < p.price <= 1500.0
    ensures forall v :: PriceRangeQueryset(Some(v), rows).Some? ==> p !in PriceRangeQueryset(Some(v), rows).value
  {
  }

  /**
   * CategoryDropdownFilter.lookups: one (id, name) pair per category, in the categories' order.
   * The rows are the (primary key, record) pairs of Category.objects.all().
   */
  function CategoryLookups(categories: seq<(Id, Category)>): (r: seq<(Id, string)>)
    ensures |r| == |categories|
    ensures forall i :: 0 <= i < |r| ==> r[i] == (categories[i].0, categories[i].1.name)
  {
    if categories == [] then []
    else [(categories[0].0, categories[0].1.name)] + CategoryLookups(categories[1..])
  }

  /**
   * CategoryDropdownFilter.queryset. `value` is the selected category id; None stands for no
   * selection (absent or empty query parameter), which returns the queryset unchanged.
   */
  function CategoryQueryset(value: Option<Id>, rows: seq<Product>): (r: seq<Product>)
    ensures value.None? ==> r == rows
    ensures value.Some? ==> forall p :: p in r <==> p in rows && p.category == value.value
    ensures Subsequence(r, rows)
  {
    match value
    case None =>
      assert Subsequence(rows, rows) by { SubsequenceRefl(rows); }
      rows
    case Some(id) => Select(rows, (p: Product) => p.category == id)
  }

  lemma {:induction false} SubsequenceRefl(s: seq<Product>)
    ensures Subsequence(s, s)
    decreases |s|
  {
    if s != [] {
      SubsequenceRefl(s[1..]);
    }
  }
}
