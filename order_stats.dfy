/** The figures the dashboard and the analytics page both compute from a
    list of orders: the revenue, the average order value, and the
    count-by-key reducers (`acc[key] = (acc[key] || 0) + 1`). */
module OrderStats {
  import opened Seqs
  import opened GraphQLTypes

  function OrderTotal(o: LegacyOrder): int {
    o.total
  }

  function One(o: LegacyOrder): int {
    1
  }

  function DeliveryKey(o: LegacyOrder): string {
    o.delivery_method
  }

  function StatusKey(o: LegacyOrder): string {
    o.status
  }

  function PaymentKey(o: LegacyOrder): string {
    o.payment_method
  }

  function IsMethod(m: string): LegacyOrder -> bool {
    (o: LegacyOrder) => o.delivery_method == m
  }

  predicate KnownMethod(o: LegacyOrder) {
    o.delivery_method in {"mesa", "domicilio", "recoger"}
  }

  function IsOtherMethod(o: LegacyOrder): bool {
    !KnownMethod(o)
  }

  /** The three delivery methods are different strings. */
  lemma MethodNamesDiffer()
    ensures "mesa" != "domicilio" && "mesa" != "recoger" && "domicilio" != "recoger"
  {
    assert |"mesa"| == 4 && |"domicilio"| == 9 && |"recoger"| == 7;
  }

  /** An order has exactly one of the three methods or another one. */
  lemma OneMethod(o: LegacyOrder)
    ensures (if IsMethod("mesa")(o) then 1 else 0) + (if IsMethod("domicilio")(o) then 1 else 0)
          + (if IsMethod("recoger")(o) then 1 else 0) + (if IsOtherMethod(o) then 1 else 0) == 1
  {
    MethodNamesDiffer();
  }

  /** Every order has one of the three methods or another one. */
  lemma {:induction false} MethodCounts(orders: seq<LegacyOrder>)
    ensures |Filter(orders, IsMethod("mesa"))| + |Filter(orders, IsMethod("domicilio"))|
          + |Filter(orders, IsMethod("recoger"))| + |Filter(orders, IsOtherMethod)| == |orders|
  {
    if orders != [] {
      MethodCounts(orders[1..]);
      FilterLengthStep(orders, IsMethod("mesa"));
      FilterLengthStep(orders, IsMethod("domicilio"));
      FilterLengthStep(orders, IsMethod("recoger"));
      FilterLengthStep(orders, IsOtherMethod);
      OneMethod(orders[0]);
    }
  }

  /** The orders of the three methods are at most all the orders, and all of
      them exactly when no order has another method. */
  lemma KnownMethodsBound(orders: seq<LegacyOrder>)
    ensures |Filter(orders, IsMethod("mesa"))| + |Filter(orders, IsMethod("domicilio"))| + |Filter(orders, IsMethod("recoger"))| <= |orders|
    ensures |Filter(orders, IsMethod("mesa"))| + |Filter(orders, IsMethod("domicilio"))| + |Filter(orders, IsMethod("recoger"))| == |orders|
            <==> forall i :: 0 <= i < |orders| ==> KnownMethod(orders[i])
  {
    MethodCounts(orders);
    var others := Filter(orders, IsOtherMethod);
    if exists i :: 0 <= i < |orders| && !KnownMethod(orders[i]) {
      var i :| 0 <= i < |orders| && !KnownMethod(orders[i]);
      assert multiset(others)[orders[i]] == multiset(orders)[orders[i]] > 0;
    }
  }

  /** `orders.reduce((sum, o) => sum + o.total, 0)`. */
  function Revenue(orders: seq<LegacyOrder>): int {
    SumOf(orders, OrderTotal)
  }

  /** The revenue of a list is the revenue of the orders with a key plus that
      of the others. */
  lemma RevenueSplits(orders: seq<LegacyOrder>, p: LegacyOrder -> bool, q: LegacyOrder -> bool)
    requires forall o :: q(o) == !p(o)
    ensures Revenue(Filter(orders, p)) + Revenue(Filter(orders, q)) == Revenue(orders)
  {
    FilterSplitsSum(orders, p, q, OrderTotal);
  }

  /** `orders.length > 0 ? totalRevenue / orders.length : 0`, on exact numbers. */
  function Average(total: int, n: nat): real {
    if n > 0 then (total as real) / (n as real) else 0.0
  }

  /** The average is 0 without orders, and otherwise the value that, taken
      once per order, gives the total. */
  lemma AverageIsMean(total: int, n: nat)
    ensures n == 0 ==> Average(total, n) == 0.0
    ensures n > 0 ==> Average(total, n) * (n as real) == total as real
  {
  }

  /** The sum of the counts stored under the listed keys. */
  function SumCounts(keys: seq<string>, counts: map<string, int>): int
    requires forall i :: 0 <= i < |keys| ==> keys[i] in counts
  {
    if keys == [] then 0
    else SumCounts(keys[..|keys| - 1], counts) + counts[keys[|keys| - 1]]
  }

  lemma {:induction false} SumCountsOfTally(keys: seq<string>, counts: map<string, int>, orders: seq<LegacyOrder>, key: LegacyOrder -> string)
    requires forall i :: 0 <= i < |keys| ==> keys[i] in counts && counts[keys[i]] == SumFor(orders, key, One, keys[i])
    ensures SumCounts(keys, counts) == SumOverKeys(keys, orders, key, One)
  {
    if keys != [] {
      SumCountsOfTally(keys[..|keys| - 1], counts, orders, key);
    }
  }

  /** The object a count-by-key reducer builds: its keys in insertion order
      (`Object.keys`) and the count under each. */
  datatype Histogram = Histogram(keys: seq<string>, counts: map<string, int>)

  /** `h` counts the orders by `key`: its keys are the distinct keys in order of
      first occurrence, each with an entry, and each count is the number of
      orders with that key. */
  ghost predicate IsCountOf(h: Histogram, orders: seq<LegacyOrder>, key: LegacyOrder -> string) {
    && h.keys == Distinct(Map(orders, key))
    && (forall i :: 0 <= i < |h.keys| ==> h.keys[i] in h.counts)
    && (forall k :: k in h.counts <==> k in Map(orders, key))
    && (forall k :: k in h.counts ==> h.counts[k] == multiset(Map(orders, key))[k])
  }

  /** No order is lost or counted twice: the counts add up to the number of orders. */
  lemma CountsAddUp(h: Histogram, orders: seq<LegacyOrder>, key: LegacyOrder -> string)
    requires IsCountOf(h, orders, key)
    ensures SumCounts(h.keys, h.counts) == |orders|
  {
    DistinctSpec(Map(orders, key));
    forall i | 0 <= i < |h.keys|
      ensures h.keys[i] in h.counts && h.counts[h.keys[i]] == SumFor(orders, key, One, h.keys[i])
    {
      SumForCounts(orders, key, One, h.keys[i]);
    }
    SumCountsOfTally(h.keys, h.counts, orders, key);
    TallyConserves(orders, key, One);
    SumOfOnes(orders, One);
  }

  /** A count-by-key reducer, `orders.reduce((acc, o) => { acc[key(o)] =
      (acc[key(o)] || 0) + 1; return acc; }, {})`. */
  method CountBy(orders: seq<LegacyOrder>, key: LegacyOrder -> string) returns (h: Histogram)
    ensures IsCountOf(h, orders, key)
  {
    var keys, counts := Tally(orders, key, One);
    DistinctSpec(Map(orders, key));
    forall k | k in counts
      ensures counts[k] == multiset(Map(orders, key))[k]
    {
      SumForCounts(orders, key, One, k);
    }
    h := Histogram(keys, counts);
  }

  /** `counts[k] || 0`: a key no order has counts 0. */
  function CountOrZero(counts: map<string, int>, k: string): int {
    if k in counts then counts[k] else 0
  }

  /** `orders_by_type`: the three delivery methods, each 0 when absent. */
  datatype TypeCounts = TypeCounts(mesa: int, domicilio: int, recoger: int)

  function TypeCountsOf(counts: map<string, int>): TypeCounts {
    TypeCounts(CountOrZero(counts, "mesa"), CountOrZero(counts, "domicilio"), CountOrZero(counts, "recoger"))
  }

  /** A key's count in a reducer's result (0 when absent) is the number of
      orders a filter on that key keeps. */
  lemma CountOrZeroIsFilterLength(h: Histogram, orders: seq<LegacyOrder>, key: LegacyOrder -> string, k: string, p: LegacyOrder -> bool)
    requires IsCountOf(h, orders, key)
    requires forall o :: p(o) == (key(o) == k)
    ensures CountOrZero(h.counts, k) == |Filter(orders, p)|
  {
    FilterCountsKey(orders, key, k, p);
  }
}
