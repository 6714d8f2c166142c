/** The hard cash constraint: shrinking a BUY until it fits the budget, by a data-dependent jump. */
module Affordable {
  import opened Market
  import opened Rounding
  import opened Costs
  import opened FillPlan

  /** Where the loop jumps when `qty` shares cost `need`, more than `budget`. */
  function Jump(budget: int, qty: int, need: int): int
    requires need > 0
  {
    Min(budget * qty / need, qty - 1)
  }

  function Shrink(budget: int, qty: int, price: real, product: Product): (r: int)
    requires ToPaise(price) > 0
    ensures r <= qty || r == 0
    ensures r >= 0
    ensures r > 0 ==> Outflow(r, price, product) <= budget
    decreases qty
  {
    if qty <= 0 then 0
    else
      OutflowAtLeastNotional(qty, price, product);
      var need := Outflow(qty, price, product);
      if need <= budget then qty else Shrink(budget, Jump(budget, qty, need), price, product)
  }

  function AffordableQty(budget: int, qty: int, price: real, product: Product): (r: int)
    ensures 0 <= r && (r <= qty || r == 0)
    ensures r > 0 ==> ToPaise(price) > 0 && 0 < Outflow(r, price, product) <= budget
  {
    if budget <= 0 || ToPaise(price) <= 0 then 0
    else
      var r := Shrink(budget, qty, price, product);
      OutflowAtLeastNotional(r, price, product);
      r
  }

  method ComputeAffordableQty(budget: int, wanted: int, price: real, product: Product) returns (qty: int)
    ensures qty == AffordableQty(budget, wanted, price, product)
  {
    var px := ToPaise(price);
    if budget <= 0 || px <= 0 {
      return 0;
    }
    qty := wanted;
    while qty > 0
      invariant Shrink(budget, qty, price, product) == Shrink(budget, wanted, price, product)
      decreases qty
    {
      OutflowAtLeastNotional(qty, price, product);
      var need := qty * px + CostsPaise(Buy, qty, price, product);
      if need <= budget {
        return qty;
      }
      qty := Min(budget * qty / need, qty - 1);
    }
    qty := 0;
  }

  lemma OutflowAtLeastNotional(qty: int, price: real, product: Product)
    requires qty >= 0 && ToPaise(price) > 0
    ensures Outflow(qty, price, product) >= qty
  {
    CostsNonNegative(Buy, qty, price, product);
    assert qty * ToPaise(price) >= qty * 1;
  }

  /** Cross-multiplied per-share cost after rounding: rounding to paise costs at most half a
      paisa on each side. */
  lemma RoundedCostPerShare(m: int, q: int, price: real, product: Product)
    requires 0 < m <= q && price > 0.0
    ensures m * CostsPaise(Buy, q, price, product) <= q * CostsPaise(Buy, m, price, product) + q
  {
    hide CalculateCosts;
    var cm := CalculateCosts(Buy, m, price, product).total;
    var cq := CalculateCosts(Buy, q, price, product).total;
    CostPerShareFalls(Buy, m, q, price, product);
    CostsAreNonNegative(m, price, product);
    CostsAreNonNegative(q, price, product);
    HalfPaisa(cm, cq, m, q);
  }

  lemma CostsAreNonNegative(q: int, price: real, product: Product)
    ensures CalculateCosts(Buy, q, price, product).total >= 0.0
  {
    TotalMonotone(Buy, q as real * price, q as real * price, product);
  }

  lemma HalfPaisa(cm: real, cq: real, m: int, q: int)
    requires 0 < m <= q && cm >= 0.0 && cq >= 0.0
    requires cq * m as real <= cm * q as real
    ensures m * ToPaise(cq) <= q * ToPaise(cm) + q
  {
    var rm, rq := ToPaise(cm), ToPaise(cq);
    HalfEach(m as real, q as real, cq, cm, rq as real, rm as real);
    assert (m * rq) as real == m as real * rq as real;
    assert (q * rm) as real == q as real * rm as real;
  }

  lemma HalfEach(x: real, y: real, cq: real, cm: real, rq: real, rm: real)
    requires 0.0 < x <= y && cq * x <= cm * y
    requires rq <= cq * 100.0 + 0.5 && cm * 100.0 - 0.5 <= rm
    ensures x * rq <= y * rm + y
  {
    var up, down := cq * 100.0 + 0.5 - rq, rm - cm * 100.0 + 0.5;
    assert x * up >= 0.0 && y * down >= 0.0;
    assert x * rq == 100.0 * (cq * x) + 0.5 * x - x * up;
    assert y * rm == 100.0 * (cm * y) - 0.5 * y + y * down;
  }

  /** One jump never skips a quantity that would leave at least a paisa unspent. */
  lemma JumpKeeps(budget: int, q: int, m: int, price: real, product: Product)
    requires price > 0.0 && ToPaise(price) > 0
    requires 0 < m < q
    requires Outflow(m, price, product) < budget < Outflow(q, price, product)
    ensures m <= Jump(budget, q, Outflow(q, price, product))
  {
    hide CostsPaise;
    RoundedCostPerShare(m, q, price, product);
    var px, cm, cq := ToPaise(price), CostsPaise(Buy, m, price, product), CostsPaise(Buy, q, price, product);
    var need := q * px + cq;
    assert m * need == m * (q * px) + m * cq;
    assert (m * px + cm + 1) * q == m * (q * px) + q * cm + q;
    assert (m * px + cm + 1) * q <= budget * q;
    QuotientAtLeast(budget * q, need, m);
  }

  lemma QuotientAtLeast(n: int, d: int, m: int)
    requires d > 0 && m * d <= n
    ensures m <= n / d
  {
    var k := n / d;
    assert n < k * d + d;
    Fewer(m, k, d);
  }

  lemma Fewer(m: int, k: int, d: int)
    requires d > 0 && m * d < k * d + d
    ensures m <= k
  {
    Expand(k, m, d);
    NotPositive(k + 1 - m, d);
  }

  lemma Expand(k: int, m: int, d: int)
    ensures (k + 1 - m) * d == k * d + d - m * d
  {
  }

  lemma NotPositive(x: int, d: int)
    requires d > 0
    ensures x <= 0 ==> x * d <= 0
  {
  }

  lemma {:induction false} ShrinkKeeps(budget: int, q: int, m: int, price: real, product: Product)
    requires price > 0.0 && ToPaise(price) > 0
    requires 0 < m <= q && Outflow(m, price, product) < budget
    ensures m <= Shrink(budget, q, price, product)
    decreases q
  {
    OutflowAtLeastNotional(q, price, product);
    var need := Outflow(q, price, product);
    if need > budget {
      JumpKeeps(budget, q, m, price, product);
      ShrinkKeeps(budget, Jump(budget, q, need), m, price, product);
    }
  }

  lemma PricePositive(price: real)
    requires ToPaise(price) > 0
    ensures price > 0.0
  {
  }

  ghost predicate Largest(r: int, budget: int, qty: int, price: real, product: Product) {
    forall m :: r < m <= qty ==> Outflow(m, price, product) > budget
  }

  /** Everything above the answer spends the whole budget or more; the answer is the largest
      affordable size exactly unless one share more would spend the budget to the paisa. */
  lemma AffordableIsLargest(budget: int, qty: int, price: real, product: Product)
    requires qty > 0 && budget > 0 && ToPaise(price) > 0
    ensures var r := AffordableQty(budget, qty, price, product);
      && (forall m :: r < m <= qty ==> Outflow(m, price, product) >= budget)
      && (Largest(r, budget, qty, price, product)
          <==> r == qty || Outflow(r + 1, price, product) != budget)
  {
    var r := AffordableQty(budget, qty, price, product);
    PricePositive(price);
    forall m | r < m <= qty
      ensures Outflow(m, price, product) >= budget
    {
      if Outflow(m, price, product) < budget {
        ShrinkKeeps(budget, qty, m, price, product);
      }
    }
    if r < qty && Outflow(r + 1, price, product) != budget {
      forall m | r < m <= qty
        ensures Outflow(m, price, product) > budget
      {
        OutflowMonotone(r + 1, price, m, price, product);
      }
    }
  }

  /** The answer is never more than one share short of the best one. */
  lemma AtMostOneShort(budget: int, qty: int, price: real, product: Product, m: int)
    requires 0 < m <= qty && budget > 0 && ToPaise(price) > 0
    requires Outflow(m, price, product) <= budget
    ensures m - 1 <= AffordableQty(budget, qty, price, product)
  {
    PricePositive(price);
    var r := AffordableQty(budget, qty, price, product);
    AffordableIsLargest(budget, qty, price, product);
    if m > r + 1 {
      OutflowStrict(m, price, product);
      ShrinkKeeps(budget, qty, m - 1, price, product);
    }
  }

  lemma OutflowStrict(m: int, price: real, product: Product)
    requires m > 0 && ToPaise(price) > 0
    ensures Outflow(m - 1, price, product) < Outflow(m, price, product)
  {
    hide CostsPaise;
    PricePositive(price);
    CostsPaiseMonotone(Buy, m - 1, price, m, price, product);
    assert m * ToPaise(price) == (m - 1) * ToPaise(price) + ToPaise(price);
  }

  lemma {:induction false} OutflowStrictly(m: int, n: int, price: real, product: Product)
    requires 0 <= m < n && ToPaise(price) > 0
    ensures Outflow(m, price, product) < Outflow(n, price, product)
    decreases n
  {
    hide Outflow;
    OutflowStrict(n, price, product);
    if m < n - 1 {
      OutflowStrictly(m, n - 1, price, product);
    }
  }

  // ---------------------------------------------------------------- the exact condition

  /** The quantities the loop tries, largest first. */
  function Path(budget: int, qty: int, price: real, product: Product): (p: seq<int>)
    requires ToPaise(price) > 0
    ensures forall i :: 0 <= i < |p| ==> 0 < p[i] <= qty
    decreases qty
  {
    if qty <= 0 then []
    else
      OutflowAtLeastNotional(qty, price, product);
      var need := Outflow(qty, price, product);
      [qty] + if need <= budget then [] else Path(budget, Jump(budget, qty, need), price, product)
  }

  /** From q the loop jumps below m. */
  predicate JumpsOver(budget: int, m: int, q: int, price: real, product: Product) {
    m < q && m * Outflow(q, price, product) > budget * q
  }

  /** A quantity that spends the budget to the paisa is found exactly when no quantity tried above it
      jumps over it. */
  lemma {:induction false} ExactSpendIsFound(budget: int, qty: int, m: int, price: real, product: Product)
    requires ToPaise(price) > 0 && 0 < m <= qty && Outflow(m, price, product) == budget
    ensures Shrink(budget, qty, price, product) == m
       <==> forall q :: q in Path(budget, qty, price, product) ==> !JumpsOver(budget, m, q, price, product)
    decreases qty
  {
    hide Outflow;
    OutflowAtLeastNotional(qty, price, product);
    var need := Outflow(qty, price, product);
    if m < qty {
      OutflowStrictly(m, qty, price, product);
      JumpReaches(budget, m, qty, need);
      var next := Jump(budget, qty, need);
      assert Path(budget, qty, price, product) == [qty] + Path(budget, next, price, product);
      if m <= next {
        ExactSpendIsFound(budget, next, m, price, product);
      } else {
        assert qty in Path(budget, qty, price, product);
      }
    }
  }

  lemma JumpReaches(budget: int, m: int, q: int, need: int)
    requires 0 < m < q && budget < need && 0 < need
    ensures m <= Jump(budget, q, need) <==> m * need <= budget * q
  {
    if m * need <= budget * q {
      QuotientAtLeast(budget * q, need, m);
    } else {
      QuotientBelow(budget * q, need, m);
    }
  }

  lemma QuotientBelow(n: int, d: int, m: int)
    requires d > 0 && n < m * d
    ensures n / d < m
  {
    var k := n / d;
    assert k * d <= n;
    NotPositive(m - k, d);
    assert (m - k) * d == m * d - k * d;
  }

  /** The search returns the largest affordable quantity exactly when no jump it makes passes over a
      quantity that spends the budget to the paisa; in particular when there is no such quantity. */
  lemma LargestExactlyWhen(budget: int, qty: int, price: real, product: Product)
    requires qty > 0 && budget > 0 && ToPaise(price) > 0
    ensures Largest(AffordableQty(budget, qty, price, product), budget, qty, price, product)
       <==> forall m, q :: 0 < m && q in Path(budget, qty, price, product) && Outflow(m, price, product) == budget
                           ==> !JumpsOver(budget, m, q, price, product)
  {
    hide Outflow, JumpsOver;
    var r := AffordableQty(budget, qty, price, product);
    AffordableIsLargest(budget, qty, price, product);
    if Largest(r, budget, qty, price, product) {
      forall m, q | 0 < m && q in Path(budget, qty, price, product) && Outflow(m, price, product) == budget
        ensures !JumpsOver(budget, m, q, price, product)
      {
        SpentIsReturned(budget, qty, m, q, price, product);
      }
    } else {
      assert 0 < r + 1 <= qty && Outflow(r + 1, price, product) == budget;
      ExactSpendIsFound(budget, qty, r + 1, price, product);
    }
  }

  lemma SpentIsReturned(budget: int, qty: int, m: int, q: int, price: real, product: Product)
    requires qty > 0 && budget > 0 && ToPaise(price) > 0 && 0 < m && Outflow(m, price, product) == budget
    requires q in Path(budget, qty, price, product)
    requires Largest(AffordableQty(budget, qty, price, product), budget, qty, price, product)
    ensures !JumpsOver(budget, m, q, price, product)
  {
    hide Outflow;
    var r := AffordableQty(budget, qty, price, product);
    if m <= qty {
      if m < r {
        OutflowStrictly(m, r, price, product);
      }
      ExactSpendIsFound(budget, qty, m, price, product);
    }
  }

  /** A single share fits the budget, and if it needs all of it, no quantity tried jumps over it. */
  predicate OneFits(budget: int, qty: int, price: real, product: Product) {
    && budget > 0 && ToPaise(price) > 0 && Outflow(1, price, product) <= budget
    && (Outflow(1, price, product) == budget ==>
          forall q :: q in Path(budget, qty, price, product) ==> !JumpsOver(budget, 1, q, price, product))
  }

  /** Anything at all is bought exactly when one share fits. */
  lemma BuysSomethingWhen(budget: int, qty: int, price: real, product: Product)
    requires qty > 0
    ensures AffordableQty(budget, qty, price, product) > 0 <==> OneFits(budget, qty, price, product)
  {
    hide Outflow, JumpsOver;
    if budget > 0 && ToPaise(price) > 0 {
      var r := AffordableQty(budget, qty, price, product);
      PricePositive(price);
      if r > 1 {
        OutflowStrictly(1, r, price, product);
      }
      if Outflow(1, price, product) == budget {
        ExactSpendIsFound(budget, qty, 1, price, product);
      } else if Outflow(1, price, product) < budget {
        ShrinkKeeps(budget, qty, 1, price, product);
      }
    }
  }

  /** Rounding to paise can cost the last share: at one rupee a share, 400 paise buy four
      delivery shares, but an order for five is cut to three. */
  lemma JumpCanSkipOne()
    ensures Outflow(4, 1.0, CNC) == 400
    ensures AffordableQty(400, 5, 1.0, CNC) == 3
  {
    assert Outflow(5, 1.0, CNC) == 501;
    assert Outflow(3, 1.0, CNC) == 300;
    assert Jump(400, 5, 501) == 3;
    assert Shrink(400, 3, 1.0, CNC) == 3;
  }

  ghost predicate NeedPerShareFalls(q: int, price: real, product: Product) {
    forall a, b :: 0 < a <= b <= q ==> NeedFalls(a, b, price, product)
  }

  predicate NeedFalls(a: int, b: int, price: real, product: Product) {
    Outflow(b, price, product) * a <= Outflow(a, price, product) * b
  }

  /** If the need of a share never rises with the size, the loop returns the optimum. */
  lemma {:induction false} FallingNeedIsOptimal(budget: int, q: int, m: int, price: real, product: Product)
    requires ToPaise(price) > 0 && NeedPerShareFalls(q, price, product)
    requires 0 < m <= q && Outflow(m, price, product) <= budget
    ensures m <= Shrink(budget, q, price, product)
    decreases q
  {
    hide Outflow;
    OutflowAtLeastNotional(q, price, product);
    var need := Outflow(q, price, product);
    if need > budget {
      assert NeedFalls(m, q, price, product);
      ScaleBudget(need, m, Outflow(m, price, product), q, budget);
      QuotientAtLeast(budget * q, need, m);
      FallingNeedIsOptimal(budget, Jump(budget, q, need), m, price, product);
    }
  }

  lemma ScaleBudget(need: int, m: int, small: int, q: int, budget: int)
    requires need * m <= small * q && small <= budget && q >= 0
    ensures m * need <= budget * q
  {
    assert (budget - small) * q >= 0;
  }

  /** At placement the earmark is part of the budget, so the planned quantity is never cut. */
  lemma PlacementNeverShrinks(c: Config, kind: OrderKind, price: real, trigger: real, qty: int,
                              product: Product, snap: Snapshot, budget: int)
    requires c.Valid() && snap.Sane()
    requires kind in {MarketOrder, LimitOrder} ==> trigger == price
    requires PlanFill(c, Buy, kind, trigger, qty, snap).Fill?
    requires WorstCaseOutflow(c, qty, price, kind, product, snap) <= budget
    ensures var f := PlanFill(c, Buy, kind, trigger, qty, snap);
      AffordableQty(budget, f.qty, f.price, product) == f.qty
  {
    hide WorstCaseOutflow, Outflow;
    var f := PlanFill(c, Buy, kind, trigger, qty, snap);
    WorstCaseCovers(c, kind, price, trigger, qty, product, snap);
    FillIsHonest(c, Buy, kind, trigger, qty, snap);
    WholePaiseTouch(snap.ask);
    ToPaiseMonotone(snap.ask, f.price);
    OutflowAtLeastNotional(f.qty, f.price, product);
  }

  lemma WholePaiseTouch(x: real)
    requires x > 0.0 && Round2(x) == x
    ensures ToPaise(x) >= 1
  {
    var n := RoundHalfEven(x * 100.0);
    assert x * 100.0 == n as real;
  }
}
