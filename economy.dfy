/** The arithmetic of the economy: the exponential price of a producer and the
    production per second of a set of owned producers. */
module Economy {
  import opened Catalog

  function Pow(b: nat, n: nat): (r: nat)
    ensures b > 0 ==> r > 0
  {
    if n == 0 then 1 else b * Pow(b, n - 1)
  }

  /** b^n over the reals, so that 1.15^n can be written as the game writes it. */
  function RealPow(b: real, n: nat): real {
    if n == 0 then 1.0 else b * RealPow(b, n - 1)
  }

  /** The price of the next unit of a producer whose base price is `baseCost` when
      `owned` units are owned: floor(baseCost * 1.15^owned), in exact integers. */
  function AutoCost(baseCost: nat, owned: nat): nat {
    baseCost * Pow(115, owned) / Pow(100, owned)
  }

  lemma AutoCostAtZero(baseCost: nat)
    ensures AutoCost(baseCost, 0) == baseCost
  {
  }

  lemma {:induction false} RealPowRatio(n: nat)
    ensures RealPow(1.15, n) == Pow(115, n) as real / Pow(100, n) as real
  {
    if n > 0 {
      RealPowRatio(n - 1);
      var p, q := Pow(115, n - 1), Pow(100, n - 1);
      assert Pow(115, n) as real == 115.0 * p as real;
      assert Pow(100, n) as real == 100.0 * q as real;
    }
  }

  /** Integer division of naturals is the floor of their real quotient. */
  lemma FloorOfQuotient(x: nat, y: nat)
    requires y > 0
    ensures (x as real / y as real).Floor == x / y
  {
    var q, r := x / y, x % y;
    assert x == q * y + r;
    assert x as real / y as real == q as real + r as real / y as real;
  }

  /** AutoCost is the floor of the real price the game computes. */
  lemma AutoCostIsFloor(baseCost: nat, owned: nat)
    ensures AutoCost(baseCost, owned) == (baseCost as real * RealPow(1.15, owned)).Floor
  {
    var p, q := Pow(115, owned), Pow(100, owned);
    RealPowRatio(owned);
    assert baseCost as real * (p as real / q as real) == (baseCost * p) as real / q as real;
    FloorOfQuotient(baseCost * p, q);
  }

  lemma CancelFactor(x: int, y: int, d: int)
    requires d > 0 && x * d < y * d
    ensures x < y
  {
    assert (y - x) * d > 0;
  }

  lemma BelowQuotient(a: nat, c: nat, d: nat)
    requires d > 0 && a * d <= c
    ensures a <= c / d
  {
    var k := c / d;
    assert c == k * d + c % d;
    assert (k + 1) * d == k * d + d;
    CancelFactor(a, k + 1, d);
  }

  lemma QuotientGrowth(x: nat, y: nat)
    requires y > 0
    ensures x / y <= (115 * x) / (100 * y)
  {
    var q := x / y;
    assert q * y <= x;
    assert q * (100 * y) <= 115 * x;
    BelowQuotient(q, 115 * x, 100 * y);
  }

  /** Owning one more unit never makes the next one cheaper. */
  lemma {:induction false} AutoCostStep(baseCost: nat, owned: nat)
    ensures AutoCost(baseCost, owned) <= AutoCost(baseCost, owned + 1)
  {
    var p, q := Pow(115, owned), Pow(100, owned);
    assert baseCost * Pow(115, owned + 1) == 115 * (baseCost * p);
    QuotientGrowth(baseCost * p, q);
  }

  /** The price is non-decreasing in the number owned. */
  lemma {:induction false} AutoCostMonotone(baseCost: nat, n: nat, m: nat)
    requires n <= m
    ensures AutoCost(baseCost, n) <= AutoCost(baseCost, m)
    decreases m - n
  {
    if n < m {
      AutoCostStep(baseCost, n);
      AutoCostMonotone(baseCost, n + 1, m);
    }
  }

  /** The price never falls below the base price. */
  lemma AutoCostAtLeastBase(baseCost: nat, owned: nat)
    ensures AutoCost(baseCost, owned) >= baseCost
  {
    AutoCostMonotone(baseCost, 0, owned);
  }

  /** JavaScript's `m[k] || d` on a dictionary of numbers: a missing key or a
      stored 0 yields the default. */
  function Or(m: map<string, nat>, k: string, d: nat): nat {
    if k in m && m[k] != 0 then m[k] else d
  }

  /** Units of producer `id` owned, 0 by default. */
  function Owned(autoclickers: map<string, nat>, id: string): nat {
    Or(autoclickers, id, 0)
  }

  /** The production multiplier of producer `id`, 1 by default. */
  function Mult(autoMultipliers: map<string, nat>, id: string): (r: nat)
    ensures r >= 1
  {
    Or(autoMultipliers, id, 1)
  }

  /** What one producer kind yields per second. */
  function Contribution(a: Auto, autoclickers: map<string, nat>, autoMultipliers: map<string, nat>): int {
    a.baseRate * Owned(autoclickers, a.id) * Mult(autoMultipliers, a.id)
  }

  /** The production per second of the producer kinds `ps`, accumulated in table order. */
  function Production(ps: seq<Auto>, autoclickers: map<string, nat>, autoMultipliers: map<string, nat>): int
    decreases |ps|
  {
    if ps == [] then 0
    else Production(ps[..|ps| - 1], autoclickers, autoMultipliers)
         + Contribution(ps[|ps| - 1], autoclickers, autoMultipliers)
  }

  lemma ContributionNonNegative(a: Auto, autoclickers: map<string, nat>, autoMultipliers: map<string, nat>)
    ensures Contribution(a, autoclickers, autoMultipliers) >= 0
  {
    var o, k := Owned(autoclickers, a.id), Mult(autoMultipliers, a.id);
    assert a.baseRate * o >= 0;
  }

  /** Counts, rates and multipliers are never negative, so neither is production. */
  lemma {:induction false} ProductionNonNegative(ps: seq<Auto>, autoclickers: map<string, nat>, autoMultipliers: map<string, nat>)
    ensures Production(ps, autoclickers, autoMultipliers) >= 0
    decreases |ps|
  {
    if ps != [] {
      ProductionNonNegative(ps[..|ps| - 1], autoclickers, autoMultipliers);
      ContributionNonNegative(ps[|ps| - 1], autoclickers, autoMultipliers);
    }
  }

  /** With none of the producers of `ps` owned, nothing is produced. */
  lemma {:induction false} ProductionNoneOwned(ps: seq<Auto>, autoclickers: map<string, nat>, autoMultipliers: map<string, nat>)
    requires forall i :: 0 <= i < |ps| ==> Owned(autoclickers, ps[i].id) == 0
    ensures Production(ps, autoclickers, autoMultipliers) == 0
    decreases |ps|
  {
    if ps != [] {
      ProductionNoneOwned(ps[..|ps| - 1], autoclickers, autoMultipliers);
    }
  }

  /** Changing the counts or multipliers only of an id that `ps` does not list
      leaves its production alone. */
  lemma {:induction false} ProductionUnaffected(ps: seq<Auto>, o: map<string, nat>, m: map<string, nat>,
                                                 o': map<string, nat>, m': map<string, nat>, t: string)
    requires forall i :: 0 <= i < |ps| ==> ps[i].id != t
    requires forall k :: k != t ==> Owned(o', k) == Owned(o, k) && Mult(m', k) == Mult(m, k)
    ensures Production(ps, o', m') == Production(ps, o, m)
    decreases |ps|
  {
    if ps != [] {
      ProductionUnaffected(ps[..|ps| - 1], o, m, o', m', t);
    }
  }

  /** Changing the counts or multipliers of a single id, listed once in `ps` at
      index `j`, changes production by exactly the change of that producer's share. */
  lemma {:induction false} ProductionPointUpdate(ps: seq<Auto>, o: map<string, nat>, m: map<string, nat>,
                                                  o': map<string, nat>, m': map<string, nat>, j: nat)
    requires DistinctAutoIds(ps) && j < |ps|
    requires forall k :: k != ps[j].id ==> Owned(o', k) == Owned(o, k) && Mult(m', k) == Mult(m, k)
    ensures Production(ps, o', m') == Production(ps, o, m) + Contribution(ps[j], o', m') - Contribution(ps[j], o, m)
    decreases |ps|
  {
    var init, last := ps[..|ps| - 1], ps[|ps| - 1];
    if j == |ps| - 1 {
      ProductionUnaffected(init, o, m, o', m', ps[j].id);
    } else {
      assert init[j] == ps[j];
      ProductionPointUpdate(init, o, m, o', m', j);
      assert last.id != ps[j].id;
    }
  }

  /** Owning one more unit of the producer at index `j` of `ps`, and no other
      change of counts, raises production by exactly its rate times its multiplier. */
  lemma ProductionOneMore(ps: seq<Auto>, o: map<string, nat>, o': map<string, nat>, m: map<string, nat>, j: nat)
    requires DistinctAutoIds(ps) && j < |ps|
    requires Owned(o', ps[j].id) == Owned(o, ps[j].id) + 1
    requires forall k :: k != ps[j].id ==> Owned(o', k) == Owned(o, k)
    ensures Production(ps, o', m) == Production(ps, o, m) + ps[j].baseRate * Mult(m, ps[j].id)
  {
    ProductionPointUpdate(ps, o, m, o', m, j);
    ContributionOneMore(ps[j], o, o', m);
  }

  /** One more unit owned adds the rate of one unit times the multiplier. */
  lemma ContributionOneMore(a: Auto, o: map<string, nat>, o': map<string, nat>, m: map<string, nat>)
    requires Owned(o', a.id) == Owned(o, a.id) + 1
    ensures Contribution(a, o', m) == Contribution(a, o, m) + a.baseRate * Mult(m, a.id)
  {
    var b, n, k := a.baseRate, Owned(o, a.id), Mult(m, a.id);
    assert b * (n + 1) == b * n + b;
    assert (b * n + b) * k == b * n * k + b * k;
  }

  lemma ScaledProduct(x: int, k: int, f: int)
    ensures x * (k * f) == x * k + x * k * (f - 1)
  {
    assert x * (k * f) == (x * k) * f;
    assert (x * k) * f == x * k + (x * k) * (f - 1);
  }

  /** Multiplying the multiplier of the producer at index `j` of `ps` by `f`,
      and changing no other multiplier, raises production by (f - 1) times that
      producer's share. */
  lemma ProductionMultiplied(ps: seq<Auto>, o: map<string, nat>, m: map<string, nat>, m': map<string, nat>, j: nat, f: nat)
    requires DistinctAutoIds(ps) && j < |ps|
    requires Mult(m', ps[j].id) == Mult(m, ps[j].id) * f
    requires forall k :: k != ps[j].id ==> Mult(m', k) == Mult(m, k)
    ensures Production(ps, o, m') == Production(ps, o, m) + Contribution(ps[j], o, m) * (f - 1)
  {
    var a := ps[j];
    ProductionPointUpdate(ps, o, m, o, m', j);
    var x, k := a.baseRate * Owned(o, a.id), Mult(m, a.id);
    ScaledProduct(x, k, f);
    assert Contribution(a, o, m') == x * (k * f);
    assert Contribution(a, o, m) == x * k;
  }
}
