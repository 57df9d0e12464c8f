/** The rules of the game as transitions on a value picture of the game state.
    Each imperative operation of the `Game` module is proved to perform exactly
    the transition defined here, and the properties of the economy are proved
    about these transitions. */
module Rules {
  import opened Catalog
  import opened Economy

  /** Every field of the mutable game state, as a value. `upgrades` is the set of
      ids the state marks as purchased. */
  datatype Snapshot = Snapshot(
    cookies: int,
    cookiesPerClick: int,
    cookiesPerSecond: int,
    autoclickers: map<string, nat>,
    autoMultipliers: map<string, nat>,
    upgrades: set<string>,
    theme: string)

  /** The state of a new game. */
  function Fresh(): Snapshot {
    Snapshot(0, 1, 0, map[], map[], {}, "default")
  }

  /** What the rules keep true: the balance is never negative, a click always
      yields something, and the last measured production is not negative. */
  predicate Valid(s: Snapshot) {
    s.cookies >= 0 && s.cookiesPerClick >= 1 && s.cookiesPerSecond >= 0
  }

  /** The production per second of the whole table in state `s`. */
  function ProductionOf(s: Snapshot): (p: int)
    ensures p >= 0
  {
    ProductionNonNegative(Autos, s.autoclickers, s.autoMultipliers);
    Production(Autos, s.autoclickers, s.autoMultipliers)
  }

  /** The price of the next unit of producer `id` in state `s`. */
  function CostOf(s: Snapshot, id: string): (c: nat)
    requires IsAuto(id)
    ensures c >= AutoOf(id).baseCost >= 15
    ensures Owned(s.autoclickers, id) == 0 ==> c == AutoOf(id).baseCost
  {
    AutoOfBaseCost(id);
    AutoCostAtLeastBase(AutoOf(id).baseCost, Owned(s.autoclickers, id));
    AutoCostAtZero(AutoOf(id).baseCost);
    AutoCost(AutoOf(id).baseCost, Owned(s.autoclickers, id))
  }

  /** Buying one unit of producer `id`: refused without change when the balance
      is below the price; otherwise the price is debited and one unit added. */
  function BuyAuto(s: Snapshot, id: string): (r: Snapshot)
    requires IsAuto(id)
    ensures s.cookies < CostOf(s, id) ==> r == s
    ensures s.cookies >= CostOf(s, id) ==>
      && r.cookies == s.cookies - CostOf(s, id)
      && Owned(r.autoclickers, id) == Owned(s.autoclickers, id) + 1
      && (forall k :: k != id ==> Owned(r.autoclickers, k) == Owned(s.autoclickers, k))
      && r.(cookies := s.cookies, autoclickers := s.autoclickers) == s
    ensures Valid(s) ==> Valid(r)
  {
    var cost := CostOf(s, id);
    if s.cookies < cost then s
    else s.(cookies := s.cookies - cost,
            autoclickers := s.autoclickers[id := Owned(s.autoclickers, id) + 1])
  }

  /** Why `BuyUpgrade` refuses: the id is unknown, already purchased, or too dear. */
  predicate UpgradeRefused(s: Snapshot, id: string) {
    var u := UpgradeOf(id);
    u.None? || id in s.upgrades || s.cookies < u.value.cost
  }

  /** The effect of an upgrade on the state, applied once: multiply the click
      yield, or multiply the multiplier of the targeted producer. */
  function ApplyEffect(s: Snapshot, u: Upgrade): (r: Snapshot)
    ensures u.effect.Click? ==>
      r.cookiesPerClick == s.cookiesPerClick * u.multiplier && r.autoMultipliers == s.autoMultipliers
    ensures u.effect.Autoclicker? && u.multiplier >= 1 ==>
      && Mult(r.autoMultipliers, u.effect.target) == Mult(s.autoMultipliers, u.effect.target) * u.multiplier
      && (forall k :: k != u.effect.target ==> Mult(r.autoMultipliers, k) == Mult(s.autoMultipliers, k))
      && r.cookiesPerClick == s.cookiesPerClick
    ensures r.(cookiesPerClick := s.cookiesPerClick, autoMultipliers := s.autoMultipliers) == s
    ensures u.multiplier >= 1 && s.cookiesPerClick >= 1 ==> r.cookiesPerClick >= 1
  {
    match u.effect
    case Click => s.(cookiesPerClick := s.cookiesPerClick * u.multiplier)
    case Autoclicker(t) =>
      s.(autoMultipliers := s.autoMultipliers[t := Mult(s.autoMultipliers, t) * u.multiplier])
  }

  /** Buying upgrade `id`: refused without change for an unknown, already
      purchased or unaffordable upgrade; otherwise its cost is debited, it is
      marked purchased and its effect applied. */
  function BuyUpgrade(s: Snapshot, id: string): (r: Snapshot)
    ensures UpgradeRefused(s, id) ==> r == s
    ensures !UpgradeRefused(s, id) ==>
      var u := UpgradeOf(id).value;
      r == ApplyEffect(s.(cookies := s.cookies - u.cost, upgrades := s.upgrades + {id}), u)
    ensures id in r.upgrades <==> (id in s.upgrades || !UpgradeRefused(s, id))
    ensures Valid(s) ==> Valid(r)
  {
    match UpgradeOf(id)
    case None => s
    case Some(u) =>
      if id in s.upgrades || s.cookies < u.cost then s
      else
        UpgradeOfWellFormed(id, u);
        ApplyEffect(s.(cookies := s.cookies - u.cost, upgrades := s.upgrades + {id}), u)
  }

  /** A manual click credits the click yield and changes nothing else. */
  function ClickCookie(s: Snapshot): (r: Snapshot)
    ensures r.cookies - s.cookies == s.cookiesPerClick
    ensures r.(cookies := s.cookies) == s
    ensures Valid(s) ==> Valid(r) && r.cookies > s.cookies
  {
    s.(cookies := s.cookies + s.cookiesPerClick)
  }

  /** One second of production: the production of the table is credited and
      recorded as the current rate; nothing else changes. */
  function Tick(s: Snapshot): (r: Snapshot)
    ensures r.cookies - s.cookies == r.cookiesPerSecond == ProductionOf(s)
    ensures r.(cookies := s.cookies, cookiesPerSecond := s.cookiesPerSecond) == s
    ensures Valid(s) ==> Valid(r) && r.cookies >= s.cookies
  {
    var prod := ProductionOf(s);
    s.(cookies := s.cookies + prod, cookiesPerSecond := prod)
  }

  /** Choosing a display theme changes only the theme. */
  function ChangeTheme(s: Snapshot, theme: string): (r: Snapshot)
    ensures r.theme == theme && r.(theme := s.theme) == s
    ensures Valid(s) ==> Valid(r)
  {
    s.(theme := theme)
  }

  /** A new game is valid, produces nothing, and a tick leaves it as it is. */
  lemma FreshState()
    ensures Valid(Fresh())
    ensures ProductionOf(Fresh()) == 0
    ensures Tick(Fresh()) == Fresh()
  {
    ProductionNoneOwned(Autos, map[], map[]);
  }

  /** With no producer owned a tick credits nothing. */
  lemma TickWithoutProducers(s: Snapshot)
    requires forall i :: 0 <= i < |Autos| ==> Owned(s.autoclickers, Autos[i].id) == 0
    ensures Tick(s).cookies == s.cookies && Tick(s).cookiesPerSecond == 0
  {
    ProductionNoneOwned(Autos, s.autoclickers, s.autoMultipliers);
  }

  /** The producers the table lists and the index of producer `id` in it. */
  lemma AutoIndex(id: string) returns (j: nat)
    requires IsAuto(id)
    ensures j < |Autos| && Autos[j] == AutoOf(id)
  {
    j := FindAuto(Autos, id).value;
  }

  /** One more unit of producer `t` and no other change of counts or multipliers
      raises production by the rate of one unit of `t` times its multiplier. */
  lemma ProductionOfOneMore(s: Snapshot, r: Snapshot, t: string)
    requires IsAuto(t)
    requires r.autoMultipliers == s.autoMultipliers
    requires Owned(r.autoclickers, t) == Owned(s.autoclickers, t) + 1
    requires forall k :: k != t ==> Owned(r.autoclickers, k) == Owned(s.autoclickers, k)
    ensures ProductionOf(r) == ProductionOf(s) + AutoOf(t).baseRate * Mult(s.autoMultipliers, t)
  {
    AutosWellFormed();
    var j := AutoIndex(t);
    ProductionOneMore(Autos, s.autoclickers, r.autoclickers, s.autoMultipliers, j);
  }

  /** A successful producer purchase raises production by exactly the rate of one
      unit of that producer times its multiplier. */
  lemma BuyAutoProductionGain(s: Snapshot, id: string)
    requires IsAuto(id) && s.cookies >= CostOf(s, id)
    ensures ProductionOf(BuyAuto(s, id)) == ProductionOf(s) + AutoOf(id).baseRate * Mult(s.autoMultipliers, id)
  {
    ProductionOfOneMore(s, BuyAuto(s, id), id);
  }

  /** Scaling the multiplier of producer `t` by `f` and changing neither counts
      nor other multipliers raises production by (f - 1) times the share of `t`. */
  lemma ProductionOfMultiplied(s: Snapshot, r: Snapshot, t: string, f: nat)
    requires IsAuto(t)
    requires r.autoclickers == s.autoclickers
    requires Mult(r.autoMultipliers, t) == Mult(s.autoMultipliers, t) * f
    requires forall k :: k != t ==> Mult(r.autoMultipliers, k) == Mult(s.autoMultipliers, k)
    ensures ProductionOf(r) == ProductionOf(s) + Contribution(AutoOf(t), s.autoclickers, s.autoMultipliers) * (f - 1)
  {
    AutosWellFormed();
    var j := AutoIndex(t);
    ProductionMultiplied(Autos, s.autoclickers, s.autoMultipliers, r.autoMultipliers, j, f);
  }

  /** A successful upgrade purchase debits its cost, marks it purchased and
      applies its effect: a click upgrade multiplies the click yield, a producer
      upgrade multiplies its target's multiplier (default 1) and no other. The
      counts, the measured rate and the theme are untouched. */
  lemma BuyUpgradeEffect(s: Snapshot, id: string)
    requires !UpgradeRefused(s, id)
    ensures BuyUpgrade(s, id).cookies == s.cookies - UpgradeOf(id).value.cost >= 0
    ensures BuyUpgrade(s, id).upgrades == s.upgrades + {id}
    ensures UpgradeOf(id).value.effect.Click? ==>
      && BuyUpgrade(s, id).cookiesPerClick == s.cookiesPerClick * UpgradeOf(id).value.multiplier
      && BuyUpgrade(s, id).autoMultipliers == s.autoMultipliers
    ensures UpgradeOf(id).value.effect.Autoclicker? ==>
      && Mult(BuyUpgrade(s, id).autoMultipliers, UpgradeOf(id).value.effect.target)
         == Mult(s.autoMultipliers, UpgradeOf(id).value.effect.target) * UpgradeOf(id).value.multiplier
      && (forall k :: k != UpgradeOf(id).value.effect.target ==>
            Mult(BuyUpgrade(s, id).autoMultipliers, k) == Mult(s.autoMultipliers, k))
      && BuyUpgrade(s, id).cookiesPerClick == s.cookiesPerClick
    ensures BuyUpgrade(s, id).autoclickers == s.autoclickers
    ensures BuyUpgrade(s, id).cookiesPerSecond == s.cookiesPerSecond
    ensures BuyUpgrade(s, id).theme == s.theme
  {
    UpgradeOfWellFormed(id, UpgradeOf(id).value);
  }

  /** A successful producer upgrade scales only its target's multiplier. */
  lemma BuyUpgradeScalesTarget(s: Snapshot, id: string, u: Upgrade, t: string)
    requires !UpgradeRefused(s, id)
    requires UpgradeOf(id) == Some(u) && u.effect == Autoclicker(t)
    ensures BuyUpgrade(s, id).autoclickers == s.autoclickers
    ensures Mult(BuyUpgrade(s, id).autoMultipliers, t) == Mult(s.autoMultipliers, t) * u.multiplier
    ensures forall k :: k != t ==> Mult(BuyUpgrade(s, id).autoMultipliers, k) == Mult(s.autoMultipliers, k)
  {
    UpgradeOfWellFormed(id, u);
  }

  /** A successful producer upgrade raises production by exactly (multiplier - 1)
      times what the targeted producer yielded before (its rate times its count
      times its old multiplier); no other share changes. */
  lemma BuyUpgradeProductionGain(s: Snapshot, id: string, u: Upgrade, t: string)
    requires !UpgradeRefused(s, id)
    requires UpgradeOf(id) == Some(u) && u.effect == Autoclicker(t) && IsAuto(t)
    ensures ProductionOf(BuyUpgrade(s, id))
            == ProductionOf(s) + Contribution(AutoOf(t), s.autoclickers, s.autoMultipliers) * (u.multiplier - 1)
  {
    BuyUpgradeScalesTarget(s, id, u, t);
    ProductionOfMultiplied(s, BuyUpgrade(s, id), t, u.multiplier);
  }

  /** A click upgrade leaves production unchanged. */
  lemma BuyClickUpgradeKeepsProduction(s: Snapshot, id: string)
    requires !UpgradeRefused(s, id)
    requires UpgradeOf(id).value.effect.Click?
    ensures ProductionOf(BuyUpgrade(s, id)) == ProductionOf(s)
    ensures BuyUpgrade(s, id).cookiesPerClick == s.cookiesPerClick * UpgradeOf(id).value.multiplier
  {
  }

  /** Buying the same upgrade twice in a row has the effect of buying it once:
      its effect is applied at most once. */
  lemma BuyUpgradeIdempotent(s: Snapshot, id: string)
    ensures BuyUpgrade(BuyUpgrade(s, id), id) == BuyUpgrade(s, id)
  {
  }

  /** `n` attempts in a row to buy upgrade `id`. */
  function RepeatBuyUpgrade(s: Snapshot, id: string, n: nat): Snapshot {
    if n == 0 then s else BuyUpgrade(RepeatBuyUpgrade(s, id, n - 1), id)
  }

  /** Any positive number of attempts to buy an upgrade has the effect of a single
      attempt: the cost is debited and the effect applied at most once. */
  lemma {:induction false} BuyUpgradeRepeated(s: Snapshot, id: string, n: nat)
    requires n >= 1
    ensures RepeatBuyUpgrade(s, id, n) == BuyUpgrade(s, id)
  {
    if n > 1 {
      BuyUpgradeRepeated(s, id, n - 1);
      BuyUpgradeIdempotent(s, id);
    }
  }

  /** A producer count never decreases under any operation of the rules; only a
      producer purchase changes one. `uid` is any upgrade id, known or not. */
  lemma OwnedNeverDecreases(s: Snapshot, id: string, uid: string, k: string, theme: string)
    requires IsAuto(id)
    ensures Owned(BuyAuto(s, id).autoclickers, k) >= Owned(s.autoclickers, k)
    ensures Owned(BuyUpgrade(s, uid).autoclickers, k) == Owned(s.autoclickers, k)
    ensures Owned(ClickCookie(s).autoclickers, k) == Owned(s.autoclickers, k)
    ensures Owned(Tick(s).autoclickers, k) == Owned(s.autoclickers, k)
    ensures Owned(ChangeTheme(s, theme).autoclickers, k) == Owned(s.autoclickers, k)
  {
  }
}
