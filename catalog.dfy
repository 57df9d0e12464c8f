/** The static definition tables of the game: the producer kinds ("autoclickers")
    and the one-time upgrades, with the lookups the game performs on them. */
module Catalog {

  datatype Option<T> = None | Some(value: T)

  /** A producer kind: its price with none owned and its yield per second per unit. */
  datatype Auto = Auto(id: string, name: string, baseCost: nat, baseRate: nat)

  /** What an upgrade boosts: the manual click, or one producer kind named by its id. */
  datatype Effect = Click | Autoclicker(target: string)

  datatype Upgrade = Upgrade(id: string, name: string, cost: nat, effect: Effect, multiplier: nat)

  const Autos: seq<Auto> := [
    Auto("cursor", "Cursor", 15, 1),
    Auto("grandma", "Grandma", 100, 5),
    Auto("farm", "Farm", 500, 10),
    Auto("mine", "Mine", 2000, 100),
    Auto("factory", "Factory", 10000, 500),
    Auto("bank", "Bank", 50000, 1000),
    Auto("temple", "Temple", 200000, 4000),
    Auto("wizard", "Wizard", 1000000, 10000)
  ]

  const Upgrades: seq<Upgrade> := [
    Upgrade("doubleCursor", "Double Cursors", 1000, Autoclicker("cursor"), 2),
    Upgrade("superGrandmas", "Super Grandmas", 5000, Autoclicker("grandma"), 3),
    Upgrade("fertilizer", "Fertilizer", 20000, Autoclicker("farm"), 2),
    Upgrade("clickingPro", "Clicking Pro", 10000, Click, 2),
    Upgrade("goldenTouch", "Golden Touch", 50000, Click, 3)
  ]

  /** The index of the first producer of `ps` whose id is `id`: the element
      `Array.prototype.find` returns is `ps[FindAuto(ps, id).value]`. */
  function FindAuto(ps: seq<Auto>, id: string): (r: Option<nat>)
    ensures r.None? <==> forall i :: 0 <= i < |ps| ==> ps[i].id != id
    ensures r.Some? ==> r.value < |ps| && ps[r.value].id == id
    ensures r.Some? ==> forall i :: 0 <= i < r.value ==> ps[i].id != id
  {
    if ps == [] then None
    else if ps[0].id == id then Some(0)
    else match FindAuto(ps[1..], id)
      case None => None
      case Some(k) => Some(k + 1)
  }

  /** The index of the first upgrade of `us` whose id is `id`; the same search as
      `FindAuto`, kept separate because a generic search over a key function
      makes the proofs about the tables much more expensive. */
  function FindUpgrade(us: seq<Upgrade>, id: string): (r: Option<nat>)
    ensures r.None? <==> forall i :: 0 <= i < |us| ==> us[i].id != id
    ensures r.Some? ==> r.value < |us| && us[r.value].id == id
    ensures r.Some? ==> forall i :: 0 <= i < r.value ==> us[i].id != id
  {
    if us == [] then None
    else if us[0].id == id then Some(0)
    else match FindUpgrade(us[1..], id)
      case None => None
      case Some(k) => Some(k + 1)
  }

  /** `id` names a producer kind of the table. */
  predicate IsAuto(id: string) {
    FindAuto(Autos, id).Some?
  }

  /** The table entry of producer kind `id`. */
  function AutoOf(id: string): (a: Auto)
    requires IsAuto(id)
    ensures a.id == id
    ensures exists i :: 0 <= i < |Autos| && Autos[i] == a && forall j :: 0 <= j < i ==> Autos[j].id != id
  {
    Autos[FindAuto(Autos, id).value]
  }

  /** The table entry of upgrade `id`, if the table has one. */
  function UpgradeOf(id: string): (u: Option<Upgrade>)
    ensures u.None? <==> forall i :: 0 <= i < |Upgrades| ==> Upgrades[i].id != id
    ensures u.Some? ==> u.value.id == id
    ensures u.Some? ==>
      exists i :: 0 <= i < |Upgrades| && Upgrades[i] == u.value && forall j :: 0 <= j < i ==> Upgrades[j].id != id
  {
    match FindUpgrade(Upgrades, id)
    case None => None
    case Some(i) => Some(Upgrades[i])
  }

  predicate DistinctAutoIds(ps: seq<Auto>) {
    forall i, j :: 0 <= i < j < |ps| ==> ps[i].id != ps[j].id
  }

  predicate DistinctUpgradeIds(us: seq<Upgrade>) {
    forall i, j :: 0 <= i < j < |us| ==> us[i].id != us[j].id
  }

  /** Every producer id occurs once, and every producer costs at least 15. */
  lemma AutosWellFormed()
    ensures DistinctAutoIds(Autos)
    ensures forall i :: 0 <= i < |Autos| ==> Autos[i].baseCost >= 15
  {
  }

  /** A producer's base price is at least 15. */
  lemma AutoOfBaseCost(id: string)
    requires IsAuto(id)
    ensures AutoOf(id).baseCost >= 15
  {
    AutosWellFormed();
  }

  /** Every upgrade id occurs once, every multiplier is at least 2, every upgrade
      has a price, and every producer upgrade targets a producer of the table. */
  lemma UpgradesWellFormed()
    ensures DistinctUpgradeIds(Upgrades)
    ensures forall i :: 0 <= i < |Upgrades| ==> Upgrades[i].multiplier >= 2 && Upgrades[i].cost > 0
    ensures forall i :: 0 <= i < |Upgrades| && Upgrades[i].effect.Autoclicker? ==> IsAuto(Upgrades[i].effect.target)
  {
  }

  /** The upgrade the lookup finds multiplies by at least 2, has a price, and a
      producer upgrade boosts a producer of the table. */
  lemma UpgradeOfWellFormed(id: string, u: Upgrade)
    requires UpgradeOf(id) == Some(u)
    ensures u.multiplier >= 2 && u.cost > 0
    ensures u.effect.Autoclicker? ==> IsAuto(u.effect.target)
  {
    UpgradesWellFormed();
  }
}
