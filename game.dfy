/** The mutable game: the state record and the game object whose operations
    update it in place. Each operation is proved to perform exactly the
    transition of the same name in `Rules`. */
module Game {
  import opened Catalog
  import opened Economy
  import Rules

  /** The mutable game state; a new one holds the defaults of a new game. */
  class GameState {
    var cookies: int
    var cookiesPerClick: int
    var cookiesPerSecond: int
    var autoclickers: map<string, nat>
    var autoMultipliers: map<string, nat>
    var upgrades: set<string>
    var theme: string

    /** The whole state as a value. */
    function View(): Rules.Snapshot
      reads this
    {
      Rules.Snapshot(cookies, cookiesPerClick, cookiesPerSecond, autoclickers, autoMultipliers, upgrades, theme)
    }

    constructor ()
      ensures View() == Rules.Fresh()
    {
      cookies := 0;
      cookiesPerClick := 1;
      cookiesPerSecond := 0;
      autoclickers := map[];
      autoMultipliers := map[];
      upgrades := {};
      theme := "default";
    }
  }

  /** The game: owns the current state and applies the player's actions and the
      once-a-second production to it. */
  class CookieGame {
    var state: GameState

    constructor ()
      ensures fresh(state) && state.View() == Rules.Fresh()
    {
      state := new GameState();
    }

    /** The price of the next unit of producer `id`. */
    function GetAutoCost(id: string): (cost: nat)
      reads this, state
      requires IsAuto(id)
      ensures cost == Rules.CostOf(state.View(), id)
      ensures cost >= AutoOf(id).baseCost
      ensures Owned(state.autoclickers, id) == 0 ==> cost == AutoOf(id).baseCost
    {
      Rules.CostOf(state.View(), id)
    }

    /** Buys one unit of producer `id` if the balance covers its price. */
    method BuyAuto(id: string)
      requires IsAuto(id)
      modifies state
      ensures state.View() == Rules.BuyAuto(old(state.View()), id)
    {
      ghost var before := state.View();
      var cost := GetAutoCost(id);
      if state.cookies < cost {
        return;
      }
      state.cookies := state.cookies - cost;
      state.autoclickers := state.autoclickers[id := Owned(state.autoclickers, id) + 1];
      assert state.View() == before.(cookies := before.cookies - cost,
                                     autoclickers := before.autoclickers[id := Owned(before.autoclickers, id) + 1]);
    }

    /** Buys upgrade `id` unless it is unknown, already purchased or unaffordable,
        and applies its effect. */
    method BuyUpgrade(id: string)
      modifies state
      ensures state.View() == Rules.BuyUpgrade(old(state.View()), id)
    {
      var up := UpgradeOf(id);
      if up.None? || id in state.upgrades || state.cookies < up.value.cost {
        return;
      }
      state.cookies := state.cookies - up.value.cost;
      state.upgrades := state.upgrades + {id};
      ApplyEffect(up.value);
    }

    /** Applies the effect of upgrade `u` to the state, once. */
    method ApplyEffect(u: Upgrade)
      modifies state
      ensures state.View() == Rules.ApplyEffect(old(state.View()), u)
    {
      match u.effect {
        case Click =>
          state.cookiesPerClick := state.cookiesPerClick * u.multiplier;
        case Autoclicker(target) =>
          state.autoMultipliers := state.autoMultipliers[target := Mult(state.autoMultipliers, target) * u.multiplier];
      }
    }

    /** A manual click on the cookie. */
    method OnClickCookie()
      modifies state
      ensures state.View() == Rules.ClickCookie(old(state.View()))
    {
      state.cookies := state.cookies + state.cookiesPerClick;
    }

    /** The production per second of the current state, summed over the producer
        table in order. */
    method ComputeProduction() returns (prod: int)
      ensures prod == Production(Autos, state.autoclickers, state.autoMultipliers)
      ensures prod >= 0
    {
      prod := 0;
      var i := 0;
      while i < |Autos|
        invariant 0 <= i <= |Autos|
        invariant prod == Production(Autos[..i], state.autoclickers, state.autoMultipliers)
      {
        var a := Autos[i];
        var owned := Owned(state.autoclickers, a.id);
        var mult := Mult(state.autoMultipliers, a.id);
        prod := prod + a.baseRate * owned * mult;
        assert Autos[..i + 1][..i] == Autos[..i];
        i := i + 1;
      }
      assert Autos[..i] == Autos;
      ProductionNonNegative(Autos, state.autoclickers, state.autoMultipliers);
    }

    /** One firing of the once-a-second timer: credit the production and record it
        as the current rate. */
    method Tick()
      modifies state
      ensures state.View() == Rules.Tick(old(state.View()))
    {
      var prod := ComputeProduction();
      state.cookies := state.cookies + prod;
      state.cookiesPerSecond := prod;
    }

    /** The player picks a display theme. */
    method OnChangeTheme(theme: string)
      modifies state
      ensures state.View() == Rules.ChangeTheme(old(state.View()), theme)
    {
      state.theme := theme;
    }

    /** The player asks to reset the save; `confirmed` is the answer to the
        confirmation dialog. On confirmation the state is replaced by a new one. */
    method OnResetSave(confirmed: bool)
      modifies this
      ensures confirmed ==> fresh(state) && state.View() == Rules.Fresh()
      ensures !confirmed ==> state == old(state)
    {
      if !confirmed {
        return;
      }
      state := new GameState();
    }
  }
}
