/** Worked examples of the economy on concrete states, each following from the
    contracts of the rules and of the game object. */
module Scenarios {
  import opened Catalog
  import opened Economy
  import opened Rules
  import Game

  /** The first cursor costs 15 and the second 17 = floor(15 * 1.15). */
  lemma CursorPrices()
    ensures AutoCost(15, 0) == 15 && AutoCost(15, 1) == 17
  {
  }

  /** The exact-floor price of the second grandma, bank and temple. In IEEE
      double arithmetic 100 * 1.15, 50000 * 1.15 and 200000 * 1.15 round to just
      below the whole number, so `Math.floor` there gives one less each. */
  lemma SecondUnitPrices()
    ensures AutoCost(100, 1) == 115 && AutoCost(50000, 1) == 57500 && AutoCost(200000, 1) == 230000
  {
  }

  /** With one grandma and 114 cookies the second grandma is not affordable here;
      script.js, computing its price as 114 in doubles, would sell it. */
  lemma SecondGrandmaAt114()
    ensures IsAuto("grandma")
    ensures var s := Fresh().(cookies := 114, autoclickers := map["grandma" := 1]);
            CostOf(s, "grandma") == 115 && BuyAuto(s, "grandma") == s
  {
    assert FindAuto(Autos, "grandma") == Some(1);
  }

  /** From a new game one click yields one cookie, a cursor costs 15, and buying
      one is refused. */
  lemma ClickThenCannotAffordCursor()
    ensures IsAuto("cursor")
    ensures ClickCookie(Fresh()).cookies == 1
    ensures CostOf(ClickCookie(Fresh()), "cursor") == 15
    ensures BuyAuto(ClickCookie(Fresh()), "cursor") == ClickCookie(Fresh())
  {
    assert FindAuto(Autos, "cursor") == Some(0);
  }

  /** With exactly 15 cookies the first cursor is bought, the balance drops to 0
      and the next cursor costs 17. */
  lemma BuyFirstCursor()
    ensures IsAuto("cursor")
    ensures var r := BuyAuto(Fresh().(cookies := 15), "cursor");
            r.cookies == 0 && Owned(r.autoclickers, "cursor") == 1 && CostOf(r, "cursor") == 17
  {
    assert FindAuto(Autos, "cursor") == Some(0);
  }

  /** One cursor owned and no multiplier: a tick credits exactly 1. */
  lemma TickWithOneCursor()
    ensures var s := Fresh().(autoclickers := map["cursor" := 1]);
            Tick(s).cookies == 1 && Tick(s).cookiesPerSecond == 1
  {
    var s := Fresh().(autoclickers := map["cursor" := 1]);
    assert FindAuto(Autos, "cursor") == Some(0);
    ProductionNoneOwned(Autos, map[], map[]);
    BuyAutoProductionGain(Fresh().(cookies := 15), "cursor");
    assert BuyAuto(Fresh().(cookies := 15), "cursor") == s;
  }

  /** The table entries the scenarios use. */
  lemma CursorEntries()
    ensures IsAuto("cursor") && AutoOf("cursor") == Auto("cursor", "Cursor", 15, 1)
    ensures UpgradeOf("doubleCursor") == Some(Upgrade("doubleCursor", "Double Cursors", 1000, Autoclicker("cursor"), 2))
  {
    assert FindAuto(Autos, "cursor") == Some(0);
    assert FindUpgrade(Upgrades, "doubleCursor") == Some(0);
  }

  /** Buying the Double Cursors upgrade with one cursor owned doubles its
      production to 2 per second, and a second purchase changes nothing. */
  lemma DoubleCursorsUpgrade()
    ensures var s := Fresh().(cookies := 1000, autoclickers := map["cursor" := 1]);
            var r := BuyUpgrade(s, "doubleCursor");
            r.cookies == 0 && "doubleCursor" in r.upgrades && ProductionOf(r) == 2
            && BuyUpgrade(r, "doubleCursor") == r
  {
    var s := Fresh().(cookies := 1000, autoclickers := map["cursor" := 1]);
    var u := Upgrade("doubleCursor", "Double Cursors", 1000, Autoclicker("cursor"), 2);
    CursorEntries();
    TickWithOneCursor();
    assert ProductionOf(s) == 1;
    assert Contribution(AutoOf("cursor"), s.autoclickers, s.autoMultipliers) == 1;
    BuyUpgradeProductionGain(s, "doubleCursor", u, "cursor");
    BuyUpgradeIdempotent(s, "doubleCursor");
  }

  /** The same play on the game object: a click, a refused purchase, a reset. */
  method PlayFromNewGame() {
    var game := new Game.CookieGame();
    ClickThenCannotAffordCursor();
    game.OnClickCookie();
    assert game.state.cookies == 1;
    game.BuyAuto("cursor");
    assert game.state.View() == ClickCookie(Fresh());
    game.BuyUpgrade("doubleCursor");
    assert game.state.cookies == 1 && game.state.upgrades == {};
    game.OnResetSave(true);
    assert game.state.View() == Fresh();
  }
}
