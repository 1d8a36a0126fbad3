/**
 * The coin and upgrade economy of js/menu.js: the menu's state record with
 * its guarded updates (unlocking and selecting balls, buying and toggling
 * upgrades, pausing, crediting a finished run) and the list of active
 * upgrades the menu hands to the game.
 *
 * A ball's upgrades are a JavaScript object keyed by upgrade id; its keys keep
 * insertion order, so it is a list of entries with distinct ids. Writing an
 * existing key replaces its record in place, writing a new key appends it.
 */
module Economy {
  import opened Wrappers
  import opened GameConfig
  import ConfigProperties

  // ---------------------------------------------------------------------------
  // A ball's upgrade records (js/menu.js:628-670, 853-864)
  // ---------------------------------------------------------------------------

  /** The position of the record for an id, the first one when ids repeat. */
  function IndexOf(es: seq<Entry>, id: string): (k: Option<nat>)
    ensures k.Some? ==> k.value < |es| && es[k.value].id == id && forall j :: 0 <= j < k.value ==> es[j].id != id
    ensures k.None? ==> forall j :: 0 <= j < |es| ==> es[j].id != id
  {
    if es == [] then None
    else if es[0].id == id then Some(0)
    else
      match IndexOf(es[1..], id)
      case Some(k) => Some(k + 1)
      case None => None
  }

  /** `upgrades[ballType]?.[upgradeId]`: the record stored for an id, if any. */
  function Lookup(es: seq<Entry>, id: string): (u: Option<Upgrade>)
    ensures u.Some? <==> exists i :: 0 <= i < |es| && es[i].id == id
    ensures u.Some? ==> Entry(id, u.value) in es
  {
    match IndexOf(es, id)
    case Some(k) => Some(es[k].data)
    case None => None
  }

  /** `upgrades[ballType]?.[upgradeId]?.level || 0`. */
  function LevelOf(es: seq<Entry>, id: string): (level: int)
    ensures Lookup(es, id).None? ==> level == 0
  {
    match Lookup(es, id)
    case Some(u) => u.level
    case None => 0
  }

  /** `upgrades[ballType][upgradeId] = u`: the record replaced in place, or appended for a new id. */
  function Put(es: seq<Entry>, id: string, u: Upgrade): (r: seq<Entry>)
    ensures Lookup(es, id).Some? ==> |r| == |es|
    ensures Lookup(es, id).None? ==> r == es + [Entry(id, u)]
  {
    match IndexOf(es, id)
    case Some(k) => es[k := Entry(id, u)]
    case None => es + [Entry(id, u)]
  }

  /** toggleUpgrade's flip: the record for the id, if any, with `active` negated. */
  function Toggled(es: seq<Entry>, id: string): (r: seq<Entry>)
    ensures |r| == |es|
  {
    match IndexOf(es, id)
    case Some(k) => es[k := Entry(id, es[k].data.(active := !es[k].data.active))]
    case None => es
  }

  /** getActiveUpgrades' filter: the records with a level above 0 that are active, in key order. */
  function ActiveEntries(es: seq<Entry>): (r: seq<Entry>)
    ensures |r| <= |es|
  {
    if es == [] then []
    else (if es[0].data.level > 0 && es[0].data.active then [es[0]] else []) + ActiveEntries(es[1..])
  }

  /** The filter keeps exactly the records with a level above 0 that are active. */
  lemma {:induction false} ActiveEntriesMembers(es: seq<Entry>, e: Entry)
    ensures e in ActiveEntries(es) <==> e in es && e.data.level > 0 && e.data.active
    decreases |es|
  {
    if es != [] {
      ActiveEntriesMembers(es[1..], e);
      assert es == [es[0]] + es[1..];
    }
  }

  /** One step of getActiveUpgrades' loop: the filter of a suffix takes or skips its first record. */
  lemma ActiveEntriesStep(es: seq<Entry>, i: nat)
    requires i < |es|
    ensures ActiveEntries(es[i..]) ==
      (if es[i].data.level > 0 && es[i].data.active then [es[i]] else []) + ActiveEntries(es[i + 1..])
  {
    assert es[i..][1..] == es[i + 1..];
  }

  /** No ball type occurs twice in the list of unlocked balls. */
  ghost predicate NoDuplicates(s: seq<string>) {
    forall i, j :: 0 <= i < j < |s| ==> s[i] != s[j]
  }

  /**
   * The records buyUpgrade can create for a ball: distinct ids, each an
   * upgrade the ball defines, bought to a level between 1 and its maximum.
   */
  ghost predicate Owned(ballType: string, es: seq<Entry>) {
    ConfigProperties.DistinctIds(es) &&
    forall i :: 0 <= i < |es| ==>
      var d := FindDefinition(ballType, es[i].id);
      d.Some? && 1 <= es[i].data.level <= d.value.maxLevel
  }

  /** Every ball's records are ones buyUpgrade can create. */
  ghost predicate AllOwned(upgrades: map<string, seq<Entry>>) {
    forall b :: b in upgrades ==> Owned(b, upgrades[b])
  }

  /** Storing a ball's records keeps the map as buyUpgrade can create it. */
  lemma StoreOwned(upgrades: map<string, seq<Entry>>, ballType: string, es: seq<Entry>)
    requires AllOwned(upgrades) && Owned(ballType, es)
    ensures AllOwned(upgrades[ballType := es])
  {
  }

  /** The coin balance and a ball's records after a purchase. */
  datatype Bought = Bought(coins: int, records: seq<Entry>)

  /**
   * buyUpgrade's decision: an upgrade the ball defines, below its maximum
   * level, with coins for the next level's price, is bought; anything else is
   * refused (None).
   */
  function Purchase(coins: int, ballType: string, es: seq<Entry>, id: string): Option<Bought> {
    match FindDefinition(ballType, id)
    case None => None
    case Some(d) =>
      var level := LevelOf(es, id);
      var price := UpgradePrice(d.basePrice, level + 1);
      if coins >= price && level < d.maxLevel then
        Some(Bought(coins - price, Put(es, id, Upgrade(level + 1, true))))
      else None
  }

  // ---------------------------------------------------------------------------
  // The menu's state (js/menu.js:3-30)
  // ---------------------------------------------------------------------------

  class Menu {
    var totalCoins: int
    var bestScore: int
    var unlockedBalls: seq<string>
    var currentBall: string
    var gameStarted: bool
    var isPaused: bool
    var isGameOver: bool
    /** The coins of the current run, which the game reports as it collects them. */
    var coinsInGame: int
    /** The current run's score, the highest floor reached, which the game reports. */
    var scoreInGame: int
    var upgrades: map<string, seq<Entry>>

    /**
     * What every transition keeps: no negative coin balance or score, each
     * ball unlocked once, the selected ball unlocked, and only records
     * buyUpgrade can create.
     */
    ghost predicate Valid()
      reads this
    {
      totalCoins >= 0 && bestScore >= 0 && coinsInGame >= 0 && scoreInGame >= 0 &&
      NoDuplicates(unlockedBalls) && currentBall in unlockedBalls &&
      AllOwned(upgrades)
    }

    /** The initial state record: no coins, only the standard ball, no upgrades, no game. */
    constructor ()
      ensures Valid()
      ensures totalCoins == 0 && bestScore == 0 && unlockedBalls == [Standard] && currentBall == Standard
      ensures !gameStarted && !isPaused && !isGameOver && coinsInGame == 0 && scoreInGame == 0
      ensures upgrades == map[Standard := [], Rubber := [], Beach := [], Golf := []]
    {
      totalCoins, bestScore := 0, 0;
      unlockedBalls, currentBall := [Standard], Standard;
      gameStarted, isPaused, isGameOver := false, false, false;
      coinsInGame, scoreInGame := 0, 0;
      upgrades := map[Standard := [], Rubber := [], Beach := [], Golf := []];
    }

    // -------------------------------------------------------------------------
    // Balls (js/menu.js:594-625)
    // -------------------------------------------------------------------------

    /**
     * unlockBall: with enough coins for a ball not unlocked yet, pay its price
     * and add it to the unlocked balls; otherwise nothing changes.
     */
    method UnlockBall(ballType: string)
      requires Valid()
      modifies this`totalCoins, this`unlockedBalls
      ensures Valid()
      ensures var cost := BallUnlockPrice(ballType);
        if old(totalCoins) >= cost && ballType !in old(unlockedBalls) then
          totalCoins == old(totalCoins) - cost && unlockedBalls == old(unlockedBalls) + [ballType]
        else
          totalCoins == old(totalCoins) && unlockedBalls == old(unlockedBalls)
    {
      var cost := BallUnlockPrice(ballType);
      if totalCoins >= cost && ballType !in unlockedBalls {
        totalCoins := totalCoins - cost;
        unlockedBalls := unlockedBalls + [ballType];
      }
    }

    /** selectBall: an unlocked ball becomes the current one; a locked one changes nothing. */
    method SelectBall(ballType: string)
      requires Valid()
      modifies this`currentBall
      ensures Valid()
      ensures currentBall == if ballType in unlockedBalls then ballType else old(currentBall)
    {
      if ballType in unlockedBalls {
        currentBall := ballType;
      }
    }

    // -------------------------------------------------------------------------
    // Upgrades (js/menu.js:628-670)
    // -------------------------------------------------------------------------

    /**
     * buyUpgrade: the coin balance and the ball's records become what the
     * purchase gives, or stay as they are when the purchase is refused.
     */
    method BuyUpgrade(ballType: string, upgradeId: string)
      requires Valid()
      modifies this`totalCoins, this`upgrades
      ensures Valid()
      ensures match Purchase(old(totalCoins), ballType, UpgradesFor(old(upgrades), ballType), upgradeId)
        case Some(p) => totalCoins == p.coins && upgrades == old(upgrades)[ballType := p.records]
        case None => totalCoins == old(totalCoins) && upgrades == old(upgrades)
    {
      var records := UpgradesFor(upgrades, ballType);
      var outcome := Purchase(totalCoins, ballType, records, upgradeId);
      if outcome.Some? {
        PurchaseKeepsOwned(totalCoins, ballType, records, upgradeId);
        StoreOwned(upgrades, ballType, outcome.value.records);
        totalCoins, upgrades := outcome.value.coins, upgrades[ballType := outcome.value.records];
      }
    }

    /** toggleUpgrade: an existing record's `active` flag flips; without a record nothing changes. */
    method ToggleUpgrade(ballType: string, upgradeId: string)
      requires Valid()
      modifies this`upgrades
      ensures Valid()
      ensures upgrades ==
        if Lookup(UpgradesFor(old(upgrades), ballType), upgradeId).Some? then
          old(upgrades)[ballType := Toggled(UpgradesFor(old(upgrades), ballType), upgradeId)]
        else old(upgrades)
    {
      var records := UpgradesFor(upgrades, ballType);
      if Lookup(records, upgradeId).Some? {
        ToggleKeepsLevels(records, upgradeId);
        OwnedAfterToggle(ballType, records, upgradeId);
        StoreOwned(upgrades, ballType, Toggled(records, upgradeId));
        upgrades := upgrades[ballType := Toggled(records, upgradeId)];
      }
    }

    /**
     * getActiveUpgrades: the current ball's records with a level above 0
     * that are active, collected in key order.
     */
    method GetActiveUpgrades() returns (active: seq<Entry>)
      ensures active == ActiveEntries(UpgradesFor(upgrades, currentBall))
    {
      var records := UpgradesFor(upgrades, currentBall);
      active := [];
      var i := 0;
      while i < |records|
        invariant 0 <= i <= |records|
        invariant active + ActiveEntries(records[i..]) == ActiveEntries(records)
      {
        var e := records[i];
        ActiveEntriesStep(records, i);
        ghost var rest := ActiveEntries(records[i + 1..]);
        if e.data.level > 0 && e.data.active {
          assert active + ([e] + rest) == (active + [e]) + rest;
          active := active + [e];
        } else {
          assert [] + rest == rest;
        }
        i := i + 1;
      }
    }

    // -------------------------------------------------------------------------
    // A run (js/menu.js:673-760, 1098-1106; js/game.js:979, 1810)
    // -------------------------------------------------------------------------

    /**
     * startGame's own state: a started, running game with no coins and no
     * score yet; it hands the current ball and its active upgrades to the game.
     */
    method StartGame() returns (ballType: string, active: seq<Entry>)
      requires Valid()
      modifies this`gameStarted, this`isPaused, this`isGameOver, this`coinsInGame, this`scoreInGame
      ensures Valid()
      ensures gameStarted && !isPaused && !isGameOver && coinsInGame == 0 && scoreInGame == 0
      ensures ballType == currentBall && active == ActiveEntries(UpgradesFor(upgrades, currentBall))
    {
      gameStarted, isPaused, isGameOver := true, false, false;
      coinsInGame, scoreInGame := 0, 0;
      ballType := currentBall;
      active := GetActiveUpgrades();
    }

    /** collectCoin's report to the menu: the coins collected so far in the run. */
    method ReportCoins(coins: nat)
      requires Valid()
      modifies this`coinsInGame
      ensures Valid() && coinsInGame == coins
    {
      coinsInGame := coins;
    }

    /** updateFloorDisplay's report to the menu: the highest floor reached in the run. */
    method ReportScore(score: nat)
      requires Valid()
      modifies this`scoreInGame
      ensures Valid() && scoreInGame == score
    {
      scoreInGame := score;
    }

    /** The game's report of a new best score, the highest floor ever reached. */
    method RecordBestScore(best: nat)
      requires Valid()
      modifies this`bestScore
      ensures Valid() && bestScore == best
    {
      bestScore := best;
    }

    /** togglePause: flips the pause flag of a started game that is not over; otherwise nothing changes. */
    method TogglePause()
      requires Valid()
      modifies this`isPaused
      ensures Valid()
      ensures isPaused == if !gameStarted || isGameOver then old(isPaused) else !old(isPaused)
    {
      if !gameStarted || isGameOver {
        return;
      }
      isPaused := !isPaused;
    }

    /**
     * gameOver: a started game that is not over yet ends; the best score
     * rises to the run's score when that is higher, and the run's coins are
     * added to the total. Otherwise nothing changes.
     */
    method GameOver()
      requires Valid()
      modifies this`isGameOver, this`gameStarted, this`bestScore, this`totalCoins
      ensures Valid()
      ensures if old(gameStarted) && !old(isGameOver) then
          isGameOver && !gameStarted &&
          bestScore == (if scoreInGame > old(bestScore) then scoreInGame else old(bestScore)) &&
          totalCoins == old(totalCoins) + coinsInGame
        else
          isGameOver == old(isGameOver) && gameStarted == old(gameStarted) &&
          bestScore == old(bestScore) && totalCoins == old(totalCoins)
    {
      if !gameStarted || isGameOver {
        return;
      }
      isGameOver, gameStarted := true, false;
      if scoreInGame > bestScore {
        bestScore := scoreInGame;
      }
      totalCoins := totalCoins + coinsInGame;
    }

    /** saveGameProgress: the run's coins go to the total when asked to and when there are any. */
    method SaveGameProgress(shouldAddToTotal: bool)
      requires Valid()
      modifies this`totalCoins
      ensures Valid()
      ensures totalCoins == old(totalCoins) + (if shouldAddToTotal && coinsInGame > 0 then coinsInGame else 0)
    {
      if shouldAddToTotal && coinsInGame > 0 {
        totalCoins := totalCoins + coinsInGame;
      }
    }
  }

  // ---------------------------------------------------------------------------
  // Properties of the records
  // ---------------------------------------------------------------------------

  /**
   * After storing a record under an id, looking the id up finds exactly that
   * record, and every other id finds what it found before.
   */
  lemma PutThenLookup(es: seq<Entry>, id: string, u: Upgrade, other: string)
    ensures Lookup(Put(es, id, u), id) == Some(u)
    ensures other != id ==> Lookup(Put(es, id, u), other) == Lookup(es, other)
  {
    var r := Put(es, id, u);
    match IndexOf(es, id)
    case Some(k) =>
      assert IndexOf(r, id) == Some(k) by { SameIdsSameIndex(es, r, id); }
      if other != id {
        SameIdsSameIndex(es, r, other);
      }
    case None =>
      AppendedIndex(es, Entry(id, u));
      if other != id {
        AppendedOtherIndex(es, Entry(id, u), other);
      }
  }

  /** Two lists with the same ids at every position find an id at the same position. */
  lemma {:induction false} SameIdsSameIndex(es: seq<Entry>, fs: seq<Entry>, id: string)
    requires |es| == |fs| && forall i :: 0 <= i < |es| ==> es[i].id == fs[i].id
    ensures IndexOf(es, id) == IndexOf(fs, id)
    decreases |es|
  {
    if es != [] && es[0].id != id {
      SameIdsSameIndex(es[1..], fs[1..], id);
    }
  }

  /** A new id appended to a list is found at the end. */
  lemma {:induction false} AppendedIndex(es: seq<Entry>, e: Entry)
    requires IndexOf(es, e.id).None?
    ensures IndexOf(es + [e], e.id) == Some(|es|)
    decreases |es|
  {
    if es != [] {
      assert (es + [e])[1..] == es[1..] + [e];
      AppendedIndex(es[1..], e);
    }
  }

  /** Appending a record leaves the position of every other id as it was. */
  lemma {:induction false} AppendedOtherIndex(es: seq<Entry>, e: Entry, other: string)
    requires other != e.id
    ensures IndexOf(es + [e], other) == IndexOf(es, other)
    decreases |es|
  {
    if es != [] {
      assert (es + [e])[1..] == es[1..] + [e];
      AppendedOtherIndex(es[1..], e, other);
    }
  }

  /** Flipping a record twice gives the original list; a flip never changes a level. */
  lemma ToggleTwice(es: seq<Entry>, id: string)
    ensures Toggled(Toggled(es, id), id) == es
  {
    ToggleKeepsLevels(es, id);
    SameIdsSameIndex(es, Toggled(es, id), id);
    match IndexOf(es, id)
    case Some(k) =>
      assert Toggled(Toggled(es, id), id)[k] == es[k];
    case None =>
  }

  /** toggleUpgrade leaves the ids and every level as they are and flips only the record for the id. */
  lemma ToggleKeepsLevels(es: seq<Entry>, id: string)
    ensures var r := Toggled(es, id);
      forall i :: 0 <= i < |es| ==>
        r[i].id == es[i].id && r[i].data.level == es[i].data.level &&
        (r[i].data.active == es[i].data.active <==> Some(i) != IndexOf(es, id))
  {
  }

  /**
   * When a purchase goes through: exactly when the ball defines the upgrade,
   * the level is below the maximum and the coins cover the next level's
   * price. It then costs exactly that price, which is positive, so the balance
   * falls but never below zero.
   */
  lemma PurchaseMeaning(coins: int, ballType: string, es: seq<Entry>, id: string)
    requires Owned(ballType, es)
    ensures var p := Purchase(coins, ballType, es, id);
      var d := FindDefinition(ballType, id);
      var level := LevelOf(es, id);
      (p.Some? <==> d.Some? && level < d.value.maxLevel && coins >= UpgradePrice(d.value.basePrice, level + 1)) &&
      (p.Some? ==> p.value.coins == coins - UpgradePrice(d.value.basePrice, level + 1) && 0 <= p.value.coins < coins)
  {
    if FindDefinition(ballType, id).Some? {
      FindDefinitionPriced(ballType, id);
      LevelOfOwned(ballType, es, id);
    }
  }

  /** An owned record's level is at least 1, so a level lookup is never negative. */
  lemma LevelOfOwned(ballType: string, es: seq<Entry>, id: string)
    requires Owned(ballType, es)
    ensures LevelOf(es, id) >= 0
  {
  }

  /**
   * What a purchase stores: the upgrade's record at the next level, active,
   * and every other upgrade's record as it was.
   */
  lemma PurchaseStores(coins: int, ballType: string, es: seq<Entry>, id: string, other: string)
    ensures var p := Purchase(coins, ballType, es, id);
      p.Some? ==>
        Lookup(p.value.records, id) == Some(Upgrade(LevelOf(es, id) + 1, true)) &&
        (other != id ==> Lookup(p.value.records, other) == Lookup(es, other))
  {
    PutThenLookup(es, id, Upgrade(LevelOf(es, id) + 1, true), other);
  }

  /** Every upgrade a ball defines has a positive base price. */
  lemma FindDefinitionPriced(ballType: string, id: string)
    ensures FindDefinition(ballType, id).Some? ==> FindDefinition(ballType, id).value.basePrice > 0
  {
  }

  /** An upgrade at its maximum level is never bought, whatever the balance. */
  lemma RefusedAtMaxLevel(coins: int, ballType: string, es: seq<Entry>, id: string)
    requires FindDefinition(ballType, id).Some? && LevelOf(es, id) >= FindDefinition(ballType, id).value.maxLevel
    ensures Purchase(coins, ballType, es, id).None?
  {
  }

  /** A purchase keeps a ball's records as buyUpgrade can create them. */
  lemma PurchaseKeepsOwned(coins: int, ballType: string, es: seq<Entry>, id: string)
    requires Owned(ballType, es)
    ensures Purchase(coins, ballType, es, id).Some? ==> Owned(ballType, Purchase(coins, ballType, es, id).value.records)
  {
    if Purchase(coins, ballType, es, id).Some? {
      OwnedAfterBuy(ballType, es, id, LevelOf(es, id));
    }
  }

  /** A purchase keeps a ball's records as buyUpgrade can create them. */
  lemma OwnedAfterBuy(ballType: string, es: seq<Entry>, id: string, level: int)
    requires Owned(ballType, es)
    requires FindDefinition(ballType, id).Some? && level == LevelOf(es, id)
    requires level < FindDefinition(ballType, id).value.maxLevel
    ensures Owned(ballType, Put(es, id, Upgrade(level + 1, true)))
  {
    var u := Upgrade(level + 1, true);
    var r := Put(es, id, u);
    PutKeepsDistinctIds(es, id, u);
    forall i | 0 <= i < |r|
      ensures var d := FindDefinition(ballType, r[i].id); d.Some? && 1 <= r[i].data.level <= d.value.maxLevel
    {
      if r[i] != Entry(id, u) {
        PutOtherPositions(es, id, u, i);
      } else if IndexOf(es, id).Some? {
        assert es[IndexOf(es, id).value].data.level >= 1;
      }
    }
  }

  /** Storing a record never puts a second record under the same id. */
  lemma PutKeepsDistinctIds(es: seq<Entry>, id: string, u: Upgrade)
    requires ConfigProperties.DistinctIds(es)
    ensures ConfigProperties.DistinctIds(Put(es, id, u))
  {
    var r := Put(es, id, u);
    match IndexOf(es, id)
    case Some(k) =>
      forall i, j | 0 <= i < j < |r| ensures r[i].id != r[j].id {
        assert r[i].id == es[i].id && r[j].id == es[j].id;
      }
    case None =>
      forall i, j | 0 <= i < j < |r| ensures r[i].id != r[j].id {
        if j == |es| {
          assert r[i] == es[i];
        }
      }
  }

  /** Every position of the new list other than the stored record holds the old record. */
  lemma PutOtherPositions(es: seq<Entry>, id: string, u: Upgrade, i: nat)
    requires i < |Put(es, id, u)| && Put(es, id, u)[i] != Entry(id, u)
    ensures i < |es| && Put(es, id, u)[i] == es[i]
  {
  }

  /** A flip keeps a ball's records as buyUpgrade can create them. */
  lemma OwnedAfterToggle(ballType: string, es: seq<Entry>, id: string)
    requires Owned(ballType, es)
    ensures Owned(ballType, Toggled(es, id))
  {
    ToggleKeepsLevels(es, id);
    var r := Toggled(es, id);
    assert forall i :: 0 <= i < |r| ==> r[i].id == es[i].id;
  }

  /**
   * Handing the game only the active records changes nothing: the resolver
   * skips inactive and level-0 records itself, so the ball's configuration is
   * the same as with all of them.
   */
  lemma {:induction false} ActiveEntriesResolveSame(ballType: string, c: BallConfig, es: seq<Entry>)
    ensures ApplyEntries(ballType, c, ActiveEntries(es)) == ApplyEntries(ballType, c, es)
    decreases |es|
  {
    if es != [] {
      var rest := ActiveEntries(es[1..]);
      if es[0].data.level > 0 && es[0].data.active {
        assert ActiveEntries(es) == [es[0]] + rest;
        assert ([es[0]] + rest)[1..] == rest;
        ActiveEntriesResolveSame(ballType, ApplyEntry(ballType, c, es[0]), es[1..]);
      } else {
        assert ActiveEntries(es) == rest;
        assert ApplyEntry(ballType, c, es[0]) == c;
        ActiveEntriesResolveSame(ballType, c, es[1..]);
      }
    }
  }

  /**
   * The ball the game starts with is configured as the resolver configures
   * the current ball with all its records: startGame's hand-over of the active
   * records loses nothing.
   */
  lemma HandOverKeepsConfig(ballType: string, upgrades: map<string, seq<Entry>>)
    ensures BallConfigWithUpgrades(ballType, map[ballType := ActiveEntries(UpgradesFor(upgrades, ballType))])
         == BallConfigWithUpgrades(ballType, upgrades)
  {
    ActiveEntriesResolveSame(ballType, BaseBallConfig(ballType), UpgradesFor(upgrades, ballType));
  }
}
