/** The game's mutable state as the page holds it: the `player` object and the
    module-level `currentLevel`, `failCount` and `unlockedTables`, updated in
    place by `submitQuery`, `showHint` and `unlockTable`. */
module GameState {
  import opened Quest
  import opened Progression

  /** The `player` record; `inventory` is never read or written and is left out. */
  class Player {
    const name: string
    var hp: int
    var xp: int
    var level: int

    constructor ()
      ensures name == "Data Warrior" && hp == 100 && xp == 0 && level == 1
    {
      name := "Data Warrior";
      hp := 100;
      xp := 0;
      level := 1;
    }
  }

  class Game {
    const levels: seq<Level>
    const player: Player
    var currentLevel: int
    var failCount: int
    var unlockedTables: map<string, bool>

    /** The state as a value, for stating what each method does. */
    function State(): Progress
      reads this, player
    {
      Progress(player.hp, player.xp, player.level, currentLevel, failCount, unlockedTables)
    }

    ghost predicate Valid()
      reads this, player
    {
      Inv(levels, State())
    }

    constructor ()
      ensures levels == Levels && fresh(player)
      ensures State() == Initial && Valid()
    {
      levels := Levels;
      player := new Player();
      currentLevel := 1;
      failCount := 0;
      unlockedTables := map["heroes" := false, "monsters" := false, "items" := false, "quests" := false];
      new;
      InitialInv(levels);
    }

    /** The state effect of `unlockTable`; the button it creates is display only. */
    method UnlockTable(tableName: string)
      modifies this
      ensures unlockedTables == Unlock(old(unlockedTables), tableName)
      ensures currentLevel == old(currentLevel) && failCount == old(failCount)
    {
      unlockedTables := unlockedTables[tableName := true];
    }

    /** `submitQuery`, in the order of its statements; it returns what it logs
        and renders. */
    method SubmitQuery(query: string) returns (events: seq<Event>)
      requires 1 <= currentLevel <= |levels|
      modifies this, player
      ensures State() == Submit(levels, old(State()), query)
      ensures events == SubmitEvents(levels, old(State()), query)
      ensures old(Valid()) ==> Valid()
    {
      ghost var before := State();
      var levelObj := levels[currentLevel - 1];
      var tableName := levelObj.table;
      var accepted := ParseSql(query, currentLevel, levels);
      if accepted {
        events := [Correct(currentLevel)];
        player.xp := player.xp + Reward;
        player.level := player.level + 1;
        var wasLocked := !IsUnlocked(unlockedTables, tableName);
        if wasLocked {
          UnlockTable(tableName);
          events := events + [TableUnlocked(tableName)];
        }
        events := events + [TableShown(tableName)];
        currentLevel := currentLevel + 1;
        failCount := 0;
        ghost var shown := events;
        if currentLevel > |levels| {
          events := events + [GameComplete];
        } else {
          events := events + [NextQuest(levels[currentLevel - 1].task)];
        }
        assert shown == [Correct(before.currentLevel)]
          + (if wasLocked then [TableUnlocked(tableName)] else []) + [TableShown(tableName)];
        assert events == SubmitEvents(levels, before, query);
        assert State() == Submit(levels, before, query);
      } else {
        failCount := failCount + 1;
        events := [Incorrect];
        assert State() == Submit(levels, before, query);
      }
      if Inv(levels, before) {
        SubmitInv(levels, before, query);
      }
    }

    /** `showHint`: counts one more attempt and returns the count it displays.
        It stays callable after the last quest. */
    method ShowHint() returns (attempts: int)
      modifies this
      ensures State() == Hint(old(State()))
      ensures attempts == failCount
      ensures old(Valid()) ==> Valid()
    {
      failCount := failCount + 1;
      attempts := failCount;
    }
  }

  /** A client that plays the first quest through the methods' contracts alone. */
  method PlayFirstQuest() returns (game: Game)
    ensures game.currentLevel == 2 && game.player.xp == 50 && game.failCount == 0
    ensures IsUnlocked(game.unlockedTables, "heroes")
    ensures game.Valid()
  {
    DoubleSpaceRejected();
    LowerCaseAccepted();
    game := new Game();
    var hint := game.ShowHint();
    assert hint == 1;
    var wrong := game.SubmitQuery("SELECT *  FROM heroes");
    assert game.failCount == 2;
    var right := game.SubmitQuery("select * from heroes");
  }
}
