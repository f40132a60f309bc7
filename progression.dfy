/** The progression state machine: the game's module-level state as a value,
    the accept and reject transitions of a submission, the hint transition,
    and what can be said about every run from the start state. */
module Progression {
  import opened Ascii
  import opened Quest

  /** Experience awarded for each solved quest. */
  const Reward: int := 50

  /** `player.hp`, `player.xp`, `player.level`, `currentLevel`, `failCount`
      and the `unlockedTables` flags. */
  datatype Progress = Progress(
    hp: int,
    xp: int,
    playerLevel: int,
    currentLevel: int,
    failCount: int,
    unlockedTables: map<string, bool>)

  /** The state when the page is loaded: all four tables locked. */
  const Initial: Progress := Progress(100, 0, 1, 1, 0,
    map["heroes" := false, "monsters" := false, "items" := false, "quests" := false])

  /** What `!unlockedTables[name]` tests: the flag of an own key; every other
      name reads as locked. Names inherited from `Object.prototype` are not
      modelled; no level uses one. */
  predicate IsUnlocked(tables: map<string, bool>, name: string) {
    name in tables && tables[name]
  }

  /** The state effect of `unlockTable`: the flag of `name` becomes true and
      no other flag changes. */
  function Unlock(tables: map<string, bool>, name: string): (r: map<string, bool>)
    ensures IsUnlocked(r, name)
    ensures forall t :: t != name ==> (IsUnlocked(r, t) <==> IsUnlocked(tables, t))
    ensures r.Keys == tables.Keys + {name}
  {
    tables[name := true]
  }

  /** A submission reads `levels[currentLevel - 1]`, which throws past the last level. */
  predicate CanSubmit(levels: seq<Level>, p: Progress) {
    1 <= p.currentLevel <= |levels|
  }

  /** `submitQuery`: an accepted query awards experience, raises the player's
      level, unlocks the level's table if it was locked, moves to the next
      quest and clears the attempt counter; a rejected one only counts the
      attempt. */
  function Submit(levels: seq<Level>, p: Progress, query: string): (r: Progress)
    requires CanSubmit(levels, p)
    ensures r.hp == p.hp
    ensures var name := levels[p.currentLevel - 1].table;
      ParseSql(query, p.currentLevel, levels) ==>
        r.xp == p.xp + Reward && r.playerLevel == p.playerLevel + 1 &&
        r.currentLevel == p.currentLevel + 1 && r.failCount == 0 &&
        IsUnlocked(r.unlockedTables, name) &&
        forall t :: t != name ==> (IsUnlocked(r.unlockedTables, t) <==> IsUnlocked(p.unlockedTables, t))
    ensures !ParseSql(query, p.currentLevel, levels) ==> r == p.(failCount := p.failCount + 1)
  {
    if ParseSql(query, p.currentLevel, levels) then
      var name := levels[p.currentLevel - 1].table;
      var tables := if !IsUnlocked(p.unlockedTables, name) then Unlock(p.unlockedTables, name) else p.unlockedTables;
      p.(xp := p.xp + Reward, playerLevel := p.playerLevel + 1, unlockedTables := tables,
         currentLevel := p.currentLevel + 1, failCount := 0)
    else
      p.(failCount := p.failCount + 1)
  }

  /** What a submission shows the learner, without the text: the messages it
      writes to the game log and, as `TableShown`, the table it renders. */
  datatype Event =
    | Correct(level: int)
    | TableUnlocked(table: string)
    | TableShown(table: string)
    | GameComplete
    | NextQuest(task: string)
    | Incorrect

  /** The output of one submission: on success the completed level, the
      unlock notice if the table was still locked, the rendering of the whole
      table (no filtering happens), then either the final congratulation or
      the next task. */
  function SubmitEvents(levels: seq<Level>, p: Progress, query: string): seq<Event>
    requires CanSubmit(levels, p)
  {
    if ParseSql(query, p.currentLevel, levels) then
      var name := levels[p.currentLevel - 1].table;
      var next := p.currentLevel + 1;
      [Correct(p.currentLevel)]
      + (if !IsUnlocked(p.unlockedTables, name) then [TableUnlocked(name)] else [])
      + [TableShown(name)]
      + (if next > |levels| then [GameComplete] else [NextQuest(levels[next - 1].task)])
    else
      [Incorrect]
  }

  /** What the log of a submission says: a rejection is reported exactly when
      the query is rejected; an accepted query reports its level first and
      always shows the table; the unlock notice appears exactly when the
      level's table was still locked; the congratulation appears exactly when
      the last quest is solved, and otherwise the next task follows; a
      rejection logs nothing else. */
  lemma SubmitEventsReport(levels: seq<Level>, p: Progress, query: string)
    requires CanSubmit(levels, p)
    ensures var r := SubmitEvents(levels, p, query);
      var ok := ParseSql(query, p.currentLevel, levels);
      var name := levels[p.currentLevel - 1].table;
      r != [] &&
      (Incorrect in r <==> !ok) &&
      (ok ==> r[0] == Correct(p.currentLevel) && TableShown(name) in r) &&
      (GameComplete in r <==> ok && p.currentLevel == |levels|) &&
      (forall t :: TableUnlocked(t) in r <==> ok && t == name && !IsUnlocked(p.unlockedTables, name)) &&
      (ok && p.currentLevel < |levels| ==> NextQuest(levels[p.currentLevel].task) in r) &&
      (!ok ==> r == [Incorrect])
  {
    var r := SubmitEvents(levels, p, query);
    if ParseSql(query, p.currentLevel, levels) {
      var name := levels[p.currentLevel - 1].table;
      var unlock := if !IsUnlocked(p.unlockedTables, name) then [TableUnlocked(name)] else [];
      var last := if p.currentLevel + 1 > |levels| then [GameComplete] else [NextQuest(levels[p.currentLevel].task)];
      assert r == [Correct(p.currentLevel)] + unlock + [TableShown(name)] + last;
      assert forall e :: e in r <==> e == Correct(p.currentLevel) || e in unlock || e == TableShown(name) || e in last;
    }
  }

  /** `showHint`: one more attempt is counted. */
  function Hint(p: Progress): Progress {
    p.(failCount := p.failCount + 1)
  }

  /** The learner's two actions. */
  datatype Action = SubmitQuery(query: string) | ShowHint

  /** One action; `None` when a submission reads past the last level and throws. */
  function Step(levels: seq<Level>, p: Progress, a: Action): Option<Progress> {
    match a
    case ShowHint => Some(Hint(p))
    case SubmitQuery(query) => if CanSubmit(levels, p) then Some(Submit(levels, p, query)) else None
  }

  /** A sequence of actions in order; `None` once one of them throws. */
  function Run(levels: seq<Level>, p: Progress, actions: seq<Action>): Option<Progress>
    decreases |actions|
  {
    if actions == [] then Some(p)
    else match Step(levels, p, actions[0])
      case None => None
      case Some(q) => Run(levels, q, actions[1..])
  }

  /** The tables of the first `n` levels. */
  function WonTables(levels: seq<Level>, n: int): set<string> {
    set i | 0 <= i < n && i < |levels| :: levels[i].table
  }

  /** What holds in every state reachable from `Initial`: the player's level
      and experience follow the quest number, hit points never move, the
      quest number stays within the table plus the completed state, and the
      unlocked tables are exactly those of the solved levels. */
  ghost predicate Inv(levels: seq<Level>, p: Progress) {
    p.hp == 100 &&
    p.playerLevel == p.currentLevel &&
    p.xp == Reward * (p.currentLevel - 1) &&
    1 <= p.currentLevel <= |levels| + 1 &&
    p.failCount >= 0 &&
    forall t :: IsUnlocked(p.unlockedTables, t) <==> t in WonTables(levels, p.currentLevel - 1)
  }

  lemma WonTablesNext(levels: seq<Level>, n: nat)
    requires n < |levels|
    ensures WonTables(levels, n + 1) == WonTables(levels, n) + {levels[n].table}
  {
    assert levels[n].table in WonTables(levels, n + 1);
  }

  lemma InitialInv(levels: seq<Level>)
    ensures Inv(levels, Initial)
  {
    assert WonTables(levels, 0) == {};
  }

  /** Accepted and rejected submissions both keep the invariant. */
  lemma SubmitInv(levels: seq<Level>, p: Progress, query: string)
    requires Inv(levels, p) && CanSubmit(levels, p)
    ensures Inv(levels, Submit(levels, p, query))
  {
    if ParseSql(query, p.currentLevel, levels) {
      WonTablesNext(levels, p.currentLevel - 1);
    }
  }

  lemma StepInv(levels: seq<Level>, p: Progress, a: Action)
    requires Inv(levels, p)
    ensures Step(levels, p, a).Some? ==> Inv(levels, Step(levels, p, a).value)
  {
    if a.SubmitQuery? && CanSubmit(levels, p) {
      SubmitInv(levels, p, a.query);
    }
  }

  lemma {:induction false} RunInv(levels: seq<Level>, p: Progress, actions: seq<Action>)
    requires Inv(levels, p)
    ensures Run(levels, p, actions).Some? ==> Inv(levels, Run(levels, p, actions).value)
    decreases |actions|
  {
    if actions != [] {
      StepInv(levels, p, actions[0]);
      if Step(levels, p, actions[0]).Some? {
        RunInv(levels, Step(levels, p, actions[0]).value, actions[1..]);
      }
    }
  }

  /** Every state reachable from the start satisfies the invariant. */
  lemma Reachable(levels: seq<Level>, actions: seq<Action>)
    ensures Run(levels, Initial, actions).Some? ==> Inv(levels, Run(levels, Initial, actions).value)
  {
    InitialInv(levels);
    RunInv(levels, Initial, actions);
  }

  /** No level of the game uses the quests table, so its flag stays false. */
  lemma QuestsNeverUnlocked(actions: seq<Action>)
    ensures Run(Levels, Initial, actions).Some? ==>
      !IsUnlocked(Run(Levels, Initial, actions).value.unlockedTables, "quests")
  {
    Reachable(Levels, actions);
    forall n | 0 <= n <= |Levels| ensures "quests" !in WonTables(Levels, n) {
    }
  }

  /** The quest number never goes down and an unlocked table is never locked again. */
  lemma {:induction false} RunMonotone(levels: seq<Level>, p: Progress, actions: seq<Action>)
    ensures var r := Run(levels, p, actions);
      r.Some? ==>
        p.currentLevel <= r.value.currentLevel &&
        forall t :: IsUnlocked(p.unlockedTables, t) ==> IsUnlocked(r.value.unlockedTables, t)
    decreases |actions|
  {
    if actions != [] {
      var s := Step(levels, p, actions[0]);
      if s.Some? {
        RunMonotone(levels, s.value, actions[1..]);
      }
    }
  }

  /** `n` hint requests in a row. */
  function Hints(n: nat): (r: seq<Action>)
    ensures |r| == n && forall i :: 0 <= i < n ==> r[i] == ShowHint
  {
    if n == 0 then [] else [ShowHint] + Hints(n - 1)
  }

  /** Asking for `n` hints raises the attempt counter by exactly `n` and
      changes nothing else. */
  lemma {:induction false} HintsRaiseFailCount(levels: seq<Level>, p: Progress, n: nat)
    ensures Run(levels, p, Hints(n)) == Some(p.(failCount := p.failCount + n))
    decreases n
  {
    if n > 0 {
      assert Hints(n)[1..] == Hints(n - 1);
      HintsRaiseFailCount(levels, Hint(p), n - 1);
    }
  }

  /** The canonical answers of the quests from `from` on. */
  function Solutions(from: int): seq<Action>
    decreases |Levels| + 1 - from
  {
    if 1 <= from <= |Levels| then
      [SubmitQuery(Canonical(from, Upper(Levels[from - 1].table)).value)] + Solutions(from + 1)
    else []
  }

  /** From any reachable state, submitting the remaining canonical answers
      completes the game with full experience; after that, a submission throws. */
  lemma {:induction false} SolutionsComplete(p: Progress)
    requires Inv(Levels, p)
    ensures var r := Run(Levels, p, Solutions(p.currentLevel));
      r.Some? && r.value.currentLevel == |Levels| + 1 && r.value.xp == Reward * |Levels| &&
      Step(Levels, r.value, SubmitQuery("")) == None
    decreases |Levels| + 1 - p.currentLevel
  {
    if p.currentLevel <= |Levels| {
      var answer := Canonical(p.currentLevel, Upper(Levels[p.currentLevel - 1].table)).value;
      EveryLevelWinnable(p.currentLevel);
      SubmitInv(Levels, p, answer);
      var q := Submit(Levels, p, answer);
      assert Solutions(p.currentLevel)[0] == SubmitQuery(answer);
      assert Solutions(p.currentLevel)[1..] == Solutions(q.currentLevel);
      SolutionsComplete(q);
    }
  }

  /** The first quest in lower case: the learner reaches quest 2 and the
      heroes table is unlocked and shown. */
  lemma FirstQuestScenario()
    ensures var r := Submit(Levels, Initial, "select * from heroes");
      r.currentLevel == 2 && r.xp == 50 && IsUnlocked(r.unlockedTables, "heroes") &&
      TableUnlocked("heroes") in SubmitEvents(Levels, Initial, "select * from heroes")
  {
    LowerCaseAccepted();
  }

  /** A doubled space at quest 1 is one failed attempt. */
  lemma DoubleSpaceScenario()
    ensures Submit(Levels, Initial, "SELECT *  FROM heroes") == Initial.(failCount := 1)
  {
    DoubleSpaceRejected();
  }
}
