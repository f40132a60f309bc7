# SQL Quest RPG — progression model

SQL Quest RPG is a browser mini-game that teaches SQL. The learner types a
query. The game trims it and upper-cases it, then compares it with the single
answer the current quest expects. A correct answer earns 50 experience points
and a player level. It also unlocks a "view" of the quest's table, shows that
whole table, and moves on to the next of the seven quests. A wrong answer or
a hint request adds one to the attempt counter.

This project models that core in Dafny:

- `ascii.dfy` (module `Ascii`): JavaScript's `trim` and `toUpperCase`, over
  ASCII. It proves that padding and letter case do not change the normalized
  form, that trimming is idempotent, and that trimming commutes with
  upper-casing.
- `quest.dfy` (module `Quest`): the `levels` table and `parseSQL`. It contains
  `Canonical`, the one expected answer of each level. It proves which inputs
  are accepted and which are rejected, that level 6 ignores its table field,
  and that every quest can be won.
- `progression.dfy` (module `Progression`): the game state as a value
  (`Progress`). It defines the accept, reject and hint transitions, the log
  events of a submission, and runs of many actions. It proves an invariant
  that holds in every state reachable from the start. It also proves that
  progress and unlock flags are monotone, and that the game can be completed.
- `game.dfy` (module `GameState`): the mutable state the page actually holds.
  `Player` is the `player` object. `Game` holds the module-level
  `currentLevel`, `failCount` and `unlockedTables`. Its methods update these
  in place, in source order. `SubmitQuery` and `ShowHint` tie the new state to
  the pure transition of `Progression` and keep the invariant. `UnlockTable`
  only sets one flag and promises nothing about the invariant. On its own it
  would break the clause "unlocked tables are exactly those of the solved
  levels", because the quest number has not moved yet. It is called only from
  inside `SubmitQuery`, just as `unlockTable` is only called at game.js:234.

`parseSQL` reads the globals `currentLevel` and `levels`. `ParseSql` takes
both as parameters. That makes it possible to state that level 6 does not
depend on the table field. The game itself always passes the real table.

One might expect a submission after the last quest to be a no-op. The code
throws instead: `submitQuery` reads `levels[currentLevel-1].table`
(game.js:224-225), which fails once `currentLevel` is 8. The model follows the
code. Submission requires `1 <= currentLevel <= |levels|`. In a run of
actions, that one throw, a submission past the end, yields `None`.

Two other throws are not mapped to `None`:

- The winning submission at quest 7 also throws, but only at its very end.
  `updateStats()` (game.js:254) reads `levels[7].task` (game.js:54) after
  every state change and every log line. In the model, `Submit`,
  `SubmitQuery` and `Run` return normally there. The state they return is the
  state the page is left in.
- In the browser, a click that throws leaves the state as it was, and later
  clicks still run. A hint is the only action that then changes anything.
  `Run` stops at the first throw instead. No reachable state is lost by this:
  after completion only hints change the state, and
  `HintsRaiseFailCount` describes their effect.

## Model

| member | source | states |
|---|---|---|
| Ascii.LeadingWhitespace | game.js:59 | the count of leading whitespace characters `trim` removes: all of them are whitespace and the next character is not |
| Ascii.TrailingWhitespace | game.js:59 | the count of trailing whitespace characters `trim` removes: all of them are whitespace and the character before them is not |
| Ascii.Trim | game.js:59 | the result starts and ends with a non-whitespace character (or is empty); the input is that result with only whitespace before and after it |
| Ascii.Upper | game.js:59 | `toUpperCase` letter by letter, a–z to A–Z; its properties are stated by `UpperIdempotent`, `UpperKeepsWhitespace` and `TrimUpperCommute` |
| Ascii.Normalize | game.js:59 | `query.trim().toUpperCase()`; its properties are stated by `NormalizeIgnoresCaseAndPadding`, `NormalizeIdempotent`, `NormalizeFixpoint` and `NormalizeBlank` |
| Ascii.TrimOfPadded | game.js:59 | whitespace, then a trimmed core, then whitespace: `trim` returns exactly the core, so the decomposition is unique |
| Ascii.TrimIgnoresPadding | game.js:59 | extra leading or trailing whitespace does not change what `trim` returns |
| Ascii.TrimIdempotent | game.js:59 | trimming twice is trimming once |
| Ascii.UpperIdempotent | game.js:59 | upper-cased text has no lower-case letters left, and upper-casing it again changes nothing |
| Ascii.UpperKeepsWhitespace | game.js:59 | upper-casing maps whitespace to whitespace and nothing else to whitespace |
| Ascii.TrimUpperCommute | game.js:59 | trimming and upper-casing can be done in either order |
| Ascii.NormalizeFixpoint | game.js:59 | a trimmed string without lower-case letters is its own normalized form |
| Ascii.NormalizeIdempotent | game.js:59 | normalizing twice is normalizing once |
| Ascii.NormalizeIgnoresCaseAndPadding | game.js:59 | inputs that differ only in letter case and in leading/trailing whitespace have the same normalized form |
| Ascii.NormalizeBlank | game.js:59 | empty or whitespace-only input normalizes to the empty string |
| Quest.LevelsNumbered | game.js:34-42 | the quest descriptors are numbered 1..7 in table order |
| Quest.Canonical | game.js:61-69 | levels 1..7 each have exactly one expected answer and other levels have none; every answer is non-empty and starts with `S` |
| Quest.CanonicalDependsOnTable | game.js:63-69 | at every level except 6, two different upper-cased table names give two different answers |
| Quest.JoinIgnoresTable | game.js:68 | level 6's answer is the same whatever the level's table name |
| Quest.CanonicalNormalized | game.js:61-69 | every expected answer is already trimmed and upper case, provided the upper-cased table name is non-empty and does not end in whitespace |
| Quest.ParseSql | game.js:58-72 | `parseSQL`: the normalized query must equal the current level's expected answer, built from that level's table; it needs a quest number within the levels table; its properties are stated by the `ParseSql…` lemmas below |
| Quest.ParseSqlIgnoresCaseAndPadding | game.js:58-72 | the verdict depends on the input only through `trim().toUpperCase()`: padding and letter case make no difference |
| Quest.ParseSqlAtMostOne | game.js:63-71 | any two queries accepted at the same level have the same normalized form |
| Quest.ParseSqlRejectsBlank | game.js:59-71 | empty or whitespace-only input is rejected at every level |
| Quest.ParseSqlRejectsPastSeven | game.js:63-71 | at a level above 7 nothing is accepted, whatever the levels table holds |
| Quest.ParseSqlJoinIgnoresTable | game.js:68 | at level 6 the verdict is the same for any two levels tables |
| Quest.ParseSqlDependsOnTable | game.js:60-67 | at the other levels, a query accepted with one table name is rejected with a table name whose upper case differs |
| Quest.ParseSqlAcceptsCanonical | game.js:58-72 | the expected answer is itself accepted, whenever the level's table name is non-empty and does not end in whitespace |
| Quest.EveryLevelWinnable | game.js:34-72 | with the game's own levels, each of the seven quests accepts its canonical answer |
| Quest.FirstLevelAccepts | game.js:63 | at level 1, a trimmed query whose upper case is `SELECT * FROM ` followed by the upper-cased table is accepted |
| Quest.FirstLevelRejectsLength | game.js:63 | at level 1, a trimmed query whose length differs from the expected answer's is rejected |
| Quest.LowerCaseAccepted | game.js:59-63 | `select * from heroes` in lower case is accepted at level 1 |
| Quest.DoubleSpaceRejected | game.js:59-63 | `SELECT *  FROM heroes`, with a doubled space, is rejected at level 1: inner whitespace is not collapsed |
| Progression.Unlock | game.js:206 | after `unlockTable(name)` the flag of `name` is set and every other flag reads as before |
| Progression.IsUnlocked | game.js:233 | the truthiness test `!unlockedTables[name]`: the flag of an own key; every other name reads as locked; used by `Submit`, `SubmitEvents` and `Inv` |
| Progression.Submit | game.js:222-252 | an accepted query adds 50 xp and 1 player level, advances the quest by exactly 1, resets the attempt counter and unlocks the level's table, changing no other flag; a rejected one only adds 1 to the attempt counter; hp never changes |
| Progression.SubmitEventsReport | game.js:228-251 | a rejected query logs exactly the rejection message; an accepted query reports its level first and shows its table; the unlock notice appears exactly when the table was still locked; the congratulation appears exactly when the last quest is solved, and otherwise the next quest's task is logged |
| Progression.SubmitEvents | game.js:228-251 | what a submission logs and renders, in order; its properties are stated by `SubmitEventsReport` |
| Progression.Hint | game.js:86 | `showHint` counts one more attempt and changes nothing else; the effect of many hints is stated by `HintsRaiseFailCount` |
| Progression.InitialInv | game.js:2-11 | the start state satisfies the invariant: player level equals quest number, xp is 50 per solved quest, hp is 100, no table unlocked |
| Progression.SubmitInv | game.js:227-252 | accepted and rejected submissions both keep the invariant, including "unlocked tables are exactly those of the solved levels" |
| Progression.RunInv | game.js:222-256 | every run of submissions and hints that does not throw keeps the invariant |
| Progression.Reachable | game.js:2-11 | every state reachable from the start has player level equal to the quest number, xp 50 per solved quest, hp 100 and quest number within 1..8 |
| Progression.QuestsNeverUnlocked | game.js:150-155 | no reachable state has the `quests` table unlocked, since no level uses it |
| Progression.RunMonotone | game.js:241 | along any run the quest number never decreases, and an unlocked table is never locked again |
| Progression.HintsRaiseFailCount | game.js:85-88 | `n` hint requests in a row raise the attempt counter by exactly `n` and change nothing else |
| Progression.SolutionsComplete | game.js:241-245 | from any reachable state, submitting the remaining expected answers reaches quest 8 with 350 xp; after that, a submission throws |
| Progression.FirstQuestScenario | game.js:227-242 | from the start, `select * from heroes` moves to quest 2 with 50 xp, unlocks `heroes` and logs the unlock |
| Progression.DoubleSpaceScenario | game.js:249-251 | from the start, a doubled-space query leaves the state unchanged except for one counted attempt |
| GameState.Player.constructor | game.js:2-8 | the player starts as "Data Warrior" with 100 hp, 0 xp and level 1 |
| GameState.Game.constructor | game.js:10-11 | the game starts in the start state, which satisfies the invariant |
| GameState.Game.UnlockTable | game.js:205-206 | sets the flag of the named table and changes nothing else in the game state |
| GameState.Game.SubmitQuery | game.js:222-256 | updates the player and module state in place to exactly the pure transition of `Submit`, returns the events of `SubmitEvents`, and keeps the invariant |
| GameState.Game.ShowHint | game.js:85-88 | adds one to the attempt counter, changes nothing else, returns the displayed count and keeps the invariant |
| GameState.PlayFirstQuest | game.js:85-251 | a hint, a rejected query and an accepted one, played through the methods, leave the game at quest 2 with 50 xp, a cleared counter and `heroes` unlocked, still satisfying the invariant |

## Left out

- The first `submitQuery` (game.js:91-111) is not modelled. It is dead code: the later declaration of the same name replaces it when the script is loaded.
- DOM output is not modelled: the text of `log`, `updateStats`, `renderTable` and the button that `unlockTable` creates. Log messages are kept only as abstract `Event` values, without their text.
- Canvas drawing (`renderGame`) and the 100 ms `setInterval` loop are left out. They only read the state.
- The rows of `mockDB` and the `hints` strings are static display data and are left out. `TableShown` names the table whose full contents are shown, since no filtering happens. `ShowHint` returns only the attempt count it displays.
- `trim` and `toUpperCase` are modelled over ASCII only: tab, line feed, vertical tab, form feed, carriage return and space are whitespace, and a–z map to A–Z. Non-ASCII whitespace and case mapping are left out.
- The exceptions after the last quest are left out. A submission then reads past the end of `levels` and throws. The model requires a quest number within the table for that submission, and `Run` yields `None`. The final stats line also throws, because `updateStats` (game.js:54) reads past the end too, including at the end of the winning submission at quest 7. The model returns normally there, with the state the page is left in.
- After the last quest, `showHint` reads an undefined hint text. The model keeps only its counter update.
- The counters are unbounded integers. JavaScript numbers are doubles, which only stop counting exactly after 2^53 attempts.
- The player's unused `inventory` field is left out.
- Progression.IsUnlocked: names inherited from `Object.prototype`, such as `constructor` or `toString`, read as truthy in JavaScript, so `submitQuery` would neither unlock their table nor log the notice, and assigning `__proto__` creates no flag. The model treats every name that is not an own key as locked. No level of the game uses such a name.
