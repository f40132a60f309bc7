/** The level content the game reads and the query validator `parseSQL`. */
module Quest {
  import opened Ascii

  datatype Option<T> = None | Some(value: T)

  /** One quest descriptor of the `levels` table. */
  datatype Level = Level(level: int, concept: string, table: string, task: string)

  /** The seven quests, in play order. */
  const Levels: seq<Level> := [
    Level(1, "SELECT basics", "heroes", "Retrieve all records from heroes"),
    Level(2, "WHERE clause", "monsters", "Retrieve monsters with hp > 40"),
    Level(3, "ORDER BY", "heroes", "Retrieve all heroes ordered by hp descending"),
    Level(4, "Aggregate functions", "heroes", "Count the number of heroes"),
    Level(5, "GROUP BY", "items", "Group items by name and count them"),
    Level(6, "JOIN operations", "heroes", "Join heroes and items on id"),
    Level(7, "Complex query", "monsters", "Select monsters with hp < 50 and name starting with 'G'")
  ]

  /** The quests are numbered 1, 2, ... in table order. */
  lemma LevelsNumbered()
    ensures forall i :: 0 <= i < |Levels| ==> Levels[i].level == i + 1
  {
  }

  /** The literal answer of level 6, written as three pieces so that facts
      about its characters can be proved piece by piece. */
  const JoinAnswer: string :=
    "SELECT HEROES.ID, HEROES.NAME, " + "ITEMS.NAME FROM HEROES JOIN " + "ITEMS ON HEROES.ID = ITEMS.ID"

  /** The text before the table name in the answer of each level that embeds it. */
  function Prefix(current: int): string {
    if current == 4 then "SELECT COUNT(*) FROM "
    else if current == 5 then "SELECT NAME, COUNT(*) FROM "
    else "SELECT * FROM "
  }

  /** The text after the table name in the answer of each level that embeds it. */
  function Suffix(current: int): string {
    if current == 2 then " WHERE HP > 40"
    else if current == 3 then " ORDER BY HP DESC"
    else if current == 5 then " GROUP BY NAME"
    else if current == 7 then " WHERE HP < 50 AND NAME LIKE 'G%'"
    else ""
  }

  /** The one accepted (normalized) query at game level `current`, given the
      upper-cased name of that level's table; levels outside 1..7 have none.
      Level 6 is a fixed join of HEROES and ITEMS that ignores `table`; every
      other level puts `table` between its prefix and suffix. */
  function Canonical(current: int, table: string): (r: Option<string>)
    ensures r.Some? <==> 1 <= current <= 7
    ensures r.Some? ==> |r.value| > 0 && r.value[0] == 'S'
  {
    if current == 6 then Some(JoinAnswer)
    else if 1 <= current <= 7 then Some(Prefix(current) + table + Suffix(current))
    else None
  }

  /** `parseSQL`: the trimmed, upper-cased query must equal the canonical
      answer of the current level, built from that level's table name. The
      source reads `levels[currentLevel - 1]` before comparing, which throws
      outside the table, hence the precondition. */
  function ParseSql(query: string, current: int, levels: seq<Level>): bool
    requires 1 <= current <= |levels|
  {
    var expected := Canonical(current, Upper(levels[current - 1].table));
    expected.Some? && Normalize(query) == expected.value
  }

  /** Every level except 6 embeds its table name: two different table names
      give two different answers. */
  lemma CanonicalDependsOnTable(current: int, t1: string, t2: string)
    requires 1 <= current <= 7 && current != 6
    requires t1 != t2
    ensures Canonical(current, t1) != Canonical(current, t2)
  {
    var pre, post := Prefix(current), Suffix(current);
    var s1, s2 := pre + t1 + post, pre + t2 + post;
    assert s1[|pre|..|pre| + |t1|] == t1;
    if |t1| == |t2| {
      assert s2[|pre|..|pre| + |t2|] == t2;
    }
    assert s1 != s2;
  }

  /** Level 6's answer does not depend on the table field of its level. */
  lemma JoinIgnoresTable(t1: string, t2: string)
    ensures Canonical(6, t1) == Canonical(6, t2)
  {
  }

  /** The verdict depends on the input only through `trim().toUpperCase()`:
      whitespace padding and letter case make no difference. */
  lemma ParseSqlIgnoresCaseAndPadding(p: string, a: string, q: string, b: string, current: int, levels: seq<Level>)
    requires 1 <= current <= |levels|
    requires AllWhitespace(p) && AllWhitespace(q) && Upper(a) == Upper(b)
    ensures ParseSql(p + a + q, current, levels) == ParseSql(b, current, levels)
  {
    NormalizeIgnoresCaseAndPadding(p, a, q, b);
  }

  /** At most one normalized input is accepted at each level. */
  lemma ParseSqlAtMostOne(q1: string, q2: string, current: int, levels: seq<Level>)
    requires 1 <= current <= |levels|
    requires ParseSql(q1, current, levels) && ParseSql(q2, current, levels)
    ensures Normalize(q1) == Normalize(q2)
  {
  }

  /** Empty or whitespace-only input is rejected at every level. */
  lemma ParseSqlRejectsBlank(query: string, current: int, levels: seq<Level>)
    requires 1 <= current <= |levels|
    requires AllWhitespace(query)
    ensures !ParseSql(query, current, levels)
  {
    NormalizeBlank(query);
  }

  /** Beyond level 7 nothing is accepted, whatever the levels table holds. */
  lemma ParseSqlRejectsPastSeven(query: string, current: int, levels: seq<Level>)
    requires 7 < current <= |levels|
    ensures !ParseSql(query, current, levels)
  {
  }

  /** At level 6 the verdict is the same whatever the level's table field says. */
  lemma ParseSqlJoinIgnoresTable(query: string, l1: seq<Level>, l2: seq<Level>)
    requires 6 <= |l1| && 6 <= |l2|
    ensures ParseSql(query, 6, l1) == ParseSql(query, 6, l2)
  {
    JoinIgnoresTable(Upper(l1[5].table), Upper(l2[5].table));
  }

  /** At the other levels an answer accepted for one table name is rejected
      for a table name with a different upper-case form. */
  lemma ParseSqlDependsOnTable(query: string, current: int, l1: seq<Level>, l2: seq<Level>)
    requires 1 <= current <= 7 && current != 6
    requires current <= |l1| && current <= |l2|
    requires Upper(l1[current - 1].table) != Upper(l2[current - 1].table)
    requires ParseSql(query, current, l1)
    ensures !ParseSql(query, current, l2)
  {
    CanonicalDependsOnTable(current, Upper(l1[current - 1].table), Upper(l2[current - 1].table));
  }

  /** The canonical answer itself is accepted when the table name is
      non-empty and does not end in whitespace (levels 1 and 4 end with it). */
  lemma ParseSqlAcceptsCanonical(current: int, levels: seq<Level>)
    requires 1 <= current <= 7 && current <= |levels|
    requires var t := levels[current - 1].table; t != [] && !IsWhitespace(t[|t| - 1])
    ensures var c := Canonical(current, Upper(levels[current - 1].table));
      c.Some? && ParseSql(c.value, current, levels)
  {
    UpperIdempotent(levels[current - 1].table);
    UpperKeepsWhitespace(levels[current - 1].table);
    var t := Upper(levels[current - 1].table);
    CanonicalNormalized(current, t);
    NormalizeFixpoint(Canonical(current, t).value);
  }

  lemma NoLowerConcat(a: string, b: string)
    requires NoLower(a) && NoLower(b)
    ensures NoLower(a + b)
  {
    assert forall i :: 0 <= i < |a + b| ==> (a + b)[i] == if i < |a| then a[i] else b[i - |a|];
  }

  // The fixed parts of the answers have no lower-case letters; one lemma
  // per literal keeps each proof small.
  lemma SelectAllNoLower() ensures NoLower("SELECT * FROM ") { }
  lemma SelectCountNoLower() ensures NoLower("SELECT COUNT(*) FROM ") { }
  lemma SelectNameCountNoLower() ensures NoLower("SELECT NAME, COUNT(*) FROM ") { }
  lemma WhereAboveNoLower() ensures NoLower(" WHERE HP > 40") { }
  lemma OrderByNoLower() ensures NoLower(" ORDER BY HP DESC") { }
  lemma GroupByNoLower() ensures NoLower(" GROUP BY NAME") { }
  lemma WhereLikeNoLower() ensures NoLower(" WHERE HP < 50 AND NAME LIKE 'G%'") { }
  lemma JoinSelectNoLower() ensures NoLower("SELECT HEROES.ID, HEROES.NAME, ") { }
  lemma JoinFromNoLower() ensures NoLower("ITEMS.NAME FROM HEROES JOIN ") { }
  lemma JoinOnNoLower() ensures NoLower("ITEMS ON HEROES.ID = ITEMS.ID") { }

  lemma TemplateNoLower(current: int)
    ensures NoLower(Prefix(current)) && NoLower(Suffix(current))
  {
    SelectAllNoLower();
    assert NoLower("");
    if current == 2 {
      WhereAboveNoLower();
    } else if current == 3 {
      OrderByNoLower();
    } else if current == 4 {
      SelectCountNoLower();
    } else if current == 5 {
      SelectNameCountNoLower();
      GroupByNoLower();
    } else if current == 7 {
      WhereLikeNoLower();
    }
  }

  /** The canonical answers are in normalized form, provided the table name is. */
  lemma CanonicalNormalized(current: int, t: string)
    requires 1 <= current <= 7
    requires NoLower(t) && t != [] && !IsWhitespace(t[|t| - 1])
    ensures IsTrimmed(Canonical(current, t).value) && NoLower(Canonical(current, t).value)
  {
    if current == 6 {
      var a, b, c := "SELECT HEROES.ID, HEROES.NAME, ", "ITEMS.NAME FROM HEROES JOIN ", "ITEMS ON HEROES.ID = ITEMS.ID";
      JoinSelectNoLower();
      JoinFromNoLower();
      JoinOnNoLower();
      NoLowerConcat(a, b);
      NoLowerConcat(a + b, c);
    } else {
      var pre, post := Prefix(current), Suffix(current);
      TemplateNoLower(current);
      NoLowerConcat(pre, t);
      NoLowerConcat(pre + t, post);
    }
  }

  /** Every one of the seven quests can be won. */
  lemma EveryLevelWinnable(current: int)
    requires 1 <= current <= |Levels|
    ensures ParseSql(Canonical(current, Upper(Levels[current - 1].table)).value, current, Levels)
  {
    ParseSqlAcceptsCanonical(current, Levels);
  }

  /** At level 1, a trimmed query whose upper case is `SELECT * FROM `
      followed by the upper-cased table name is accepted. */
  lemma FirstLevelAccepts(lo: string, table: string, levels: seq<Level>)
    requires 1 <= |levels| && levels[0].table == table
    requires Upper(lo) == "SELECT * FROM " && IsTrimmed(lo + table)
    ensures ParseSql(lo + table, 1, levels)
  {
    assert [] + (lo + table) + [] == lo + table;
    TrimOfPadded([], lo + table, []);
    UpperConcat(lo, table);
    var t := Upper(table);
    assert Canonical(1, t) == Some(Prefix(1) + t + Suffix(1));
    assert Prefix(1) + t + Suffix(1) == Upper(lo) + t;
  }

  /** At level 1, a trimmed query whose length differs from the canonical
      answer's is rejected. */
  lemma FirstLevelRejectsLength(query: string, levels: seq<Level>)
    requires 1 <= |levels| && IsTrimmed(query)
    requires |query| != 14 + |levels[0].table|
    ensures !ParseSql(query, 1, levels)
  {
    assert [] + query + [] == query;
    TrimOfPadded([], query, []);
    var n := Normalize(query);
    assert |n| == |query|;
    var t := Upper(levels[0].table);
    var c := Prefix(1) + t + Suffix(1);
    assert Canonical(1, t) == Some(c);
    assert |Prefix(1)| == 14 && |Suffix(1)| == 0 && |t| == |levels[0].table|;
    assert |n| != |c|;
  }

  lemma FirstTable()
    ensures Levels[0].table == "heroes"
  {
  }

  lemma LowerCaseText()
    ensures "select * from heroes" == "select * from " + "heroes"
    ensures Upper("select * from ") == "SELECT * FROM "
    ensures IsTrimmed("select * from heroes")
  {
  }

  lemma DoubleSpaceText()
    ensures IsTrimmed("SELECT *  FROM heroes") && |"SELECT *  FROM heroes"| == 21
  {
  }

  /** `select * from heroes` in lower case is accepted at level 1. */
  lemma LowerCaseAccepted()
    ensures ParseSql("select * from heroes", 1, Levels)
  {
    FirstTable();
    LowerCaseText();
    FirstLevelAccepts("select * from ", "heroes", Levels);
  }

  /** A doubled space inside the query is not collapsed, so it is rejected. */
  lemma DoubleSpaceRejected()
    ensures !ParseSql("SELECT *  FROM heroes", 1, Levels)
  {
    FirstTable();
    DoubleSpaceText();
    FirstLevelRejectsLength("SELECT *  FROM heroes", Levels);
  }
}
