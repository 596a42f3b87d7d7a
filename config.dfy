/**
 * The reward tables shared by the server: experience points per task
 * priority and the ascending experience-to-level table with its descending
 * lookup. backend/routes/tasks.js carries an identical private copy of both
 * tables and of the lookup; this module models the two together.
 */
module Config {
  import opened Wrappers
  import RankScan

  datatype Level = Level(level: int, xp: int, rank: string, evolution: string)

  /** The XP_VALUES object looked up with a priority string. */
  function XpValue(priority: string): (v: Option<int>)
    ensures v.Some? <==> priority in {"P0", "P1", "P2", "P3"}
    ensures v.Some? ==> v.value in {10, 20, 30, 50}
  {
    if priority == "P0" then Some(50)
    else if priority == "P1" then Some(30)
    else if priority == "P2" then Some(20)
    else if priority == "P3" then Some(10)
    else None
  }

  /** The four entries of XP_VALUES: the more urgent the priority, the more XP. */
  lemma XpValueTable()
    ensures XpValue("P0") == Some(50) && XpValue("P1") == Some(30)
    ensures XpValue("P2") == Some(20) && XpValue("P3") == Some(10)
  {
  }

  const Levels: seq<Level> := [
    Level(1, 0, "Rookie Trainer", "Bulbasaur"),
    Level(3, 150, "Bug Catcher", "Caterpie"),
    Level(5, 400, "Pok\U{E9}mon Ranger", "Ivysaur"),
    Level(8, 800, "Pok\U{E9}mon Breeder", "Charmeleon"),
    Level(12, 1500, "Ace Trainer", "Wartortle"),
    Level(18, 3000, "Gym Challenger", "Pikachu"),
    Level(25, 5500, "Gym Leader", "Venusaur"),
    Level(35, 10000, "Elite Four", "Charizard"),
    Level(50, 20000, "Champion", "Blastoise"),
    Level(75, 40000, "Pok\U{E9}mon Master", "Mewtwo"),
    Level(100, 75000, "Legendary Trainer", "Arceus")
  ]

  function Thresholds(): (t: seq<int>)
    ensures |t| == |Levels|
    ensures forall i :: 0 <= i < |Levels| ==> t[i] == Levels[i].xp
  {
    seq(|Levels|, i requires 0 <= i < |Levels| => Levels[i].xp)
  }

  /** The entry calculateLevel returns, as a value. */
  function LevelFor(xp: int): Level {
    Levels[RankScan.LastAtOrBelow(Thresholds(), xp)]
  }

  /** calculateLevel: the loop over LEVELS from the top entry down. */
  method CalculateLevel(xp: int) returns (e: Level)
    ensures e == LevelFor(xp)
    ensures e in Levels
    ensures xp >= 0 ==> e.xp <= xp
    ensures forall l :: l in Levels && l.xp <= xp ==> l.xp <= e.xp
    ensures xp < 0 ==> e == Levels[0]
  {
    var i := RankScan.Scan(Thresholds(), xp);
    e := Levels[i];
    LevelForIsGreatest(xp);
  }

  /** Thresholds run from 0 to 75000 and levels from 1 to 100, both strictly ascending. */
  lemma LevelsAscending()
    ensures Levels[0].level == 1 && Levels[0].xp == 0
    ensures Levels[|Levels| - 1].level == 100 && Levels[|Levels| - 1].xp == 75000
    ensures forall a, b :: 0 <= a < b < |Levels| ==> Levels[a].xp < Levels[b].xp
    ensures forall a, b :: 0 <= a < b < |Levels| ==> Levels[a].level < Levels[b].level
  {
    assert forall a :: 0 <= a < |Levels| - 1 ==> Levels[a].xp < Levels[a + 1].xp && Levels[a].level < Levels[a + 1].level;
    forall a, b | 0 <= a < b < |Levels| ensures Levels[a].xp < Levels[b].xp && Levels[a].level < Levels[b].level {
      var c := a;
      while c + 1 < b
        invariant a <= c < b
        invariant Levels[a].xp <= Levels[c].xp && Levels[a].level <= Levels[c].level
      {
        c := c + 1;
      }
    }
  }

  /**
   * The entry returned has the greatest threshold at or below xp; below
   * every threshold (negative xp) it is the first entry.
   */
  lemma LevelForIsGreatest(xp: int)
    ensures LevelFor(xp) in Levels
    ensures xp >= 0 ==> LevelFor(xp).xp <= xp
    ensures forall l :: l in Levels && l.xp <= xp ==> l.xp <= LevelFor(xp).xp
    ensures xp < 0 ==> LevelFor(xp) == Levels[0]
  {
    LevelsAscending();
    var t := Thresholds();
    var i := RankScan.LastAtOrBelow(t, xp);
    if xp >= 0 {
      assert t[0] <= xp;
    }
    forall l | l in Levels && l.xp <= xp ensures l.xp <= LevelFor(xp).xp {
      var j :| 0 <= j < |Levels| && Levels[j] == l;
      assert t[j] <= xp;
    }
  }

  lemma LevelMonotone(xp1: int, xp2: int)
    requires xp1 <= xp2
    ensures LevelFor(xp1).level <= LevelFor(xp2).level
  {
    RankScan.ScanMonotone(Thresholds(), xp1, xp2);
    LevelsAscending();
  }

  /** The table saturates: every xp of 75000 or more is level 100. */
  lemma LevelSaturates(xp: int)
    requires xp >= 75000
    ensures LevelFor(xp).level == 100
  {
    assert Thresholds()[|Levels| - 1] == 75000;
  }

  /** Boundary values of the table. */
  lemma LevelExamples()
    ensures LevelFor(0).level == 1 && LevelFor(149).level == 1
    ensures LevelFor(150).level == 3 && LevelFor(75000).level == 100
    ensures LevelFor(100000).level == 100
  {
    LevelsAscending();
    RankScan.BandOf(Thresholds(), 0, 0);
    RankScan.BandOf(Thresholds(), 149, 0);
    RankScan.BandOf(Thresholds(), 150, 1);
    LevelSaturates(75000);
    LevelSaturates(100000);
  }
}
