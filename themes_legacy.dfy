/**
 * The themes of the original browser client. Their rank tables are the
 * React client's, but the active theme is a single piece of page state that
 * applyTheme replaces and the lookups read. The CSS variables, terminology
 * labels and the DOM updates of applyTheme are not modelled.
 */
module LegacyThemes {
  import opened Wrappers
  import Text
  import RankScan
  import Config
  import Themes

  type Rank = Themes.Rank

  /** A theme of this client: its id, display name, ranks and whether getSpriteUrl yields PokeAPI images. */
  datatype LegacyTheme = LegacyTheme(id: string, name: string, ranks: seq<Rank>, sprites: Themes.Sprites)

  // pokemon
  const PokemonRanks: seq<Rank> := [
    Themes.Rank(1, 0, "Rookie Trainer", Some(1), "Bulbasaur"),
    Themes.Rank(3, 150, "Bug Catcher", Some(10), "Caterpie"),
    Themes.Rank(5, 400, "Pok\U{E9}mon Ranger", Some(2), "Ivysaur"),
    Themes.Rank(8, 800, "Pok\U{E9}mon Breeder", Some(5), "Charmeleon"),
    Themes.Rank(12, 1500, "Ace Trainer", Some(8), "Wartortle"),
    Themes.Rank(18, 3000, "Gym Challenger", Some(25), "Pikachu"),
    Themes.Rank(25, 5500, "Gym Leader", Some(3), "Venusaur"),
    Themes.Rank(35, 10000, "Elite Four", Some(6), "Charizard"),
    Themes.Rank(50, 20000, "Champion", Some(9), "Blastoise"),
    Themes.Rank(75, 40000, "Pok\U{E9}mon Master", Some(150), "Mewtwo"),
    Themes.Rank(100, 75000, "Legendary Trainer", Some(493), "Arceus")
  ]
  // bollywood
  const BollywoodRanks: seq<Rank> := [
    Themes.Rank(1, 0, "Junior Artist", None, "\U{1F3AD}"),
    Themes.Rank(3, 150, "Character Actor", None, "\U{1F3AA}"),
    Themes.Rank(5, 400, "Supporting Role", None, "\U{1F3AC}"),
    Themes.Rank(8, 800, "Leading Role", None, "\U{1F31F}"),
    Themes.Rank(12, 1500, "Rising Star", None, "\U{2B50}"),
    Themes.Rank(18, 3000, "Superstar", None, "\U{1F525}"),
    Themes.Rank(25, 5500, "Megastar", None, "\U{1F4AB}"),
    Themes.Rank(35, 10000, "Blockbuster King", None, "\U{1F451}"),
    Themes.Rank(50, 20000, "National Award", None, "\U{1F3C6}"),
    Themes.Rank(75, 40000, "Bollywood Legend", None, "\U{1F396}\U{FE0F}"),
    Themes.Rank(100, 75000, "Eternal Icon", None, "\U{1F320}")
  ]
  // cricket
  const CricketRanks: seq<Rank> := [
    Themes.Rank(1, 0, "Net Bowler", None, "\U{1F3CF}"),
    Themes.Rank(3, 150, "Debutant", None, "\U{1F9E2}"),
    Themes.Rank(5, 400, "Specialist", None, "\U{1F3DF}\U{FE0F}"),
    Themes.Rank(8, 800, "All-Rounder", None, "\U{26A1}"),
    Themes.Rank(12, 1500, "Match Winner", None, "\U{1F3C5}"),
    Themes.Rank(18, 3000, "Captain", None, "\U{A9}\U{FE0F}"),
    Themes.Rank(25, 5500, "MVP", None, "\U{1F31F}"),
    Themes.Rank(35, 10000, "Orange Cap", None, "\U{1F9E1}"),
    Themes.Rank(50, 20000, "Purple Cap", None, "\U{1F49C}"),
    Themes.Rank(75, 40000, "Cricketing Icon", None, "\U{1F3C6}"),
    Themes.Rank(100, 75000, "Hall of Fame", None, "\U{1F451}")
  ]
  // startup
  const StartupRanks: seq<Rank> := [
    Themes.Rank(1, 0, "Intern", None, "\U{1F4BB}"),
    Themes.Rank(3, 150, "Product Engineer", None, "\U{2699}\U{FE0F}"),
    Themes.Rank(5, 400, "Senior Dev", None, "\U{1F6E0}\U{FE0F}"),
    Themes.Rank(8, 800, "Tech Lead", None, "\U{1F4D0}"),
    Themes.Rank(12, 1500, "VP Engineering", None, "\U{1F4CA}"),
    Themes.Rank(18, 3000, "CTO", None, "\U{1F9E0}"),
    Themes.Rank(25, 5500, "Co-Founder", None, "\U{1F91D}"),
    Themes.Rank(35, 10000, "Unicorn Founder", None, "\U{1F984}"),
    Themes.Rank(50, 20000, "Decacorn", None, "\U{1F48E}"),
    Themes.Rank(75, 40000, "Visionary", None, "\U{1F30D}"),
    Themes.Rank(100, 75000, "Tech Legend", None, "\U{1F3DB}\U{FE0F}")
  ]
  // space
  const SpaceRanks: seq<Rank> := [
    Themes.Rank(1, 0, "Cadet", None, "\U{1F9D1}\U{200D}\U{1F680}"),
    Themes.Rank(3, 150, "Pilot", None, "\U{1F680}"),
    Themes.Rank(5, 400, "Navigator", None, "\U{1F9ED}"),
    Themes.Rank(8, 800, "Commander", None, "\U{2694}\U{FE0F}"),
    Themes.Rank(12, 1500, "Captain", None, "\U{1F6F8}"),
    Themes.Rank(18, 3000, "Admiral", None, "\U{1F396}\U{FE0F}"),
    Themes.Rank(25, 5500, "Fleet Commander", None, "\U{1F31F}"),
    Themes.Rank(35, 10000, "Galactic Voyager", None, "\U{1F30C}"),
    Themes.Rank(50, 20000, "Star Lord", None, "\U{1F4AB}"),
    Themes.Rank(75, 40000, "Space-Time Master", None, "\U{1F573}\U{FE0F}"),
    Themes.Rank(100, 75000, "Cosmic Legend", None, "\U{2728}")
  ]

  const Pokemon := LegacyTheme("pokemon", "Pok\U{E9}mon", PokemonRanks, Themes.PokeApi)
  const Bollywood := LegacyTheme("bollywood", "Bollywood Blockbuster", BollywoodRanks, Themes.NoSprites)
  const Cricket := LegacyTheme("cricket", "Cricket IPL", CricketRanks, Themes.NoSprites)
  const Startup := LegacyTheme("startup", "Startup Unicorn", StartupRanks, Themes.NoSprites)
  const Space := LegacyTheme("space", "Space Explorer", SpaceRanks, Themes.NoSprites)

  const AllThemes: seq<LegacyTheme> := [Pokemon, Bollywood, Cricket, Startup, Space]

  /** THEMES[themeId] || THEMES.pokemon. */
  function ThemeById(id: string): (t: LegacyTheme)
    ensures t in AllThemes
    ensures (exists i :: 0 <= i < |AllThemes| && AllThemes[i].id == id) ==> t.id == id
    ensures (forall i :: 0 <= i < |AllThemes| ==> AllThemes[i].id != id) ==> t == Pokemon
  {
    assert forall i :: 0 <= i < |AllThemes| ==> AllThemes[i].id == Themes.ThemeIds[i];
    AllThemes[Themes.ThemeIndex(id)]
  }

  /** Both clients rank the same xp at the same level, threshold and sprite; only display names may differ. */
  predicate SameRanks(a: seq<Rank>, b: seq<Rank>) {
    |a| == |b| && forall i :: 0 <= i < |a| ==>
      a[i].level == b[i].level && a[i].xp == b[i].xp && a[i].spriteId == b[i].spriteId && a[i].spriteName == b[i].spriteName
  }

  lemma MatchesReactClient()
    ensures SameRanks(Pokemon.ranks, Themes.Pokemon.ranks)
    ensures SameRanks(Bollywood.ranks, Themes.Bollywood.ranks)
    ensures SameRanks(Cricket.ranks, Themes.Cricket.ranks)
    ensures SameRanks(Startup.ranks, Themes.Startup.ranks)
    ensures SameRanks(Space.ranks, Themes.Space.ranks)
  {
  }

  /** Every legacy table has the server's (level, xp) pairs. */
  lemma TablesAgreeWithServer()
    ensures forall t :: t in AllThemes ==> Themes.SameLevels(t.ranks)
  {
    MatchesReactClient();
    Themes.AllTablesAgree();
    assert Themes.SameLevels(Themes.Pokemon.ranks);
    assert Themes.SameLevels(Themes.Bollywood.ranks);
    assert Themes.SameLevels(Themes.Cricket.ranks);
    assert Themes.SameLevels(Themes.Startup.ranks);
    assert Themes.SameLevels(Themes.Space.ranks);
  }

  datatype Sprite = Sprite(url: Option<string>, emoji: Option<string>, isEmoji: bool)

  /** The page's active theme, pokemon until applyTheme picks another. */
  class ThemeState {
    var active: LegacyTheme

    predicate Valid()
      reads this
    {
      active in AllThemes
    }

    constructor ()
      ensures active == Pokemon && Valid()
    {
      active := Pokemon;
    }

    /** applyTheme: the named theme, or pokemon for an unknown id, becomes active and is returned. */
    method ApplyTheme(id: string) returns (t: LegacyTheme)
      modifies this
      ensures t == ThemeById(id) && active == t && Valid()
    {
      t := ThemeById(id);
      active := t;
    }

    /** The rank getThemeRankData returns for xp under the active theme. */
    function RankData(xp: int): Rank
      reads this
      requires Valid()
    {
      Themes.RankFor(active.ranks, xp)
    }

    /** getThemeRankData: the same descending scan as the React client, over the active theme. */
    method GetThemeRankData(xp: int) returns (r: Rank)
      requires Valid()
      ensures r == RankData(xp)
      ensures r.level == Config.LevelFor(xp).level && r.xp == Config.LevelFor(xp).xp
    {
      TablesAgreeWithServer();
      assert Themes.SameLevels(active.ranks);
      var i := RankScan.Scan(Themes.Thresholds(active.ranks), xp);
      r := active.ranks[i];
      assert Themes.Thresholds(active.ranks) == Config.Thresholds();
    }

    /** getThemeSprite: the pokemon theme's image URL, or the rank's emoji. */
    function ThemeSprite(rank: Rank): (s: Sprite)
      reads this
      ensures s.isEmoji <==> active.sprites == Themes.NoSprites
      ensures s.isEmoji ==> s == Sprite(None, Some(rank.spriteName), true)
      ensures !s.isEmoji ==> s.emoji.None? && s.url.Some?
    {
      var tmp := Themes.Theme(active.id, active.name, active.ranks, [], active.sprites);
      var url := Themes.SpriteUrl(tmp, rank.spriteId);
      if url.Some? then Sprite(url, None, false) else Sprite(None, Some(rank.spriteName), true)
    }
  }

  /** Of the five themes only pokemon has sprite images. */
  lemma ImagesOnlyForPokemon(t: LegacyTheme)
    requires t in AllThemes
    ensures t.sprites == Themes.PokeApi <==> t.id == "pokemon"
  {
    assert t == Pokemon || t == Bollywood || t == Cricket || t == Startup || t == Space;
  }

  /** After applyTheme the lookups read the new theme, and only pokemon shows images. */
  lemma ApplyThenLookup(id: string, rank: Rank, xp: int, st: ThemeState)
    requires st.active == ThemeById(id)
    ensures st.Valid()
    ensures st.RankData(xp) == Themes.RankFor(ThemeById(id).ranks, xp)
    ensures !st.ThemeSprite(rank).isEmoji <==> ThemeById(id).id == "pokemon"
  {
    ImagesOnlyForPokemon(ThemeById(id));
  }
}
