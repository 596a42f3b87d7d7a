/**
 * The themes of the React client: each has an ascending rank table, a list
 * of companion-quote tiers and a sprite source (animated sprites for the
 * pokemon theme, emoji for the others). The rank lookup, the sprite choice,
 * the daily companion quote and the theme-id fallback are modelled; the CSS
 * variables, fonts and terminology, and the DOM updates of applyTheme, are
 * not.
 */
module Themes {
  import opened Wrappers
  import Text
  import RankScan
  import Config

  datatype Rank = Rank(level: int, xp: int, name: string, spriteId: Option<int>, spriteName: string)

  datatype QuoteTier = QuoteTier(minLevel: int, quotes: seq<string>)

  /** Where a theme's sprite images come from: the PokeAPI sprite repository, or nowhere. */
  datatype Sprites = PokeApi | NoSprites

  datatype Theme = Theme(id: string, name: string, ranks: seq<Rank>, quotes: seq<QuoteTier>, sprites: Sprites)

  // pokemon
  const PokemonRanks: seq<Rank> := [
    Rank(1, 0, "Rookie Trainer", Some(1), "Bulbasaur"),
    Rank(3, 150, "Bug Catcher", Some(10), "Caterpie"),
    Rank(5, 400, "Pokemon Ranger", Some(2), "Ivysaur"),
    Rank(8, 800, "Pokemon Breeder", Some(5), "Charmeleon"),
    Rank(12, 1500, "Ace Trainer", Some(8), "Wartortle"),
    Rank(18, 3000, "Gym Challenger", Some(25), "Pikachu"),
    Rank(25, 5500, "Gym Leader", Some(3), "Venusaur"),
    Rank(35, 10000, "Elite Four", Some(6), "Charizard"),
    Rank(50, 20000, "Champion", Some(9), "Blastoise"),
    Rank(75, 40000, "Pokemon Master", Some(150), "Mewtwo"),
    Rank(100, 75000, "Legendary Trainer", Some(493), "Arceus")
  ]
  const PokemonQuotes: seq<QuoteTier> := [
    QuoteTier(1, ["Let's catch some tasks today!", "Every quest starts with a single step!", "Your journey begins now, Trainer!"]),
    QuoteTier(5, ["Evolution is near! Keep grinding!", "That's some Ace Trainer energy!", "The wild quests don't stand a chance!"]),
    QuoteTier(12, ["Gym Leader material right here!", "Your team is getting stronger!", "The Elite Four better watch out!"]),
    QuoteTier(25, ["Champion-level productivity!", "Legendary power detected!", "You're rewriting the Pokedex of success!"]),
    QuoteTier(50, ["A true Pokemon Master walks among us!", "The Hall of Fame awaits!", "Even Mewtwo is impressed!"])
  ]
  // bollywood
  const BollywoodRanks: seq<Rank> := [
    Rank(1, 0, "Junior Artist", None, "\U{1F3AD}"),
    Rank(3, 150, "Character Actor", None, "\U{1F3AA}"),
    Rank(5, 400, "Supporting Role", None, "\U{1F3AC}"),
    Rank(8, 800, "Leading Role", None, "\U{1F31F}"),
    Rank(12, 1500, "Rising Star", None, "\U{2B50}"),
    Rank(18, 3000, "Superstar", None, "\U{1F525}"),
    Rank(25, 5500, "Megastar", None, "\U{1F4AB}"),
    Rank(35, 10000, "Blockbuster King", None, "\U{1F451}"),
    Rank(50, 20000, "National Award", None, "\U{1F3C6}"),
    Rank(75, 40000, "Bollywood Legend", None, "\U{1F396}\U{FE0F}"),
    Rank(100, 75000, "Eternal Icon", None, "\U{1F320}")
  ]
  const BollywoodQuotes: seq<QuoteTier> := [
    QuoteTier(1, ["Lights, camera, action!", "Your blockbuster journey begins!", "Every superstar started as an extra!"]),
    QuoteTier(5, ["The audience is loving this!", "Box office is heating up!", "You've got that star quality!"]),
    QuoteTier(12, ["Filmfare nomination incoming!", "Standing ovation from the crew!", "The sequel is going to be even bigger!"]),
    QuoteTier(25, ["National Award performance!", "Bollywood royalty in the making!", "Your name is on every marquee!"]),
    QuoteTier(50, ["You ARE the Bollywood legend!", "A hundred crore productivity!", "The industry bows to the icon!"])
  ]
  // cricket
  const CricketRanks: seq<Rank> := [
    Rank(1, 0, "Net Bowler", None, "\U{1F3CF}"),
    Rank(3, 150, "Debutant", None, "\U{1F9E2}"),
    Rank(5, 400, "Specialist", None, "\U{1F3DF}\U{FE0F}"),
    Rank(8, 800, "All-Rounder", None, "\U{26A1}"),
    Rank(12, 1500, "Match Winner", None, "\U{1F3C5}"),
    Rank(18, 3000, "Captain", None, "\U{A9}\U{FE0F}"),
    Rank(25, 5500, "MVP", None, "\U{1F31F}"),
    Rank(35, 10000, "Orange Cap", None, "\U{1F9E1}"),
    Rank(50, 20000, "Purple Cap", None, "\U{1F49C}"),
    Rank(75, 40000, "Cricketing Icon", None, "\U{1F3C6}"),
    Rank(100, 75000, "Hall of Fame", None, "\U{1F451}")
  ]
  const CricketQuotes: seq<QuoteTier> := [
    QuoteTier(1, ["New innings, new opportunities!", "Let's build a partnership!", "Every run counts in this match!"]),
    QuoteTier(5, ["What a shot! Straight to the boundary!", "The powerplay is ON!", "That's some Captain's knock energy!"]),
    QuoteTier(12, ["The stadium is roaring!", "Orange Cap contender right here!", "Playing like a true all-rounder!"]),
    QuoteTier(25, ["MVP of the tournament!", "That's a match-winning century!", "The dugout is on their feet!"]),
    QuoteTier(50, ["Hall of Fame cricketer!", "A legacy that echoes through stadiums!", "The GOAT of productivity cricket!"])
  ]
  // startup
  const StartupRanks: seq<Rank> := [
    Rank(1, 0, "Intern", None, "\U{1F4BB}"),
    Rank(3, 150, "Product Engineer", None, "\U{2699}\U{FE0F}"),
    Rank(5, 400, "Senior Dev", None, "\U{1F6E0}\U{FE0F}"),
    Rank(8, 800, "Tech Lead", None, "\U{1F4D0}"),
    Rank(12, 1500, "VP Engineering", None, "\U{1F4CA}"),
    Rank(18, 3000, "CTO", None, "\U{1F9E0}"),
    Rank(25, 5500, "Co-Founder", None, "\U{1F91D}"),
    Rank(35, 10000, "Unicorn Founder", None, "\U{1F984}"),
    Rank(50, 20000, "Decacorn", None, "\U{1F48E}"),
    Rank(75, 40000, "Visionary", None, "\U{1F30D}"),
    Rank(100, 75000, "Tech Legend", None, "\U{1F3DB}\U{FE0F}")
  ]
  const StartupQuotes: seq<QuoteTier> := [
    QuoteTier(1, ["Ship it! Move fast, break things!", "Day one energy! Let's build!", "The MVP is taking shape!"]),
    QuoteTier(5, ["Series A energy right here!", "Product-market fit detected!", "The growth metrics are fire!"]),
    QuoteTier(12, ["Unicorn trajectory confirmed!", "YC would fund this hustle!", "10x engineer productivity!"]),
    QuoteTier(25, ["Decacorn status unlocked!", "The board is impressed!", "IPO-ready performance!"]),
    QuoteTier(50, ["Tech legend in the making!", "You've disrupted the industry!", "The next chapter of Silicon Valley!"])
  ]
  // space
  const SpaceRanks: seq<Rank> := [
    Rank(1, 0, "Cadet", None, "\U{1F9D1}\U{200D}\U{1F680}"),
    Rank(3, 150, "Pilot", None, "\U{1F680}"),
    Rank(5, 400, "Navigator", None, "\U{1F9ED}"),
    Rank(8, 800, "Commander", None, "\U{2694}\U{FE0F}"),
    Rank(12, 1500, "Captain", None, "\U{1F6F8}"),
    Rank(18, 3000, "Admiral", None, "\U{1F396}\U{FE0F}"),
    Rank(25, 5500, "Fleet Commander", None, "\U{1F31F}"),
    Rank(35, 10000, "Galactic Voyager", None, "\U{1F30C}"),
    Rank(50, 20000, "Star Lord", None, "\U{1F4AB}"),
    Rank(75, 40000, "Space-Time Master", None, "\U{1F573}\U{FE0F}"),
    Rank(100, 75000, "Cosmic Legend", None, "\U{2728}")
  ]
  const SpaceQuotes: seq<QuoteTier> := [
    QuoteTier(1, ["Initiating launch sequence!", "Charting new stars today!", "All systems nominal, Cadet!"]),
    QuoteTier(5, ["Warp speed ahead!", "Nebula of productivity detected!", "The cosmos awaits your command!"]),
    QuoteTier(12, ["Fleet Commander on the bridge!", "Hyperspace jump successful!", "Starfleet HQ is tracking your progress!"]),
    QuoteTier(25, ["Galactic legend status achieved!", "New star system discovered!", "The universe bends to your will!"]),
    QuoteTier(50, ["Cosmic transcendence unlocked!", "You've mapped the entire galaxy!", "A legend written in the stars!"])
  ]

  const Pokemon := Theme("pokemon", "Pokemon", PokemonRanks, PokemonQuotes, PokeApi)
  const Bollywood := Theme("bollywood", "Bollywood Blockbuster", BollywoodRanks, BollywoodQuotes, NoSprites)
  const Cricket := Theme("cricket", "Cricket IPL", CricketRanks, CricketQuotes, NoSprites)
  const Startup := Theme("startup", "Startup Unicorn", StartupRanks, StartupQuotes, NoSprites)
  const Space := Theme("space", "Space Explorer", SpaceRanks, SpaceQuotes, NoSprites)

  /** The THEMES object, in declaration order; each theme's key is its id. */
  const AllThemes: seq<Theme> := [Pokemon, Bollywood, Cricket, Startup, Space]

  function Thresholds(ranks: seq<Rank>): (t: seq<int>)
    ensures |t| == |ranks| && forall i :: 0 <= i < |ranks| ==> t[i] == ranks[i].xp
  {
    seq(|ranks|, i requires 0 <= i < |ranks| => ranks[i].xp)
  }

  /** Every theme's (level, xp) pairs are those of the server's level table. */
  predicate SameLevels(ranks: seq<Rank>) {
    |ranks| == |Config.Levels|
    && forall i :: 0 <= i < |ranks| ==> ranks[i].level == Config.Levels[i].level && ranks[i].xp == Config.Levels[i].xp
  }

  lemma AllTablesAgree()
    ensures forall t :: t in AllThemes ==> SameLevels(t.ranks)
    ensures forall t :: t in AllThemes ==> Thresholds(t.ranks) == Config.Thresholds()
  {
    PokemonLevels();
    BollywoodLevels();
    CricketLevels();
    StartupLevels();
    SpaceLevels();
    forall t | t in AllThemes ensures Thresholds(t.ranks) == Config.Thresholds() {
      SameThresholds(t.ranks);
    }
  }

  lemma PokemonLevels() ensures SameLevels(PokemonRanks) { }
  lemma BollywoodLevels() ensures SameLevels(BollywoodRanks) { }
  lemma CricketLevels() ensures SameLevels(CricketRanks) { }
  lemma StartupLevels() ensures SameLevels(StartupRanks) { }
  lemma SpaceLevels() ensures SameLevels(SpaceRanks) { }

  lemma SameThresholds(ranks: seq<Rank>)
    requires SameLevels(ranks)
    ensures Thresholds(ranks) == Config.Thresholds()
  {
  }

  /** The (level, xp) pairs ascend strictly from (1, 0) to (100, 75000) in every theme. */
  lemma TablesAscending(t: Theme)
    requires t in AllThemes
    ensures t.ranks[0].level == 1 && t.ranks[0].xp == 0
    ensures t.ranks[|t.ranks| - 1].level == 100 && t.ranks[|t.ranks| - 1].xp == 75000
    ensures forall a, b :: 0 <= a < b < |t.ranks| ==> t.ranks[a].xp < t.ranks[b].xp && t.ranks[a].level < t.ranks[b].level
  {
    AllTablesAgree();
    Config.LevelsAscending();
  }

  /** The rank getRankData returns. */
  function RankFor(ranks: seq<Rank>, xp: int): Rank
    requires |ranks| > 0
  {
    ranks[RankScan.LastAtOrBelow(Thresholds(ranks), xp)]
  }

  /**
   * getRankData: the highest-indexed rank whose threshold xp reaches, or the
   * first rank when xp is below them all.
   */
  method GetRankData(theme: Theme, xp: int) returns (r: Rank)
    requires |theme.ranks| > 0
    ensures r == RankFor(theme.ranks, xp)
    ensures exists i :: (0 <= i < |theme.ranks| && r == theme.ranks[i]
      && (xp >= theme.ranks[i].xp || (i == 0 && forall j :: 0 <= j < |theme.ranks| ==> xp < theme.ranks[j].xp))
      && (forall j :: i < j < |theme.ranks| ==> xp < theme.ranks[j].xp))
  {
    var i := RankScan.Scan(Thresholds(theme.ranks), xp);
    r := theme.ranks[i];
  }

  /** On every theme the client shows the level the server computes for the same xp. */
  lemma RankMatchesServer(t: Theme, xp: int)
    requires t in AllThemes
    ensures RankFor(t.ranks, xp).level == Config.LevelFor(xp).level
    ensures RankFor(t.ranks, xp).xp == Config.LevelFor(xp).xp
  {
    AllTablesAgree();
    assert SameLevels(t.ranks);
  }

  /** JavaScript renders a missing sprite id as null inside a template literal. */
  function IdText(id: Option<int>): string {
    if id.Some? then Text.IntToString(id.value) else "null"
  }

  /** getSpriteUrl: PokeAPI's animated sprite, or null for an emoji theme. */
  function SpriteUrl(theme: Theme, id: Option<int>): (u: Option<string>)
    ensures u.Some? <==> theme.sprites == PokeApi
    ensures u.Some? ==> u.value != []
  {
    match theme.sprites
    case PokeApi => Some("https://raw.githubusercontent.com/PokeAPI/sprites/master/sprites/pokemon/versions/generation-v/black-white/animated/" + IdText(id) + ".gif")
    case NoSprites => None
  }

  /** getSpriteFallback: PokeAPI's still sprite, or null. */
  function SpriteFallback(theme: Theme, id: Option<int>): Option<string> {
    match theme.sprites
    case PokeApi => Some("https://raw.githubusercontent.com/PokeAPI/sprites/master/sprites/pokemon/" + IdText(id) + ".png")
    case NoSprites => None
  }

  datatype Sprite = Sprite(url: Option<string>, fallback: Option<string>, emoji: Option<string>, isEmoji: bool)

  /** getSprite: an image when the theme yields a URL, the rank's emoji otherwise. */
  function GetSprite(theme: Theme, rank: Rank): (s: Sprite)
    ensures s.isEmoji <==> SpriteUrl(theme, rank.spriteId).None?
    ensures !s.isEmoji ==> s.url == SpriteUrl(theme, rank.spriteId) && s.fallback == SpriteFallback(theme, rank.spriteId) && s.emoji.None?
    ensures s.isEmoji ==> s.url.None? && s.fallback.None? && s.emoji == Some(rank.spriteName)
  {
    var url := SpriteUrl(theme, rank.spriteId);
    if url.Some? then Sprite(url, SpriteFallback(theme, rank.spriteId), None, false)
    else Sprite(None, None, Some(rank.spriteName), true)
  }

  /** Only the pokemon theme shows images; every other theme shows the rank's emoji. */
  lemma SpritesByTheme(t: Theme, rank: Rank)
    requires t in AllThemes
    ensures !GetSprite(t, rank).isEmoji <==> t.id == "pokemon"
    ensures t.id != "pokemon" ==> GetSprite(t, rank) == Sprite(None, None, Some(rank.spriteName), true)
  {
    assert t.sprites == PokeApi <==> t.id == "pokemon" by {
      assert t == Pokemon || t == Bollywood || t == Cricket || t == Startup || t == Space;
    }
  }

  function MinLevels(tiers: seq<QuoteTier>): (m: seq<int>)
    ensures |m| == |tiers| && forall i :: 0 <= i < |tiers| ==> m[i] == tiers[i].minLevel
  {
    seq(|tiers|, i requires 0 <= i < |tiers| => tiers[i].minLevel)
  }

  const DefaultQuote := "\"Keep going, Champ!\""

  /** The tier getCompanionQuote settles on: the last one whose minimum level is reached, else the first. */
  function TierFor(tiers: seq<QuoteTier>, level: int): QuoteTier
    requires |tiers| > 0
  {
    tiers[RankScan.LastAtOrBelow(MinLevels(tiers), level)]
  }

  /**
   * The quote of the day: entry dayOfYear mod n of the tier, in double quotes.
   * An empty tier makes the JavaScript index NaN, which reads undefined.
   */
  function QuoteOf(tier: QuoteTier, dayOfYear: nat): string {
    if |tier.quotes| == 0 then "\"undefined\""
    else "\"" + tier.quotes[dayOfYear % |tier.quotes|] + "\""
  }

  function Quote(theme: Theme, level: int, dayOfYear: nat): string {
    if |theme.quotes| == 0 then DefaultQuote else QuoteOf(TierFor(theme.quotes, level), dayOfYear)
  }

  /** getCompanionQuote, with the day of the year passed in. */
  method GetCompanionQuote(theme: Theme, level: int, dayOfYear: nat) returns (q: string)
    ensures q == Quote(theme, level, dayOfYear)
    ensures |theme.quotes| == 0 ==> q == DefaultQuote
  {
    if |theme.quotes| == 0 {
      return DefaultQuote;
    }
    var i := RankScan.Scan(MinLevels(theme.quotes), level);
    var tier := theme.quotes[i];
    if |tier.quotes| == 0 {
      return "\"undefined\"";
    }
    var idx := dayOfYear % |tier.quotes|;
    q := "\"" + tier.quotes[idx] + "\"";
  }

  /** The chosen tier is the last whose minimum level is reached, or the first when none is. */
  lemma TierMeaning(tiers: seq<QuoteTier>, level: int)
    requires |tiers| > 0
    ensures exists i :: (0 <= i < |tiers| && TierFor(tiers, level) == tiers[i]
      && (level >= tiers[i].minLevel || i == 0)
      && (forall j :: i < j < |tiers| ==> level < tiers[j].minLevel))
  {
    var i := RankScan.LastAtOrBelow(MinLevels(tiers), level);
    assert TierFor(tiers, level) == tiers[i];
  }

  /** The quote is one of the tier's entries in double quotes, and the same entry comes back after as many days as the tier has quotes. */
  lemma QuoteOfMeaning(tier: QuoteTier, dayOfYear: nat)
    requires |tier.quotes| > 0
    ensures exists k :: 0 <= k < |tier.quotes| && QuoteOf(tier, dayOfYear) == "\"" + tier.quotes[k] + "\""
    ensures QuoteOf(tier, dayOfYear + |tier.quotes|) == QuoteOf(tier, dayOfYear)
  {
    var n := |tier.quotes|;
    var k := dayOfYear % n;
    assert QuoteOf(tier, dayOfYear) == "\"" + tier.quotes[k] + "\"";
    DayShift(dayOfYear, n);
  }

  lemma DayShift(d: nat, n: nat)
    requires n > 0
    ensures (d + n) % n == d % n
  {
    var q, r := d / n, d % n;
    var q', r' := (d + n) / n, (d + n) % n;
    assert d == q * n + r && d + n == q' * n + r';
    MultipleInRange(q + 1 - q', n, r' - r);
  }

  /** A multiple of n strictly between -n and n is zero. */
  lemma MultipleInRange(c: int, n: int, x: int)
    requires n > 0 && x == c * n && -n < x < n
    ensures c == 0
  {
    if c > 0 {
      MultipleAtLeast(c, n);
    } else if c < 0 {
      MultipleAtLeast(-c, n);
    }
  }

  lemma {:induction false} MultipleAtLeast(c: int, n: int)
    requires c >= 1 && n > 0
    ensures c * n >= n
    decreases c
  {
    if c > 1 {
      MultipleAtLeast(c - 1, n);
      assert c * n == (c - 1) * n + n;
    }
  }

  /** The keys of THEMES, in declaration order; both clients use these. */
  const ThemeIds: seq<string> := ["pokemon", "bollywood", "cricket", "startup", "space"]

  /** The first position of id in ids, or |ids| when it is absent. */
  function FindId(ids: seq<string>, id: string): (i: nat)
    ensures i <= |ids|
    ensures i < |ids| ==> ids[i] == id
    ensures forall k :: 0 <= k < i ==> ids[k] != id
  {
    if ids == [] then 0 else if ids[0] == id then 0 else 1 + FindId(ids[1..], id)
  }

  /** The position THEMES[themeId] || THEMES.pokemon selects: the id's own, or 0 for pokemon. */
  function ThemeIndex(id: string): (i: nat)
    ensures i < |ThemeIds|
    ensures id in ThemeIds ==> ThemeIds[i] == id
    ensures id !in ThemeIds ==> i == 0
  {
    var k := FindId(ThemeIds, id);
    if k < |ThemeIds| then k else 0
  }

  /** THEMES[themeId] || THEMES.pokemon. */
  function ThemeById(id: string): (t: Theme)
    ensures t in AllThemes
    ensures (exists i :: 0 <= i < |AllThemes| && AllThemes[i].id == id) ==> t.id == id
    ensures (forall i :: 0 <= i < |AllThemes| ==> AllThemes[i].id != id) ==> t == Pokemon
  {
    assert forall i :: 0 <= i < |AllThemes| ==> AllThemes[i].id == ThemeIds[i];
    AllThemes[ThemeIndex(id)]
  }

  /** The theme ids are distinct, so a known id selects exactly its own theme. */
  lemma ThemeIdsDistinct()
    ensures forall a, b :: 0 <= a < b < |AllThemes| ==> AllThemes[a].id != AllThemes[b].id
    ensures forall i :: 0 <= i < |AllThemes| ==> ThemeById(AllThemes[i].id) == AllThemes[i]
  {
  }
}
