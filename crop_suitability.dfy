/**
 * The crop view's decision logic (src/components/CropRecommendations.tsx):
 * three threshold chains over the suitability score that share the cut-offs
 * 90, 75 and 60, and the language-dependent choice of the crop's name.
 */
module CropSuitability {
  import opened Domain

  /** The suitability levels, from least to most recommended. */
  datatype Level = LowRecommended | Moderate | Recommended | HighlyRecommended

  /** Position of a level; a higher rank is a stronger recommendation. */
  function Rank(l: Level): nat
  {
    match l
    case LowRecommended => 0
    case Moderate => 1
    case Recommended => 2
    case HighlyRecommended => 3
  }

  /** Whether a score reaches a level's cut-off; the lowest level has none. */
  predicate Reaches(score: real, l: Level)
  {
    match l
    case HighlyRecommended => score >= 90.0
    case Recommended => score >= 75.0
    case Moderate => score >= 60.0
    case LowRecommended => true
  }

  /** `getSuitabilityLevel(score)`: the strongest level whose cut-off the score reaches. */
  function SuitabilityLevel(score: real): (l: Level)
    ensures Reaches(score, l)
    ensures forall m: Level :: Rank(m) > Rank(l) ==> !Reaches(score, m)
  {
    if score >= 90.0 then HighlyRecommended
    else if score >= 75.0 then Recommended
    else if score >= 60.0 then Moderate
    else LowRecommended
  }

  /** A higher score never gives a weaker level. */
  lemma LevelMonotone(s1: real, s2: real)
    requires s1 <= s2
    ensures Rank(SuitabilityLevel(s1)) <= Rank(SuitabilityLevel(s2))
  {
  }

  /** The cut-offs are inclusive: each boundary score lands in the upper level. */
  lemma LevelBoundaries()
    ensures SuitabilityLevel(90.0) == HighlyRecommended && SuitabilityLevel(89.0) == Recommended
    ensures SuitabilityLevel(75.0) == Recommended && SuitabilityLevel(74.0) == Moderate
    ensures SuitabilityLevel(60.0) == Moderate && SuitabilityLevel(59.0) == LowRecommended
    ensures SuitabilityLevel(0.0) == LowRecommended && SuitabilityLevel(100.0) == HighlyRecommended
  {
  }

  /** The progress-bar colour of each level. */
  function LevelColor(l: Level): string
  {
    match l
    case HighlyRecommended => "bg-green-500"
    case Recommended => "bg-blue-500"
    case Moderate => "bg-yellow-500"
    case LowRecommended => "bg-red-500"
  }

  /** The badge variant of each level. */
  function LevelBadge(l: Level): string
  {
    match l
    case HighlyRecommended => "default"
    case Recommended => "secondary"
    case Moderate => "outline"
    case LowRecommended => "destructive"
  }

  /** `getSuitabilityColor(score)`: its own threshold chain, which agrees with the level. */
  function SuitabilityColor(score: real): (c: string)
    ensures c == LevelColor(SuitabilityLevel(score))
  {
    if score >= 90.0 then "bg-green-500"
    else if score >= 75.0 then "bg-blue-500"
    else if score >= 60.0 then "bg-yellow-500"
    else "bg-red-500"
  }

  /** `getBadgeVariant(score)`: its own threshold chain, which agrees with the level. */
  function BadgeVariant(score: real): (v: string)
    ensures v == LevelBadge(SuitabilityLevel(score))
  {
    if score >= 90.0 then "default"
    else if score >= 75.0 then "secondary"
    else if score >= 60.0 then "outline"
    else "destructive"
  }

  /** Colour and badge each tell the four levels apart, so both determine the level. */
  lemma ColourAndBadgeDetermineLevel(l: Level, m: Level)
    ensures LevelColor(l) == LevelColor(m) ==> l == m
    ensures LevelBadge(l) == LevelBadge(m) ==> l == m
  {
  }

  /** The crop name shown on a card and spoken in its summary. */
  function CropName(lang: Language, crop: CropRecommendation): (n: string)
    ensures lang == Hi ==> n == crop.nameHindi
    ensures lang != Hi ==> n == crop.name
  {
    if lang == Hi then crop.nameHindi else crop.name
  }

  /** The line under a card's heading: the English name, shown only in Hindi mode. */
  function Subtitle(lang: Language, crop: CropRecommendation): (line: Option<string>)
    ensures line != None <==> lang == Hi
    ensures line != None ==> line.value == crop.name
  {
    if lang == Hi then Some(crop.name) else None
  }

  /**
   * Every card shows the English name, as its heading or as its subtitle;
   * a Hindi card shows both names.
   */
  lemma EnglishNameAlwaysShown(lang: Language, crop: CropRecommendation)
    ensures CropName(lang, crop) == crop.name || Subtitle(lang, crop) == Some(crop.name)
    ensures lang == Hi ==> CropName(lang, crop) == crop.nameHindi && Subtitle(lang, crop) == Some(crop.name)
  {
  }

  /** The headings of all cards, in display order. */
  function DisplayedNames(lang: Language, crops: seq<CropRecommendation>): (names: seq<string>)
    ensures |names| == |crops|
    ensures forall i :: 0 <= i < |crops| ==> names[i] == CropName(lang, crops[i])
  {
    if crops == [] then [] else [CropName(lang, crops[0])] + DisplayedNames(lang, crops[1..])
  }

  /**
   * The card headings depend on the language only through whether it is
   * Hindi: switching Hindi -> English -> Hindi restores every heading.
   */
  lemma NamesFollowLanguage(l1: Language, l2: Language, crops: seq<CropRecommendation>)
    requires (l1 == Hi) == (l2 == Hi)
    ensures DisplayedNames(l1, crops) == DisplayedNames(l2, crops)
  {
  }
}
