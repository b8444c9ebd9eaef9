/**
 * The emotion wheel: eight categories in Plutchik order at 45-degree steps,
 * the nearest-angle classifier behind a click, the three intensity bands,
 * the keyword lookup behind a typed word, and the wheel object whose
 * selection and colour table change.
 */
module Wheel {
  import opened Text

  datatype Emotion = Emotion(name: string, color: string, angle: int)

  /** The light-mode table. */
  const LightEmotions: seq<Emotion> := [
    Emotion("Joy", "#FFD700", 0),
    Emotion("Trust", "#90EE90", 45),
    Emotion("Fear", "#2F4F4F", 90),
    Emotion("Surprise", "#87CEEB", 135),
    Emotion("Sadness", "#4169E1", 180),
    Emotion("Disgust", "#9370DB", 225),
    Emotion("Anger", "#DC143C", 270),
    Emotion("Anticipation", "#FF8C00", 315)
  ]

  /** The "X-ray" (dark-mode) table: other colours, same names and angles. */
  const DarkEmotions: seq<Emotion> := [
    Emotion("Joy", "#00FFFF", 0),
    Emotion("Trust", "#00CED1", 45),
    Emotion("Fear", "#008B8B", 90),
    Emotion("Surprise", "#40E0D0", 135),
    Emotion("Sadness", "#4682B4", 180),
    Emotion("Disgust", "#9370DB", 225),
    Emotion("Anger", "#FF1493", 270),
    Emotion("Anticipation", "#00BFFF", 315)
  ]

  /** Two tables list the same names at the same angles in the same order. */
  predicate SameLayout(t: seq<Emotion>, u: seq<Emotion>)
  {
    |t| == |u| && forall i :: 0 <= i < |t| ==> t[i].name == u[i].name && t[i].angle == u[i].angle
  }

  /** A table the wheel can show: one of the two themes. */
  predicate IsThemeTable(t: seq<Emotion>)
  {
    t == LightEmotions || t == DarkEmotions
  }

  lemma ThemesShareLayout(t: seq<Emotion>)
    requires IsThemeTable(t)
    ensures SameLayout(t, LightEmotions) && |t| == 8
    ensures forall i :: 0 <= i < 8 ==> t[i].angle == 45 * i
  {
  }

  // ---------------------------------------------------------------------------
  // Intensity bands
  // ---------------------------------------------------------------------------

  datatype Level = Mild | Moderate | Intense

  /** `getIntensityLevel`: below 0.33 mild, below 0.66 moderate, otherwise intense. */
  function IntensityLevel(intensity: real): (level: Level)
    ensures level == Mild <==> intensity < 0.33
    ensures level == Moderate <==> 0.33 <= intensity < 0.66
    ensures level == Intense <==> 0.66 <= intensity
  {
    if intensity < 0.33 then Mild
    else if intensity < 0.66 then Moderate
    else Intense
  }

  function LevelRank(level: Level): nat
  {
    match level
    case Mild => 0
    case Moderate => 1
    case Intense => 2
  }

  /** A larger intensity never falls in a lower band. */
  lemma IntensityLevelMonotonic(x: real, y: real)
    requires x <= y
    ensures LevelRank(IntensityLevel(x)) <= LevelRank(IntensityLevel(y))
  {
  }

  // ---------------------------------------------------------------------------
  // Circular angle difference
  // ---------------------------------------------------------------------------

  function Abs(x: real): real
  {
    if x < 0.0 then -x else x
  }

  /** `x` is a whole number of turns. */
  predicate IsWholeTurns(x: real)
  {
    (x / 360.0).Floor as real == x / 360.0
  }

  /**
   * `r` is what `angleDifference` gives for the raw difference `d`: congruent
   * to `d` modulo 360, in [-180, 180], equal to `d` when `d` already is, and
   * in (-180, 180] when `d` was too large, in [-180, 180) when it was too small.
   */
  predicate IsWrappedDifference(d: real, r: real)
  {
    && IsWholeTurns(r - d)
    && -180.0 <= r <= 180.0
    && (-180.0 <= d <= 180.0 ==> r == d)
    && (d > 180.0 ==> r > -180.0)
    && (d < -180.0 ==> r < 180.0)
  }

  lemma WholeTurns(k: int)
    ensures IsWholeTurns(360.0 * k as real)
  {
    assert (360.0 * k as real) / 360.0 == k as real;
  }

  /** `angleDifference(angle1, angle2)`: subtract, then wrap by whole turns into [-180, 180]. */
  method AngleDifference(angle1: real, angle2: real) returns (diff: real)
    ensures IsWrappedDifference(angle1 - angle2, diff)
  {
    ghost var d := angle1 - angle2;
    ghost var k: int := 0;
    diff := angle1 - angle2;
    while diff > 180.0
      invariant diff == d - 360.0 * k as real
      invariant k >= 0 && (k > 0 ==> diff > -180.0)
      invariant d <= 180.0 ==> k == 0
      decreases diff.Floor
    {
      diff := diff - 360.0;
      k := k + 1;
    }
    while diff < -180.0
      invariant diff == d - 360.0 * k as real
      invariant d >= -180.0 ==> diff >= -180.0
      invariant -180.0 <= d <= 180.0 ==> k == 0
      invariant d > 180.0 ==> diff > -180.0
      invariant d < -180.0 ==> k <= 0 && diff < 180.0
      decreases (-diff).Floor
    {
      diff := diff + 360.0;
      k := k - 1;
    }
    WholeTurns(-k);
  }

  /** Distance in degrees from `d` to the nearest whole turn: the reference for |angleDifference|. */
  function CircularDistance(d: real): (r: real)
    ensures 0.0 <= r <= 180.0
  {
    var m := d - 360.0 * (d / 360.0).Floor as real;
    if m <= 180.0 then m else 360.0 - m
  }

  /** Whatever the wrapping, the size of the wrapped difference is the circular distance. */
  lemma WrappedSize(d: real, r: real)
    requires IsWrappedDifference(d, r)
    ensures Abs(r) == CircularDistance(d)
  {
    var f := (d / 360.0).Floor;
    var m := d - 360.0 * f as real;
    assert 0.0 <= m < 360.0;
    var n := ((r - d) / 360.0).Floor;
    assert r - d == 360.0 * n as real;
    var j := n + f;
    assert r == m + 360.0 * j as real;
    assert j == 0 || j == -1;
  }

  // ---------------------------------------------------------------------------
  // Nearest-angle classification
  // ---------------------------------------------------------------------------

  /** How far `angle` is from an entry's canonical angle, around the circle. */
  function Distance(angle: real, e: Emotion): real
  {
    CircularDistance(angle - e.angle as real)
  }

  /**
   * Entry `k` is what `getEmotionFromAngle` picks: no entry is closer, and
   * every entry before it is strictly farther (a tie goes to the lower index).
   */
  predicate IsNearest(table: seq<Emotion>, angle: real, k: int)
  {
    && 0 <= k < |table|
    && (forall j :: 0 <= j < |table| ==> Distance(angle, table[k]) <= Distance(angle, table[j]))
    && (forall j :: 0 <= j < k ==> Distance(angle, table[j]) > Distance(angle, table[k]))
  }

  /** The first-closest entry is unique. */
  lemma NearestIsUnique(table: seq<Emotion>, angle: real, k1: int, k2: int)
    requires IsNearest(table, angle, k1) && IsNearest(table, angle, k2)
    ensures k1 == k2
  {
    assert Distance(angle, table[k1]) == Distance(angle, table[k2]);
  }

  /** Classification looks only at the angles, so tables with the same layout agree. */
  lemma NearestDependsOnlyOnAngles(t: seq<Emotion>, u: seq<Emotion>, angle: real, k: int)
    requires SameLayout(t, u)
    ensures IsNearest(t, angle, k) <==> IsNearest(u, angle, k)
  {
    assert forall j :: 0 <= j < |t| ==> Distance(angle, t[j]) == Distance(angle, u[j]);
  }

  /**
   * The sector of the wheel an angle in [0, 360) falls in: each category owns
   * the 45 degrees centred on its angle, a boundary belongs to the lower
   * index, and 337.5 (between Anticipation and Joy) belongs to Joy.
   */
  function Sector(a: real): (i: nat)
    requires 0.0 <= a < 360.0
    ensures i < 8
  {
    if a <= 22.5 then 0
    else if a <= 67.5 then 1
    else if a <= 112.5 then 2
    else if a <= 157.5 then 3
    else if a <= 202.5 then 4
    else if a <= 247.5 then 5
    else if a <= 292.5 then 6
    else if a < 337.5 then 7
    else 0
  }

  /** The circular distance between two angles of [0, 360), without floors. */
  lemma DistanceOnWheel(a: real, c: real)
    requires 0.0 <= a < 360.0 && 0.0 <= c < 360.0
    ensures CircularDistance(a - c) ==
      (if a >= c then (if a - c <= 180.0 then a - c else 360.0 - (a - c))
       else (if c - a <= 180.0 then c - a else 360.0 - (c - a)))
  {
    var d := a - c;
    if d >= 0.0 {
      assert (d / 360.0).Floor == 0;
    } else {
      assert (d / 360.0).Floor == -1;
    }
  }

  /** The entry owning `a`'s sector is no farther than entry `j`, and strictly nearer when `j` comes first. */
  lemma SectorIsCloser(a: real, j: nat)
    requires 0.0 <= a < 360.0 && j < 8
    ensures CircularDistance(a - 45.0 * Sector(a) as real) <= CircularDistance(a - 45.0 * j as real)
    ensures j < Sector(a) ==> CircularDistance(a - 45.0 * j as real) > CircularDistance(a - 45.0 * Sector(a) as real)
  {
    DistanceOnWheel(a, 45.0 * Sector(a) as real);
    DistanceOnWheel(a, 45.0 * j as real);
  }

  /** On either theme's table, the nearest entry to `a` is the one owning `a`'s sector. */
  lemma NearestIsSector(t: seq<Emotion>, a: real)
    requires IsThemeTable(t) && 0.0 <= a < 360.0
    ensures IsNearest(t, a, Sector(a))
  {
    ThemesShareLayout(t);
    forall j | 0 <= j < 8
      ensures Distance(a, t[Sector(a)]) <= Distance(a, t[j])
      ensures j < Sector(a) ==> Distance(a, t[j]) > Distance(a, t[Sector(a)])
    {
      SectorIsCloser(a, j);
    }
  }

  /** The boundary cases: 22.5 is Joy, 202.5 is Sadness, 337.5 is Joy again. */
  lemma TieBreaks(t: seq<Emotion>)
    requires IsThemeTable(t)
    ensures IsNearest(t, 22.5, 0) && t[0].name == "Joy"
    ensures IsNearest(t, 202.5, 4) && t[4].name == "Sadness"
    ensures IsNearest(t, 337.5, 0)
  {
    NearestIsSector(t, 22.5);
    NearestIsSector(t, 202.5);
    NearestIsSector(t, 337.5);
  }

  // ---------------------------------------------------------------------------
  // Word lookup
  // ---------------------------------------------------------------------------

  /** The keyword lists of `mapWordToEmotion`, one per category, in table order. */
  const EmotionMap: seq<(string, seq<string>)> := [
    ("joy", ["joy", "happy", "joyful", "delighted", "cheerful", "pleased", "content", "glad"]),
    ("trust", ["trust", "trusting", "accepting", "secure", "safe", "confident"]),
    ("fear", ["fear", "afraid", "scared", "anxious", "worried", "nervous", "terrified"]),
    ("surprise", ["surprise", "surprised", "amazed", "astonished", "shocked", "startled"]),
    ("sadness", ["sad", "sadness", "unhappy", "depressed", "melancholy", "sorrowful", "gloomy"]),
    ("disgust", ["disgust", "disgusted", "revolted", "repulsed", "aversion"]),
    ("anger", ["anger", "angry", "mad", "furious", "irritated", "annoyed", "frustrated"]),
    ("anticipation", ["anticipation", "excited", "eager", "hopeful", "expectant", "interested"])
  ]

  /** The bidirectional substring test of one keyword. */
  predicate KeywordMatches(word: string, keyword: string)
  {
    Contains(word, keyword) || Contains(keyword, word)
  }

  /** `keywords.some(keyword => word.includes(keyword) || keyword.includes(word))`. */
  predicate AnyKeywordMatches(word: string, keywords: seq<string>)
  {
    |keywords| > 0 && (KeywordMatches(word, keywords[0]) || AnyKeywordMatches(word, keywords[1..]))
  }

  lemma {:induction false} AnyKeywordMatchesIff(word: string, keywords: seq<string>)
    ensures AnyKeywordMatches(word, keywords) <==> exists k :: k in keywords && KeywordMatches(word, k)
  {
    if |keywords| > 0 {
      AnyKeywordMatchesIff(word, keywords[1..]);
      assert forall k :: k in keywords <==> k == keywords[0] || k in keywords[1..];
    }
  }

  /** The index of the first category (in map order) with a matching keyword. */
  function FirstMatchingCategory(word: string, categories: seq<(string, seq<string>)>): (r: Option<nat>)
    ensures r.Some? ==> r.value < |categories|
  {
    if |categories| == 0 then None
    else if AnyKeywordMatches(word, categories[0].1) then Some(0)
    else match FirstMatchingCategory(word, categories[1..])
      case None => None
      case Some(i) => Some(i + 1)
  }

  /**
   * The search finds a category with a matching keyword and none before it,
   * and finds nothing only when no category has one.
   */
  lemma {:induction false} FirstMatchingCategoryIsFirst(word: string, categories: seq<(string, seq<string>)>)
    ensures var r := FirstMatchingCategory(word, categories);
      && (r.Some? ==> AnyKeywordMatches(word, categories[r.value].1)
                      && forall j :: 0 <= j < r.value ==> !AnyKeywordMatches(word, categories[j].1))
      && (r.None? ==> forall j :: 0 <= j < |categories| ==> !AnyKeywordMatches(word, categories[j].1))
  {
    if |categories| > 0 && !AnyKeywordMatches(word, categories[0].1) {
      var rest := categories[1..];
      FirstMatchingCategoryIsFirst(word, rest);
      forall j | 1 <= j < |categories|
        ensures categories[j] == rest[j - 1]
      {
      }
    }
  }

  /** `table.find(e => e.name.toLowerCase() === key)`. */
  function FindByName(table: seq<Emotion>, key: string): (r: Option<Emotion>)
    ensures r.Some? ==> r.value in table && ToLower(r.value.name) == key
    ensures r.None? ==> forall e :: e in table ==> ToLower(e.name) != key
  {
    if |table| == 0 then None
    else if ToLower(table[0].name) == key then Some(table[0])
    else FindByName(table[1..], key)
  }

  /**
   * `mapWordToEmotion(word)` against `table`: lower-case and trim the word,
   * take the first category with a matching keyword and look its entry up by
   * name; with no match at all, the first entry. `None` stands for the
   * `undefined` that `find` gives when a table lacks the name.
   */
  function MapWordToEmotion(table: seq<Emotion>, word: string): Option<Emotion>
    requires |table| > 0
  {
    match FirstMatchingCategory(Trim(ToLower(word)), EmotionMap)
    case Some(i) => FindByName(table, EmotionMap[i].0)
    case None => Some(table[0])
  }

  /**
   * The category a word lands in: the first category in map order with a
   * keyword `k` such that the normalised word contains `k` or `k` contains
   * it, and the first category when there is none.
   */
  function WordCategory(word: string): (i: nat)
    ensures i < 8
  {
    match FirstMatchingCategory(Trim(ToLower(word)), EmotionMap)
    case Some(i) => i
    case None => 0
  }

  /**
   * The category of a word is the first one with a keyword matching the
   * normalised word, and the first category when no keyword matches.
   */
  lemma WordCategoryIsFirstMatch(word: string)
    ensures var w := Trim(ToLower(word)); var i := WordCategory(word);
      && ((exists j :: 0 <= j < |EmotionMap| && AnyKeywordMatches(w, EmotionMap[j].1)) ==>
            AnyKeywordMatches(w, EmotionMap[i].1)
            && forall j :: 0 <= j < i ==> !AnyKeywordMatches(w, EmotionMap[j].1))
      && ((forall j :: 0 <= j < |EmotionMap| ==> !AnyKeywordMatches(w, EmotionMap[j].1)) ==> i == 0)
  {
    FirstMatchingCategoryIsFirst(Trim(ToLower(word)), EmotionMap);
  }

  /** `find` returns the first entry whose lower-cased name is the key. */
  lemma {:induction false} FindByNameFirst(table: seq<Emotion>, key: string, i: nat)
    requires i < |table| && ToLower(table[i].name) == key
    requires forall j :: 0 <= j < i ==> ToLower(table[j].name) != key
    ensures FindByName(table, key) == Some(table[i])
  {
    if i > 0 {
      FindByNameFirst(table[1..], key, i - 1);
    }
  }

  /** Lower-casing either theme's names gives the category keys, in order. */
  lemma ThemeNamesAreKeys(t: seq<Emotion>)
    requires IsThemeTable(t)
    ensures forall j :: 0 <= j < 8 ==> ToLower(t[j].name) == EmotionMap[j].0
  {
    ThemesShareLayout(t);
    assert ToLower("Joy") == "joy";
    assert ToLower("Trust") == "trust";
    assert ToLower("Fear") == "fear";
    assert ToLower("Surprise") == "surprise";
    assert ToLower("Sadness") == "sadness";
    assert ToLower("Disgust") == "disgust";
    assert ToLower("Anger") == "anger";
    assert ToLower("Anticipation") == "anticipation";
  }

  /** No two categories share a key. */
  lemma KeysAreDistinct(i: nat, j: nat)
    requires i < j < 8
    ensures EmotionMap[i].0 != EmotionMap[j].0
  {
    var a, b := EmotionMap[i].0, EmotionMap[j].0;
    assert |a| != |b| || a[0] != b[0];
  }

  /** Each category key names, in lower case, the entry at the same index of either theme. */
  lemma FindCategoryEntry(t: seq<Emotion>, i: nat)
    requires IsThemeTable(t) && i < 8
    ensures FindByName(t, EmotionMap[i].0) == Some(t[i])
  {
    ThemeNamesAreKeys(t);
    forall j | 0 <= j < i
      ensures ToLower(t[j].name) != EmotionMap[i].0
    {
      KeysAreDistinct(j, i);
    }
    FindByNameFirst(t, EmotionMap[i].0, i);
  }

  /** On either theme, a word always finds an entry: the one of its category. */
  lemma MapWordToEmotionIsCategory(t: seq<Emotion>, word: string)
    requires IsThemeTable(t)
    ensures MapWordToEmotion(t, word) == Some(t[WordCategory(word)])
  {
    FindCategoryEntry(t, WordCategory(word));
  }

  /** "unhappy" contains "happy", so it lands in Joy although Sadness lists it. */
  lemma UnhappyIsJoy()
    ensures WordCategory("unhappy") == 0
    ensures "unhappy" in EmotionMap[4].1
  {
    assert Trim(ToLower("unhappy")) == "unhappy";
    assert KeywordMatches("unhappy", "happy");
  }

  /** "  Joyful " is trimmed and lower-cased to "joyful", which lands in Joy, the first category. */
  lemma JoyfulIsJoy()
    ensures WordCategory("  Joyful ") == 0
  {
    var s := ToLower("  Joyful ");
    assert s == "  joyful ";
    assert TrimStart(s) == 2;
    assert IsSpace(s[8]) && !IsSpace(s[7]);
    assert DropTrailingSpaces(s, 2, 8) == 8;
    assert TrimEnd(s) == DropTrailingSpaces(s, 2, 9) == 8;
    assert s[2..8] == "joyful";
    TrimRemovesOnlyEdgeSpaces(s);
    assert KeywordMatches("joyful", "joy");
  }

  // ---------------------------------------------------------------------------
  // The wheel object
  // ---------------------------------------------------------------------------

  /** What a selection hands to its listener. */
  datatype Selection = Selection(emotion: string, angle: real, intensity: real, intensityLevel: Level, color: string)

  /** Where the marker sits: angle in degrees and distance from the centre in pixels. */
  datatype Position = Position(angle: real, distance: real)

  /** The intensity the word path always reports. */
  const WordIntensity: real := 0.66

  /** The word path reports 'moderate' at an intensity the bands call intense. */
  lemma WordIntensityIsBandedIntense()
    ensures IntensityLevel(WordIntensity) == Intense
  {
  }

  class EmotionWheel {
    /** Radius of the wheel in pixels (half the smaller canvas side, less 10). */
    const maxRadius: real
    var emotions: seq<Emotion>
    var selectedPosition: Option<Position>

    ghost predicate Valid()
      reads this
    {
      maxRadius > 0.0 && IsThemeTable(emotions)
    }

    constructor (maxRadius: real)
      requires maxRadius > 0.0
      ensures Valid() && this.maxRadius == maxRadius
      ensures emotions == LightEmotions && selectedPosition == None
    {
      this.maxRadius := maxRadius;
      emotions := LightEmotions;
      selectedPosition := None;
    }

    /** `getEmotionFromAngle`: scan the table, keeping the first entry at the least distance. */
    method GetEmotionFromAngle(angle: real) returns (emotion: Emotion, ghost index: nat)
      requires |emotions| > 0
      ensures IsNearest(emotions, angle, index) && emotion == emotions[index]
    {
      var d0 := AngleDifference(angle, emotions[0].angle as real);
      WrappedSize(angle - emotions[0].angle as real, d0);
      var minDiff := Abs(d0);
      emotion, index := emotions[0], 0;
      for i := 1 to |emotions|
        invariant 0 <= index < i
        invariant emotion == emotions[index] && minDiff == Distance(angle, emotion)
        invariant forall j :: 0 <= j < i ==> minDiff <= Distance(angle, emotions[j])
        invariant forall j :: 0 <= j < index ==> Distance(angle, emotions[j]) > minDiff
      {
        var d := AngleDifference(angle, emotions[i].angle as real);
        WrappedSize(angle - emotions[i].angle as real, d);
        if Abs(d) < minDiff {
          minDiff := Abs(d);
          emotion, index := emotions[i], i;
        }
      }
    }

    /**
     * The click handler, after `atan2` and `sqrt`: `atan2Degrees` is the
     * pointer's angle as `atan2` gives it, in degrees, and `distance` its
     * distance from the centre. Outside the wheel nothing happens; inside,
     * the angle is normalised into [0, 360) and the selection is reported.
     */
    method HandleClick(distance: real, atan2Degrees: real) returns (selected: Option<Selection>)
      requires Valid() && distance >= 0.0 && -180.0 <= atan2Degrees <= 180.0
      modifies this`selectedPosition
      ensures Valid()
      ensures distance > maxRadius ==> selected == None && selectedPosition == old(selectedPosition)
      ensures distance <= maxRadius ==>
        && selected.Some?
        && var s := selected.value;
        && s.angle == (if atan2Degrees < 0.0 then atan2Degrees + 360.0 else atan2Degrees)
        && 0.0 <= s.angle < 360.0
        && s.intensity == distance / maxRadius && 0.0 <= s.intensity <= 1.0
        && s.intensityLevel == IntensityLevel(s.intensity)
        && s.emotion == emotions[Sector(s.angle)].name && s.color == emotions[Sector(s.angle)].color
        && selectedPosition == Some(Position(s.angle, distance))
    {
      if distance > maxRadius {
        return None;
      }
      var angle := atan2Degrees;
      if angle < 0.0 {
        angle := angle + 360.0;
      }
      selectedPosition := Some(Position(angle, distance));
      var intensity := distance / maxRadius;
      var emotion, index := GetEmotionFromAngle(angle);
      NearestIsSector(emotions, angle);
      NearestIsUnique(emotions, angle, index, Sector(angle));
      selected := Some(Selection(emotion.name, angle, intensity, IntensityLevel(intensity), emotion.color));
    }

    /**
     * `selectByWord`: the word's entry at its canonical angle, always at
     * intensity 0.66 labelled 'moderate'; the marker moves there.
     */
    method SelectByWord(word: string) returns (selection: Selection)
      requires Valid()
      modifies this`selectedPosition
      ensures Valid()
      ensures var e := emotions[WordCategory(word)];
        && selection == Selection(e.name, e.angle as real, WordIntensity, Moderate, e.color)
        && selectedPosition == Some(Position(e.angle as real, maxRadius * WordIntensity))
    {
      MapWordToEmotionIsCategory(emotions, word);
      var emotion := MapWordToEmotion(emotions, word).value;
      selectedPosition := Some(Position(emotion.angle as real, maxRadius * WordIntensity));
      selection := Selection(emotion.name, emotion.angle as real, WordIntensity, Moderate, emotion.color);
    }

    /** `reset`: no marker. */
    method Reset()
      modifies this`selectedPosition
      ensures selectedPosition == None
    {
      selectedPosition := None;
    }

    /** `updateTheme`: the dark table in dark mode, the light one otherwise. */
    method UpdateTheme(isDark: bool)
      requires Valid()
      modifies this`emotions
      ensures Valid() && SameLayout(emotions, old(emotions))
      ensures emotions == if isDark then DarkEmotions else LightEmotions
    {
      emotions := if isDark then DarkEmotions else LightEmotions;
    }
  }
}
