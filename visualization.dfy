/**
 * The trace view's aggregates over the stored captures: the colour a stored
 * emotion word is drawn in, the per-emotion counts and the most common one,
 * the first and last capture, the average intensity, and the newest-first
 * timeline order. Drawing and HTML are not modelled.
 */
module Visualization {
  import opened Text
  import opened Wheel
  import opened Storage

  /** `emotionColors`, in `Object.entries` order. */
  const EmotionColors: seq<(string, string)> := [
    ("Joy", "#FFD700"),
    ("Trust", "#90EE90"),
    ("Fear", "#2F4F4F"),
    ("Surprise", "#87CEEB"),
    ("Sadness", "#4169E1"),
    ("Disgust", "#9370DB"),
    ("Anger", "#DC143C"),
    ("Anticipation", "#FF8C00")
  ]

  const DefaultColor: string := "#667eea"

  /** The key of entry `i` occurs, ignoring case, in `name`. */
  predicate KeyOccursIn(name: string, i: nat)
    requires i < |EmotionColors|
  {
    Contains(ToLower(name), ToLower(EmotionColors[i].0))
  }

  /** The first entry, from `from` on, whose key occurs in `name`. */
  function FirstKeyIn(name: string, from: nat): (r: Option<nat>)
    requires from <= |EmotionColors|
    ensures r.Some? ==> from <= r.value < |EmotionColors| && KeyOccursIn(name, r.value)
    ensures r.Some? ==> forall j :: from <= j < r.value ==> !KeyOccursIn(name, j)
    ensures r.None? ==> forall j :: from <= j < |EmotionColors| ==> !KeyOccursIn(name, j)
    decreases |EmotionColors| - from
  {
    if from == |EmotionColors| then None
    else if KeyOccursIn(name, from) then Some(from)
    else FirstKeyIn(name, from + 1)
  }

  /**
   * `getEmotionColor`: the colour of the first key, in table order, that
   * occurs in the name ignoring case; the default colour for an empty name
   * or when no key occurs.
   */
  function EmotionColor(name: string): (color: string)
    ensures name == "" ==> color == DefaultColor
    ensures name != "" && FirstKeyIn(name, 0).Some? ==> color == EmotionColors[FirstKeyIn(name, 0).value].1
    ensures (forall j :: 0 <= j < |EmotionColors| ==> !KeyOccursIn(name, j)) ==> color == DefaultColor
  {
    if name == "" then DefaultColor
    else match FirstKeyIn(name, 0)
      case Some(i) => EmotionColors[i].1
      case None => DefaultColor
  }

  /** A category name of the wheel is drawn in that category's light-mode colour. */
  lemma CategoryNamesGetWheelColors(i: nat)
    requires i < 8
    ensures EmotionColor(LightEmotions[i].name) == LightEmotions[i].color
  {
    ThemeNamesAreKeys(LightEmotions);
    var name := LightEmotions[i].name;
    assert ToLower(name) == ToLower(EmotionColors[i].0);
    ContainsBasics(ToLower(name), "");
    forall j | 0 <= j < i
      ensures !KeyOccursIn(name, j)
    {
      KeysAreDistinct(j, i);
      KeyDoesNotOccurInOtherName(j, i);
    }
    assert KeyOccursIn(name, i);
  }

  /** No category name contains another category name, ignoring case. */
  lemma KeyDoesNotOccurInOtherName(j: nat, i: nat)
    requires j < i < 8
    ensures !Contains(ToLower(LightEmotions[i].name), ToLower(EmotionColors[j].0))
  {
    ThemeNamesAreKeys(LightEmotions);
    assert ToLower(EmotionColors[j].0) == EmotionMap[j].0;
    assert ToLower(LightEmotions[i].name) == EmotionMap[i].0;
    NoKeyInLaterKey(j, i);
  }

  /** The category keys, pairwise: an earlier one never occurs in a later one. */
  lemma NoKeyInLaterKey(j: nat, i: nat)
    requires j < i < 8
    ensures !Contains(EmotionMap[i].0, EmotionMap[j].0)
  {
    // A letter of the earlier key that the later key lacks.
    var k := if j == 1 && (i == 5 || i == 7) then 1
      else if j == 3 && i == 4 then 1
      else if j == 3 && i == 5 then 3
      else if j == 4 && i == 5 then 1
      else if j == 6 then 2
      else 0;
    assert k < |EmotionMap[j].0| && EmotionMap[j].0[k] !in EmotionMap[i].0;
    MissingLetter(EmotionMap[i].0, EmotionMap[j].0, k);
  }

  /** A typed word that names no category, such as "happy", is drawn in the default colour. */
  lemma HappyGetsDefaultColor()
    ensures EmotionColor("happy") == DefaultColor
  {
    assert ToLower("happy") == "happy";
    forall j | 0 <= j < |EmotionColors|
      ensures !KeyOccursIn("happy", j)
    {
      ContainsBasics("happy", ToLower(EmotionColors[j].0));
      if j == 0 || j == 2 {
        assert ToLower(EmotionColors[j].0)[0] !in "happy";
        MissingLetter("happy", ToLower(EmotionColors[j].0), 0);
      }
    }
  }

  // ---------------------------------------------------------------------------
  // Statistics
  // ---------------------------------------------------------------------------

  /** The key a capture is counted under: its emotion, or "Unknown" when it has none. */
  function EmotionKey(c: Capture): (key: string)
    ensures key != ""
  {
    if c.emotion == "" then "Unknown" else c.emotion
  }

  /** How many of the captures are counted under `key`. */
  function CountOf(cs: seq<Capture>, key: string): nat
  {
    if cs == [] then 0
    else CountOf(cs[..|cs| - 1], key) + (if EmotionKey(cs[|cs| - 1]) == key then 1 else 0)
  }

  /** The total of the counts of `keys`. */
  function SumCounts(keys: seq<string>, counts: map<string, nat>): nat
    requires forall k :: k in keys ==> k in counts
  {
    if keys == [] then 0 else counts[keys[0]] + SumCounts(keys[1..], counts)
  }

  predicate Distinct(keys: seq<string>)
  {
    forall i, j :: 0 <= i < j < |keys| ==> keys[i] != keys[j]
  }

  /** Raising one listed key's count by one raises the total by one. */
  lemma {:induction false} SumCountsIncrement(keys: seq<string>, counts: map<string, nat>, key: string)
    requires forall k :: k in keys ==> k in counts
    requires Distinct(keys) && key in keys
    ensures SumCounts(keys, counts[key := counts[key] + 1]) == SumCounts(keys, counts) + 1
  {
    var counts' := counts[key := counts[key] + 1];
    if keys[0] == key {
      forall j | 0 <= j < |keys[1..]|
        ensures keys[1..][j] != key
      {
        assert keys[1..][j] == keys[j + 1];
      }
      SumCountsUnchanged(keys[1..], counts, counts');
    } else {
      assert key in keys[1..];
      SumCountsIncrement(keys[1..], counts, key);
    }
  }

  /** The total only depends on the counts of the listed keys. */
  lemma {:induction false} SumCountsUnchanged(keys: seq<string>, counts: map<string, nat>, counts': map<string, nat>)
    requires forall k :: k in keys ==> k in counts && k in counts' && counts[k] == counts'[k]
    ensures SumCounts(keys, counts) == SumCounts(keys, counts')
  {
    if keys != [] {
      SumCountsUnchanged(keys[1..], counts, counts');
    }
  }

  /** Listing a new key adds its count to the total. */
  lemma {:induction false} SumCountsAppend(keys: seq<string>, counts: map<string, nat>, key: string)
    requires forall k :: k in keys ==> k in counts
    requires key in counts
    ensures SumCounts(keys + [key], counts) == SumCounts(keys, counts) + counts[key]
  {
    if keys == [] {
      assert keys + [key] == [key];
      assert [key][1..] == [];
    } else {
      assert (keys + [key])[1..] == keys[1..] + [key];
      SumCountsAppend(keys[1..], counts, key);
    }
  }

  /** A key has a positive count exactly when some capture is counted under it. */
  lemma {:induction false} CountOfPositive(cs: seq<Capture>, key: string)
    ensures CountOf(cs, key) > 0 <==> exists c :: c in cs && EmotionKey(c) == key
  {
    if cs != [] {
      var init := cs[..|cs| - 1];
      CountOfPositive(init, key);
      assert cs == init + [cs[|cs| - 1]];
      assert forall c :: c in cs <==> c in init || c == cs[|cs| - 1];
    }
  }

  /** Counting one more capture under `key`. */
  function AddKey(keys: seq<string>, counts: map<string, nat>, key: string): (seq<string>, map<string, nat>)
  {
    if key in counts then (keys, counts[key := counts[key] + 1]) else (keys + [key], counts[key := 1])
  }

  /** The tally after counting the captures in order: keys in first-seen order, and their counts. */
  function Tally(cs: seq<Capture>): (seq<string>, map<string, nat>)
  {
    if cs == [] then ([], map[])
    else
      var t := Tally(cs[..|cs| - 1]);
      AddKey(t.0, t.1, EmotionKey(cs[|cs| - 1]))
  }

  /**
   * `keys` and `counts` tally `cs`: every key once, a count for exactly the
   * listed keys, each the number of captures under that key, and all of them
   * adding up to the number of captures.
   */
  ghost predicate Tallies(cs: seq<Capture>, keys: seq<string>, counts: map<string, nat>)
  {
    && Distinct(keys)
    && (forall k :: k in counts <==> k in keys)
    && (forall k :: k in counts ==> counts[k] == CountOf(cs, k) && counts[k] > 0)
    && (forall k :: k !in counts ==> CountOf(cs, k) == 0)
    && SumCounts(keys, counts) == |cs|
  }

  /** Counting one more capture keeps the tally right. */
  lemma AddKeyStep(cs: seq<Capture>, keys: seq<string>, counts: map<string, nat>, c: Capture)
    requires Tallies(cs, keys, counts)
    ensures var t := AddKey(keys, counts, EmotionKey(c)); Tallies(cs + [c], t.0, t.1)
  {
    var cs' := cs + [c];
    assert cs'[..|cs'| - 1] == cs;
    assert forall k :: CountOf(cs', k) == CountOf(cs, k) + (if EmotionKey(c) == k then 1 else 0);
    if EmotionKey(c) in counts {
      AddSeenKey(cs, keys, counts, c);
    } else {
      AddNewKey(cs, keys, counts, c);
    }
  }

  lemma AddSeenKey(cs: seq<Capture>, keys: seq<string>, counts: map<string, nat>, c: Capture)
    requires Tallies(cs, keys, counts) && EmotionKey(c) in counts
    requires forall k :: CountOf(cs + [c], k) == CountOf(cs, k) + (if EmotionKey(c) == k then 1 else 0)
    ensures Tallies(cs + [c], keys, counts[EmotionKey(c) := counts[EmotionKey(c)] + 1])
  {
    SumCountsIncrement(keys, counts, EmotionKey(c));
  }

  lemma AddNewKey(cs: seq<Capture>, keys: seq<string>, counts: map<string, nat>, c: Capture)
    requires Tallies(cs, keys, counts) && EmotionKey(c) !in counts
    requires forall k :: CountOf(cs + [c], k) == CountOf(cs, k) + (if EmotionKey(c) == k then 1 else 0)
    ensures Tallies(cs + [c], keys + [EmotionKey(c)], counts[EmotionKey(c) := 1])
  {
    var key := EmotionKey(c);
    SumCountsUnchanged(keys, counts, counts[key := 1]);
    SumCountsAppend(keys, counts[key := 1], key);
  }

  /** The tally of any run of captures is right. */
  lemma {:induction false} TallyIsCorrect(cs: seq<Capture>)
    ensures Tallies(cs, Tally(cs).0, Tally(cs).1)
  {
    if cs != [] {
      var init, last := cs[..|cs| - 1], cs[|cs| - 1];
      assert init + [last] == cs;
      TallyIsCorrect(init);
      var t := Tally(init);
      AddKeyStep(init, t.0, t.1, last);
      assert Tally(cs) == AddKey(t.0, t.1, EmotionKey(last));
    }
  }

  /**
   * The tally lists keys in first-seen order: wherever a capture is counted
   * under a key, every key listed before it has already been seen earlier.
   */
  lemma {:induction false} TallyFirstSeen(cs: seq<Capture>)
    ensures forall i, j, q :: 0 <= i < j < |Tally(cs).0| && 0 <= q < |cs| && EmotionKey(cs[q]) == Tally(cs).0[j] ==>
      CountOf(cs[..q], Tally(cs).0[i]) > 0
  {
    if cs != [] {
      var init, last := cs[..|cs| - 1], cs[|cs| - 1];
      var t := Tally(init);
      var keys := Tally(cs).0;
      TallyFirstSeen(init);
      TallyIsCorrect(init);
      assert cs[..|init|] == init;
      forall i, j, q | 0 <= i < j < |keys| && 0 <= q < |cs| && EmotionKey(cs[q]) == keys[j]
        ensures CountOf(cs[..q], keys[i]) > 0
      {
        assert init + [last] == cs;
        assert Tally(cs) == AddKey(t.0, t.1, EmotionKey(last));
        assert keys[i] == t.0[i] && keys[i] in t.1;
        if q < |init| {
          assert cs[..q] == init[..q] && cs[q] == init[q];
          if j < |t.0| {
            assert keys[j] == t.0[j];
            assert EmotionKey(init[q]) == t.0[j];
            assert CountOf(init[..q], t.0[i]) > 0;
          } else {
            assert init[q] in init;
            CountOfPositive(init, EmotionKey(init[q]));
            assert false;
          }
        } else {
          assert cs[..q] == init;
          assert CountOf(init, keys[i]) > 0;
        }
      }
    }
  }

  /**
   * `updateStatistics`' `forEach` over the captures: the per-emotion tally,
   * keys in first-seen order, each with the number of captures counted under
   * it, and the counts adding up to the number of captures.
   */
  method CountEmotions(cs: seq<Capture>) returns (keys: seq<string>, counts: map<string, nat>)
    ensures (keys, counts) == Tally(cs)
    ensures Distinct(keys)
    ensures forall k :: k in counts <==> k in keys
    ensures forall k :: k in counts <==> CountOf(cs, k) > 0
    ensures forall k :: k in counts ==> counts[k] == CountOf(cs, k)
    ensures SumCounts(keys, counts) == |cs|
  {
    keys, counts := [], map[];
    for i := 0 to |cs|
      invariant (keys, counts) == Tally(cs[..i])
    {
      var key := EmotionKey(cs[i]);
      assert cs[..i + 1][..i] == cs[..i];
      if key in counts {
        counts := counts[key := counts[key] + 1];
      } else {
        keys := keys + [key];
        counts := counts[key := 1];
      }
    }
    assert cs[..|cs|] == cs;
    TallyIsCorrect(cs);
  }

  /**
   * The most common emotion: the first key, in first-seen order, with the
   * largest count (a stable descending sort puts it first).
   */
  method MostCommon(keys: seq<string>, counts: map<string, nat>) returns (best: string)
    requires |keys| > 0 && forall k :: k in keys ==> k in counts
    ensures best in keys
    ensures forall k :: k in keys ==> counts[k] <= counts[best]
    ensures exists b :: 0 <= b < |keys| && keys[b] == best && forall j :: 0 <= j < b ==> counts[keys[j]] < counts[best]
  {
    best := keys[0];
    ghost var bestIndex := 0;
    for i := 1 to |keys|
      invariant 0 <= bestIndex < i && keys[bestIndex] == best
      invariant forall j :: 0 <= j < i ==> counts[keys[j]] <= counts[best]
      invariant forall j :: 0 <= j < bestIndex ==> counts[keys[j]] < counts[best]
    {
      if counts[keys[i]] > counts[best] {
        best := keys[i];
        bestIndex := i;
      }
    }
  }

  /** Every capture's key is listed in the tally. */
  lemma {:induction false} OccurringKeyIsListed(cs: seq<Capture>, q: nat) returns (j: nat)
    requires q < |cs|
    ensures j < |Tally(cs).0| && Tally(cs).0[j] == EmotionKey(cs[q])
  {
    TallyIsCorrect(cs);
    CountOfPositive(cs, EmotionKey(cs[q]));
    assert cs[q] in cs;
    j :| 0 <= j < |Tally(cs).0| && Tally(cs).0[j] == EmotionKey(cs[q]);
  }

  /**
   * One capture of a tie: when the `b`-th key of the tally is the first with
   * its count and capture `q`'s emotion has that count too, the key has been
   * seen by capture `q`.
   */
  lemma {:induction false} TieSeenBy(cs: seq<Capture>, b: nat, q: nat)
    requires b < |Tally(cs).0| && q < |cs|
    requires forall j :: 0 <= j < b ==> CountOf(cs, Tally(cs).0[j]) < CountOf(cs, Tally(cs).0[b])
    requires CountOf(cs, EmotionKey(cs[q])) == CountOf(cs, Tally(cs).0[b])
    ensures CountOf(cs[..q + 1], Tally(cs).0[b]) > 0
  {
    var keys, k := Tally(cs).0, EmotionKey(cs[q]);
    assert cs[..q + 1] == cs[..q] + [cs[q]];
    if k != keys[b] {
      var j := OccurringKeyIsListed(cs, q);
      assert b < j;
      TallyFirstSeen(cs);
      assert CountOf(cs[..q], keys[b]) > 0;
    }
  }

  /**
   * Ties go to the emotion seen first: when `best` is the first key of the
   * tally with its count, every capture whose emotion has that count comes
   * at or after the first capture under `best`.
   */
  lemma {:induction false} FirstMaximalKeyWins(cs: seq<Capture>, keys: seq<string>, counts: map<string, nat>, best: string)
    requires (keys, counts) == Tally(cs) && forall k :: k in keys ==> k in counts
    requires exists b :: 0 <= b < |keys| && keys[b] == best && forall j :: 0 <= j < b ==> counts[keys[j]] < counts[best]
    ensures forall q :: 0 <= q < |cs| && CountOf(cs, EmotionKey(cs[q])) == CountOf(cs, best) ==>
      CountOf(cs[..q + 1], best) > 0
  {
    var b :| 0 <= b < |keys| && keys[b] == best && forall j :: 0 <= j < b ==> counts[keys[j]] < counts[best];
    TallyIsCorrect(cs);
    assert forall j :: 0 <= j < b ==> CountOf(cs, keys[j]) < CountOf(cs, best);
    forall q | 0 <= q < |cs| && CountOf(cs, EmotionKey(cs[q])) == CountOf(cs, best)
      ensures CountOf(cs[..q + 1], best) > 0
    {
      TieSeenBy(cs, b, q);
    }
  }

  /** `Math.min(...timestamps)`. */
  function FirstTimestamp(cs: seq<Capture>): (t: int)
    requires |cs| > 0
    ensures exists c :: c in cs && c.timestamp == t
    ensures forall c :: c in cs ==> t <= c.timestamp
  {
    if |cs| == 1 then cs[0].timestamp
    else
      var rest := FirstTimestamp(cs[1..]);
      if cs[0].timestamp <= rest then cs[0].timestamp else rest
  }

  /** `Math.max(...timestamps)`. */
  function LastTimestamp(cs: seq<Capture>): (t: int)
    requires |cs| > 0
    ensures exists c :: c in cs && c.timestamp == t
    ensures forall c :: c in cs ==> c.timestamp <= t
  {
    if |cs| == 1 then cs[0].timestamp
    else
      var rest := LastTimestamp(cs[1..]);
      if cs[0].timestamp >= rest then cs[0].timestamp else rest
  }

  /** The sum of the intensities. */
  function TotalIntensity(cs: seq<Capture>): real
  {
    if cs == [] then 0.0 else cs[0].intensity + TotalIntensity(cs[1..])
  }

  /** Intensities from the wheel lie in [0, 1], and so does their average. */
  lemma {:induction false} TotalIntensityBounds(cs: seq<Capture>)
    requires forall c :: c in cs ==> 0.0 <= c.intensity <= 1.0
    ensures 0.0 <= TotalIntensity(cs) <= |cs| as real
  {
    if cs != [] {
      assert cs[0] in cs;
      assert forall c :: c in cs[1..] ==> c in cs;
      TotalIntensityBounds(cs[1..]);
    }
  }

  // ---------------------------------------------------------------------------
  // Timeline order
  // ---------------------------------------------------------------------------

  predicate NewestFirst(cs: seq<Capture>)
  {
    forall i, j :: 0 <= i < j < |cs| ==> cs[i].timestamp >= cs[j].timestamp
  }

  /** Places `c` into a newest-first list after every capture at least as new. */
  function Insert(c: Capture, sorted: seq<Capture>): (r: seq<Capture>)
    requires NewestFirst(sorted)
    ensures NewestFirst(r) && multiset(r) == multiset(sorted) + multiset{c}
  {
    if sorted == [] then [c]
    else if sorted[0].timestamp >= c.timestamp then
      var rest := Insert(c, sorted[1..]);
      assert sorted == [sorted[0]] + sorted[1..];
      InsertBehindHead(c, sorted, rest);
      [sorted[0]] + rest
    else [c] + sorted
  }

  /** The head of a newest-first list can stay in front of `c` inserted into its tail. */
  lemma InsertBehindHead(c: Capture, sorted: seq<Capture>, rest: seq<Capture>)
    requires NewestFirst(sorted) && sorted != [] && sorted[0].timestamp >= c.timestamp
    requires NewestFirst(rest) && multiset(rest) == multiset(sorted[1..]) + multiset{c}
    ensures NewestFirst([sorted[0]] + rest)
  {
    forall x | x in rest
      ensures sorted[0].timestamp >= x.timestamp
    {
      assert x in multiset(rest);
      if x != c {
        assert x in multiset(sorted[1..]);
        var k :| 0 <= k < |sorted[1..]| && sorted[1..][k] == x;
        assert sorted[k + 1] == x;
      }
    }
    var r := [sorted[0]] + rest;
    forall i, j | 0 <= i < j < |r|
      ensures r[i].timestamp >= r[j].timestamp
    {
      assert r[j] == rest[j - 1];
      if i > 0 {
        assert r[i] == rest[i - 1];
      } else {
        assert r[j] in rest;
      }
    }
  }

  /** `[...captures].sort((a, b) => b.timestamp - a.timestamp)`: the same captures, newest first. */
  function SortNewestFirst(cs: seq<Capture>): (r: seq<Capture>)
    ensures NewestFirst(r) && multiset(r) == multiset(cs) && |r| == |cs|
  {
    if cs == [] then []
    else
      assert cs == [cs[0]] + cs[1..];
      Insert(cs[0], SortNewestFirst(cs[1..]))
  }

  /** The statistics panel; shown only when there is a capture. */
  datatype Stats = Stats(
    totalCaptures: nat,
    mostCommon: string,
    mostCommonCount: nat,
    averageIntensity: real,
    firstCapture: int,
    lastCapture: int)

  class VisualizationManager {
    var captures: seq<Capture>

    constructor ()
      ensures captures == []
    {
      captures := [];
    }

    /** `loadCaptures` (and `refresh`): a copy of every stored record, in key order. */
    method LoadCaptures(store: StorageManager)
      modifies this`captures
      ensures captures == store.captures
    {
      captures := store.captures;
    }

    /** The timeline: the captures newest first. */
    method Timeline() returns (items: seq<Capture>)
      ensures NewestFirst(items) && multiset(items) == multiset(captures)
    {
      items := SortNewestFirst(captures);
    }

    /**
     * `updateStatistics`: nothing without captures; otherwise the total, the
     * most common emotion and its count, the average intensity, and the first
     * and last capture times.
     */
    method UpdateStatistics() returns (stats: Option<Stats>)
      ensures captures == [] <==> stats.None?
      ensures stats.Some? ==>
        && var s := stats.value;
        && s.totalCaptures == |captures|
        && s.mostCommonCount == CountOf(captures, s.mostCommon) > 0
        && (forall c :: c in captures ==> CountOf(captures, EmotionKey(c)) <= s.mostCommonCount)
        && (forall q :: 0 <= q < |captures| && CountOf(captures, EmotionKey(captures[q])) == s.mostCommonCount ==>
              CountOf(captures[..q + 1], s.mostCommon) > 0)
        && s.averageIntensity == TotalIntensity(captures) / |captures| as real
        && s.firstCapture == FirstTimestamp(captures) && s.lastCapture == LastTimestamp(captures)
    {
      if |captures| == 0 {
        return None;
      }
      var keys, counts := CountEmotions(captures);
      forall c | c in captures
        ensures EmotionKey(c) in keys
      {
        CountOfPositive(captures, EmotionKey(c));
      }
      assert EmotionKey(captures[0]) in keys;
      var best := MostCommon(keys, counts);
      FirstMaximalKeyWins(captures, keys, counts, best);
      var first := FirstTimestamp(captures);
      var last := LastTimestamp(captures);
      stats := Some(Stats(|captures|, best, counts[best], TotalIntensity(captures) / |captures| as real, first, last));
    }
  }
}
