/** The re-ranking pass of brand_processor.py: `filter_by_style_preferences`
    and `_apply_design_philosophy`, and the stable descending sort by score
    it ends with. */
module StyleFilter {
  import opened Common
  import opened BrandTypes

  // ------------------------------------------------------------ matching text

  /** The lower-cased `"{term} {description} {reasoning}"` styles are looked for in. */
  function ResultText(r: SearchResult): string {
    Lower(r.term + " " + r.description + " " + r.reasoning)
  }

  /** Some style of `styles`, lower-cased, occurs in `text`. */
  predicate MentionsAny(text: string, styles: seq<string>) {
    exists s :: s in styles && Contains(text, Lower(s))
  }

  /** The result mentions an avoided style and is dropped. */
  predicate IsAvoided(r: SearchResult, prefs: StylePreferences) {
    MentionsAny(ResultText(r), prefs.Avoided())
  }

  /** The result mentions a preferred style and is boosted. */
  predicate IsPreferred(r: SearchResult, prefs: StylePreferences) {
    MentionsAny(ResultText(r), prefs.Preferred())
  }

  // ------------------------------------------------------ design philosophies

  datatype Philosophy = Philosophy(name: string, keywords: seq<string>, boost: real)

  const Philosophies: seq<Philosophy> := [
    Philosophy("minimalism", ["minimal", "clean", "simple", "whitespace"], 1.3),
    Philosophy("modern", ["modern", "contemporary", "sleek"], 1.2),
    Philosophy("playful", ["playful", "fun", "colorful", "vibrant"], 1.2),
    Philosophy("professional", ["professional", "corporate", "formal"], 1.2),
    Philosophy("elegant", ["elegant", "refined", "sophisticated"], 1.2)
  ]

  /** The table entry named `name`, if any. */
  function FindPhilosophy(table: seq<Philosophy>, name: string): (p: Option<Philosophy>)
    ensures p.Some? ==> p.value in table && p.value.name == name
    ensures p.None? ==> forall q :: q in table ==> q.name != name
  {
    if table == [] then None
    else if table[0].name == name then Some(table[0])
    else FindPhilosophy(table[1..], name)
  }

  /** `_apply_design_philosophy`: the boost of the named philosophy, matched
      case-insensitively, when one of its keywords occurs in the lower-cased
      `"{term} {description}"`; 1.0 otherwise. */
  function PhilosophyBoost(r: SearchResult, philosophy: string): (b: real)
    ensures b == 1.0 || b == 1.2 || b == 1.3
  {
    var text := Lower(r.term + " " + r.description);
    match FindPhilosophy(Philosophies, Lower(philosophy))
    case None => 1.0
    case Some(p) =>
      if exists k :: k in p.keywords && Contains(text, k) then p.boost else 1.0
  }

  /** A philosophy changes the score exactly when it is one of the table's,
      in any letter case, and one of its keywords occurs in the text; it then
      multiplies by that entry's boost. */
  lemma PhilosophyBoostSpec(r: SearchResult, philosophy: string)
    ensures var b := PhilosophyBoost(r, philosophy);
      var entry := FindPhilosophy(Philosophies, Lower(philosophy));
      && (b != 1.0 <==>
           entry.Some? && exists k :: k in entry.value.keywords && Contains(Lower(r.term + " " + r.description), k))
      && (b != 1.0 ==> b == entry.value.boost)
  {
  }

  // --------------------------------------------------------- one kept result

  /** The score after the preferred-style boost: `original * 1.5` once,
      however many preferred styles match. */
  function BoostedScore(r: SearchResult, prefs: StylePreferences): Option<real> {
    Boosted(r.score, IsPreferred(r, prefs))
  }

  /** `score` (1.0 when absent) times 1.5 when `preferred`. */
  function Boosted(score: Option<real>, preferred: bool): Option<real> {
    if preferred then Some(score.GetOr(1.0) * 1.5) else score
  }

  /** What the pass does to a result it keeps: the preferred-style boost, at
      most one philosophy multiplier, and `styles_filtered` set on its
      `brand_applied` record. */
  function Restyle(r: SearchResult, prefs: StylePreferences): SearchResult {
    var applied := if r.brandApplied.Some? then Some(r.brandApplied.value.(stylesFiltered := true)) else None;
    r.(score := Scaled(BoostedScore(r, prefs), PhilosophyFactor(r, prefs)), brandApplied := applied)
  }

  /** The philosophy multiplier, 1.0 when no philosophy is given. */
  function PhilosophyFactor(r: SearchResult, prefs: StylePreferences): (f: real)
    ensures f == 1.0 || f == 1.2 || f == 1.3
  {
    if prefs.Philosophy() != "" then PhilosophyBoost(r, prefs.Philosophy()) else 1.0
  }

  /** `score * factor`, leaving the score as it is when the factor is 1.0. */
  function Scaled(score: Option<real>, factor: real): Option<real> {
    if factor != 1.0 then Some(score.GetOr(1.0) * factor) else score
  }

  /** The factor a kept result's score (1.0 when absent) is multiplied by. */
  function ScoreFactor(r: SearchResult, prefs: StylePreferences): real {
    (if IsPreferred(r, prefs) then 1.5 else 1.0) * PhilosophyFactor(r, prefs)
  }

  /** The boosts never compound: the new score is the old one (1.0 when
      absent) times one of 1, 1.2, 1.3, 1.5, 1.5 * 1.2 or 1.5 * 1.3. */
  lemma RestyleScore(r: SearchResult, prefs: StylePreferences)
    ensures Restyle(r, prefs).score.GetOr(1.0) == r.score.GetOr(1.0) * ScoreFactor(r, prefs)
    ensures ScoreFactor(r, prefs) in {1.0, 1.2, 1.3, 1.5, 1.8, 1.95}
    ensures Restyle(r, prefs).score.None? ==> r.score.None?
  {
    ScaledBoost(r.score, IsPreferred(r, prefs), PhilosophyFactor(r, prefs), ScoreFactor(r, prefs));
  }

  /** Apart from the score, a kept result changes only in `styles_filtered`,
      which is set on its record. */
  lemma RestyleRecord(r: SearchResult, prefs: StylePreferences)
    ensures var y := Restyle(r, prefs);
      && y.term == r.term && y.description == r.description && y.reasoning == r.reasoning
      && y.codeExample == r.codeExample && y.brandApplied.Some? == r.brandApplied.Some?
      && (y.brandApplied.Some? ==> y.brandApplied.value == r.brandApplied.value.(stylesFiltered := true))
  {
  }

  /** The arithmetic of `RestyleScore`: the optional 1.5 boost followed by a
      philosophy factor of 1.0, 1.2 or 1.3. */
  lemma ScaledBoost(score: Option<real>, preferred: bool, factor: real, total: real)
    requires factor == 1.0 || factor == 1.2 || factor == 1.3
    requires total == (if preferred then 1.5 else 1.0) * factor
    ensures Scaled(Boosted(score, preferred), factor).GetOr(1.0) == score.GetOr(1.0) * total
    ensures total in {1.0, 1.2, 1.3, 1.5, 1.8, 1.95}
    ensures Scaled(Boosted(score, preferred), factor).None? ==> score.None?
  {
    var base := score.GetOr(1.0);
    if preferred {
      if factor == 1.2 {
        assert (base * 1.5) * 1.2 == base * 1.8;
      } else if factor == 1.3 {
        assert (base * 1.5) * 1.3 == base * 1.95;
      }
    }
  }

  /** Every result the pass returns is a kept input result, restyled. */
  lemma FilteredFrom(results: seq<SearchResult>, prefs: StylePreferences, y: SearchResult)
    requires y in SortByScore(StyleKept(results, prefs))
    ensures exists r :: r in results && !IsAvoided(r, prefs) && y == Restyle(r, prefs)
  {
    var kept := StyleKept(results, prefs);
    SortPermutation(kept);
    assert y in multiset(SortByScore(kept));
    assert y in kept by {
      assert y in multiset(kept);
    }
    StyleKeptMembers(results, prefs);
  }

  /** The results the pass keeps, restyled, in input order. */
  function StyleKept(results: seq<SearchResult>, prefs: StylePreferences): (kept: seq<SearchResult>)
    ensures |kept| <= |results|
  {
    if results == [] then []
    else
      var last := results[|results| - 1];
      StyleKept(results[..|results| - 1], prefs) + (if IsAvoided(last, prefs) then [] else [Restyle(last, prefs)])
  }

  /** Exactly the results that mention no avoided style survive, restyled. */
  lemma {:induction false} StyleKeptMembers(results: seq<SearchResult>, prefs: StylePreferences)
    ensures forall y :: y in StyleKept(results, prefs) <==>
      exists r :: r in results && !IsAvoided(r, prefs) && y == Restyle(r, prefs)
    decreases |results|
  {
    if results != [] {
      var init := results[..|results| - 1];
      var last := results[|results| - 1];
      StyleKeptMembers(init, prefs);
      assert results == init + [last];
      forall y | exists r :: r in results && !IsAvoided(r, prefs) && y == Restyle(r, prefs)
        ensures y in StyleKept(results, prefs)
      {
        var r :| r in results && !IsAvoided(r, prefs) && y == Restyle(r, prefs);
        if r != last {
          assert r in init;
        }
      }
    }
  }

  // ----------------------------------------------------- stable sort by score

  /** The sort key `x.get("score", 0)`. */
  function Key(r: SearchResult): real {
    r.score.GetOr(0.0)
  }

  predicate SortedByScore(s: seq<SearchResult>) {
    forall i, j :: 0 <= i < j < |s| ==> Key(s[i]) >= Key(s[j])
  }

  /** Places `x`, which came before every element of `s` in the input,
      ahead of the first element whose score it reaches. */
  function Insert(x: SearchResult, s: seq<SearchResult>): (r: seq<SearchResult>)
    ensures |r| == |s| + 1
    ensures r[0] == x || (s != [] && r[0] == s[0])
    ensures multiset(r) == multiset(s) + multiset{x}
  {
    if s == [] || Key(x) >= Key(s[0]) then [x] + s
    else
      var rest := Insert(x, s[1..]);
      assert s == [s[0]] + s[1..];
      [s[0]] + rest
  }

  /** `list.sort(key=score, reverse=True)`: Python's sort is stable, so results
      with equal scores keep their relative order. */
  function SortByScore(s: seq<SearchResult>): seq<SearchResult> {
    if s == [] then [] else Insert(s[0], SortByScore(s[1..]))
  }

  lemma {:induction false} InsertSorted(x: SearchResult, s: seq<SearchResult>)
    requires SortedByScore(s)
    ensures SortedByScore(Insert(x, s))
    decreases |s|
  {
    if s == [] || Key(x) >= Key(s[0]) {
      SortedCons(x, s);
    } else {
      var rest := Insert(x, s[1..]);
      InsertSorted(x, s[1..]);
      InsertBounded(x, s[1..], Key(s[0]));
      SortedCons(s[0], rest);
      assert Insert(x, s) == [s[0]] + rest;
    }
  }

  /** A sorted list stays sorted under a head whose score bounds its first
      element. */
  lemma SortedCons(a: SearchResult, t: seq<SearchResult>)
    requires SortedByScore(t)
    requires t == [] || Key(a) >= Key(t[0])
    ensures SortedByScore([a] + t)
  {
    var r := [a] + t;
    forall i, j | 0 <= i < j < |r|
      ensures Key(r[i]) >= Key(r[j])
    {
      if i == 0 && j > 1 {
        assert Key(t[0]) >= Key(t[j - 1]);
      }
    }
  }

  /** Inserting never lifts a score above a bound shared by `x` and `s`. */
  lemma InsertBounded(x: SearchResult, s: seq<SearchResult>, bound: real)
    requires Key(x) <= bound
    requires forall j :: 0 <= j < |s| ==> Key(s[j]) <= bound
    ensures forall j :: 0 <= j < |Insert(x, s)| ==> Key(Insert(x, s)[j]) <= bound
  {
    var r := Insert(x, s);
    forall j | 0 <= j < |r|
      ensures Key(r[j]) <= bound
    {
      assert r[j] in multiset(r);
      assert r[j] == x || r[j] in s;
    }
  }

  /** The sort orders by non-increasing score. */
  lemma {:induction false} SortSorted(s: seq<SearchResult>)
    ensures SortedByScore(SortByScore(s))
    decreases |s|
  {
    if s != [] {
      SortSorted(s[1..]);
      InsertSorted(s[0], SortByScore(s[1..]));
    }
  }

  /** The sort is a permutation. */
  lemma {:induction false} SortPermutation(s: seq<SearchResult>)
    ensures multiset(SortByScore(s)) == multiset(s)
    decreases |s|
  {
    if s != [] {
      SortPermutation(s[1..]);
      assert s == [s[0]] + s[1..];
    }
  }

  /** The results whose score is `k`, in order. */
  function WithKey(s: seq<SearchResult>, k: real): seq<SearchResult> {
    if s == [] then []
    else (if Key(s[0]) == k then [s[0]] else []) + WithKey(s[1..], k)
  }

  lemma {:induction false} InsertStable(x: SearchResult, s: seq<SearchResult>, k: real)
    ensures WithKey(Insert(x, s), k) == WithKey([x] + s, k)
    decreases |s|
  {
    if s == [] || Key(x) >= Key(s[0]) {
      assert Insert(x, s) == [x] + s;
    } else {
      var rest := Insert(x, s[1..]);
      InsertStable(x, s[1..], k);
      assert Insert(x, s) == [s[0]] + rest;
      var hx := if Key(x) == k then [x] else [];
      var h0 := if Key(s[0]) == k then [s[0]] else [];
      var w := WithKey(s[1..], k);
      WithKeyCons(x, s[1..], k);
      WithKeyCons(s[0], rest, k);
      assert WithKey(Insert(x, s), k) == h0 + (hx + w);
      assert [s[0]] + s[1..] == s;
      WithKeyCons(s[0], s[1..], k);
      WithKeyCons(x, s, k);
      assert WithKey([x] + s, k) == hx + (h0 + w);
      if hx == [] {
        assert hx + w == w && hx + (h0 + w) == h0 + w;
      } else {
        assert h0 == [];
        assert h0 + (hx + w) == hx + w && h0 + w == w;
      }
    }
  }

  /** Unfolds `WithKey` at a list with a known head. */
  lemma WithKeyCons(y: SearchResult, t: seq<SearchResult>, k: real)
    ensures WithKey([y] + t, k) == (if Key(y) == k then [y] else []) + WithKey(t, k)
  {
    assert ([y] + t)[1..] == t;
  }

  /** The sort is stable: for every score, the results with that score come
      out in the order they went in. */
  lemma {:induction false} SortStable(s: seq<SearchResult>, k: real)
    ensures WithKey(SortByScore(s), k) == WithKey(s, k)
    decreases |s|
  {
    if s != [] {
      SortStable(s[1..], k);
      InsertStable(s[0], SortByScore(s[1..]), k);
      assert ([s[0]] + SortByScore(s[1..]))[1..] == SortByScore(s[1..]);
    }
  }

  // ------------------------------------------------------------- the pass

  /** The loop over the avoided styles, which stops at the first match. */
  method MentionsAvoided(text: string, avoided: seq<string>) returns (shouldFilter: bool)
    ensures shouldFilter <==> MentionsAny(text, avoided)
  {
    shouldFilter := false;
    var j := 0;
    while j < |avoided| && !shouldFilter
      invariant 0 <= j <= |avoided|
      invariant shouldFilter <==> MentionsAny(text, avoided[..j])
    {
      assert avoided[..j + 1] == avoided[..j] + [avoided[j]];
      if Contains(text, Lower(avoided[j])) {
        shouldFilter := true;
      }
      j := j + 1;
    }
    if !shouldFilter {
      assert avoided[..j] == avoided;
    }
  }

  /** The body of the pass for a result it keeps: the loop over the preferred
      styles, each match setting the score to `original * 1.5`, then the
      philosophy multiplier and the `styles_filtered` flag. */
  method RestyleResult(result: SearchResult, prefs: StylePreferences) returns (y: SearchResult)
    ensures y == Restyle(result, prefs)
  {
    var text := ResultText(result);
    var preferred := prefs.Preferred();
    var philosophy := prefs.Philosophy();
    var originalScore := result.score.GetOr(1.0);
    var score := result.score;
    var k := 0;
    while k < |preferred|
      invariant 0 <= k <= |preferred|
      invariant score == if MentionsAny(text, preferred[..k]) then Some(originalScore * 1.5) else result.score
    {
      assert preferred[..k + 1] == preferred[..k] + [preferred[k]];
      if Contains(text, Lower(preferred[k])) {
        score := Some(originalScore * 1.5);
      }
      k := k + 1;
    }
    assert preferred[..k] == preferred;
    assert score == BoostedScore(result, prefs);

    if philosophy != "" {
      var boost := PhilosophyBoost(result, philosophy);
      score := ScaleScore(score, boost);
    }
    var applied := result.brandApplied;
    if applied.Some? {
      applied := Some(applied.value.(stylesFiltered := true));
    }
    y := result.(score := score, brandApplied := applied);
  }

  /** `result["score"] = result.get("score", 1.0) * philosophy_boost` when
      the boost is not 1.0. */
  method ScaleScore(score: Option<real>, boost: real) returns (s: Option<real>)
    ensures s == Scaled(score, boost)
  {
    s := score;
    if boost != 1.0 {
      s := Some(s.GetOr(1.0) * boost);
    }
  }

  /** `filter_by_style_preferences` */
  method FilterByStylePreferences(results: seq<SearchResult>, prefs: StylePreferences) returns (out: seq<SearchResult>)
    ensures prefs.IsEmpty() || results == [] ==> out == results
    ensures !prefs.IsEmpty() && results != [] ==> out == SortByScore(StyleKept(results, prefs))
  {
    if prefs.IsEmpty() || results == [] {
      return results;
    }
    var kept: seq<SearchResult> := [];
    var i := 0;
    while i < |results|
      invariant 0 <= i <= |results|
      invariant kept == StyleKept(results[..i], prefs)
    {
      var result := results[i];
      assert results[..i + 1][..i] == results[..i];
      var shouldFilter := MentionsAvoided(ResultText(result), prefs.Avoided());
      if !shouldFilter {
        var restyled := RestyleResult(result, prefs);
        kept := kept + [restyled];
      }
      i := i + 1;
    }
    assert results[..i] == results;
    out := SortByScore(kept);
  }

  /** What the pass returns for non-empty preferences and results: exactly the
      results that mention no avoided style, restyled, ordered by
      non-increasing score, equal scores in input order. */
  lemma FilterOutcome(results: seq<SearchResult>, prefs: StylePreferences, k: real)
    ensures var out := SortByScore(StyleKept(results, prefs));
      && (forall y :: y in out <==> exists r :: r in results && !IsAvoided(r, prefs) && y == Restyle(r, prefs))
      && SortedByScore(out)
      && multiset(out) == multiset(StyleKept(results, prefs))
      && WithKey(out, k) == WithKey(StyleKept(results, prefs), k)
  {
    var kept := StyleKept(results, prefs);
    StyleKeptMembers(results, prefs);
    SortPermutation(kept);
    SortSorted(kept);
    SortStable(kept, k);
    forall y
      ensures y in SortByScore(kept) <==> y in kept
    {
      assert y in SortByScore(kept) <==> y in multiset(SortByScore(kept));
    }
  }
}
