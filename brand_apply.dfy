/** The top-level pass of brand_processor.py: `apply_brand_config` and the
    `_apply_brand_typography_single` step it runs on every result. */
module BrandApply {
  import opened Common
  import opened BrandTypes
  import opened BrandCode
  import opened StyleFilter

  /** `_apply_brand_typography_single`: the font declarations of a non-empty
      snippet are rewritten for a named primary font, and the names of the
      brand's fonts are recorded on the `brand_applied` record. */
  function BrandTypographyApplied(result: SearchResult, t: Typography, h: Helpers): (r: SearchResult)
    ensures t.IsEmpty() ==> r == result
    ensures r.term == result.term && r.description == result.description
      && r.reasoning == result.reasoning && r.score == result.score
    ensures r.brandApplied.Some? == result.brandApplied.Some?
    ensures !t.Primary().HasName() || result.codeExample == "" ==> r.codeExample == result.codeExample
    ensures !t.IsEmpty() && result.brandApplied.Some? ==>
      var before := result.brandApplied.value;
      var after := r.brandApplied.value;
      && after.fontsApplied == t.Primary().Names() + t.Secondary().Names()
      && (after.fontsApplied != [] <==> t.Primary().HasName() || t.Secondary().HasName())
      && after.colorsReplaced == before.colorsReplaced
      && after.industryContext == before.industryContext
      && after.stylesFiltered == before.stylesFiltered
      && after.modifications
         == before.modifications + (if after.fontsApplied != [] then [TypographyApplied] else [])
  {
    if t.IsEmpty() then result
    else
      var code :=
        if result.codeExample != "" && t.Primary().HasName() then
          h.rewriteDeclarations(result.codeExample, t.Primary().Family("sans-serif"))
        else result.codeExample;
      var applied :=
        if result.brandApplied.Some? then
          var b := result.brandApplied.value;
          var fonts := t.Primary().Names() + t.Secondary().Names();
          Some(b.(fontsApplied := fonts,
                  modifications := if fonts != [] then b.modifications + [TypographyApplied] else b.modifications))
        else None;
      result.(codeExample := code, brandApplied := applied)
  }

  /** The fresh `brand_applied` record each result starts from. */
  function FreshRecord(brand: BrandConfig): BrandApplied {
    BrandApplied([], [], false, brand.industry.GetOr(""), [])
  }

  /** One iteration of the loop of `apply_brand_config`: a copy of the result
      with a fresh record, the brand's colours, its fonts (when the
      typography section is not empty) and the brand-aware snippet. */
  function Enhanced(result: SearchResult, brand: BrandConfig, h: Helpers): SearchResult {
    var started := result.(brandApplied := Some(FreshRecord(brand)));
    var colored := BrandColorsApplied(started, brand.ColorsSection());
    var typed := BrandTypographyApplied(colored, brand.TypographySection(), h);
    typed.(codeExample := BrandAwareCode(typed.codeExample, brand, h))
  }

  /** Every result enhanced, in order. */
  function EnhancedAll(results: seq<SearchResult>, brand: BrandConfig, h: Helpers): (out: seq<SearchResult>)
    ensures |out| == |results|
    ensures forall i :: 0 <= i < |results| ==> out[i] == Enhanced(results[i], brand, h)
  {
    seq(|results|, i requires 0 <= i < |results| => Enhanced(results[i], brand, h))
  }

  /** What `apply_brand_config` returns. */
  function BrandApplication(results: seq<SearchResult>, brand: BrandConfig, h: Helpers): seq<SearchResult> {
    if brand.IsEmpty() || results == [] then results
    else if brand.StyleSection().IsEmpty() then EnhancedAll(results, brand, h)
    else SortByScore(StyleKept(EnhancedAll(results, brand, h), brand.StyleSection()))
  }

  /** `apply_brand_config` */
  method ApplyBrandConfig(results: seq<SearchResult>, brand: BrandConfig, h: Helpers) returns (out: seq<SearchResult>)
    ensures out == BrandApplication(results, brand, h)
  {
    if brand.IsEmpty() || results == [] {
      return results;
    }
    out := EnhanceAll(results, brand, h);
    var style := brand.StyleSection();
    if !style.IsEmpty() {
      out := FilterByStylePreferences(out, style);
    }
  }

  /** The loop of `apply_brand_config`, which enhances a copy of every
      result in turn. */
  method EnhanceAll(results: seq<SearchResult>, brand: BrandConfig, h: Helpers) returns (enhanced: seq<SearchResult>)
    ensures enhanced == EnhancedAll(results, brand, h)
  {
    enhanced := [];
    var i := 0;
    while i < |results|
      invariant 0 <= i <= |results|
      invariant |enhanced| == i
      invariant forall j :: 0 <= j < i ==> enhanced[j] == Enhanced(results[j], brand, h)
    {
      var result := EnhanceResult(results[i], brand, h);
      enhanced := enhanced + [result];
      i := i + 1;
    }
  }

  /** The body of the loop of `apply_brand_config`. */
  method EnhanceResult(result: SearchResult, brand: BrandConfig, h: Helpers) returns (y: SearchResult)
    ensures y == Enhanced(result, brand, h)
  {
    y := result.(brandApplied := Some(FreshRecord(brand)));
    y := ApplyBrandColors(y, brand.ColorsSection());
    var typography := brand.TypographySection();
    if !typography.IsEmpty() {
      y := BrandTypographyApplied(y, typography, h);
    }
    y := GenerateBrandAwareExamples(y, brand, h);
  }

  /** Each enhanced result keeps its text and score, and carries a record
      whose industry context is the brand's industry, with `styles_filtered`
      still false; the swapped colours all go to the primary colour. */
  lemma EnhancedRecord(result: SearchResult, brand: BrandConfig, h: Helpers)
    ensures var y := Enhanced(result, brand, h);
      && y.term == result.term && y.description == result.description
      && y.reasoning == result.reasoning && y.score == result.score
      && y.brandApplied.Some?
      && y.brandApplied.value.industryContext == brand.industry.GetOr("")
      && !y.brandApplied.value.stylesFiltered
      && (forall k :: 0 <= k < |y.brandApplied.value.colorsReplaced| ==>
            y.brandApplied.value.colorsReplaced[k].0 in Blues
            && y.brandApplied.value.colorsReplaced[k].1 == brand.ColorsSection().primary.value)
      && (result.codeExample == "" ==> y.codeExample == "")
  {
    var started := result.(brandApplied := Some(FreshRecord(brand)));
    var colors := brand.ColorsSection();
    var colored := BrandColorsApplied(started, colors);
    if !colors.IsEmpty() && started.codeExample != "" {
      BrandColorsRecord(started, colors);
    }
    assert colored.brandApplied.value.industryContext == brand.industry.GetOr("");
    assert !colored.brandApplied.value.stylesFiltered;
  }

  /** Without style preferences, a non-empty profile keeps the results'
      number and order, and each result gets a fresh record carrying the
      brand's industry. */
  lemma ApplyWithoutStyles(results: seq<SearchResult>, brand: BrandConfig, h: Helpers)
    requires !brand.IsEmpty() && brand.StyleSection().IsEmpty()
    ensures var out := BrandApplication(results, brand, h);
      && |out| == |results|
      && forall i :: 0 <= i < |results| ==>
           && out[i].term == results[i].term
           && out[i].description == results[i].description
           && out[i].score == results[i].score
           && out[i].brandApplied.Some?
           && out[i].brandApplied.value.industryContext == brand.industry.GetOr("")
  {
    forall i | 0 <= i < |results|
      ensures var y := Enhanced(results[i], brand, h);
        && y.term == results[i].term && y.description == results[i].description && y.score == results[i].score
        && y.brandApplied.Some? && y.brandApplied.value.industryContext == brand.industry.GetOr("")
    {
      EnhancedRecord(results[i], brand, h);
    }
  }

  /** With style preferences, the list returned is no longer than the input
      and is ordered by non-increasing score. */
  lemma ApplyWithStylesOrdered(results: seq<SearchResult>, brand: BrandConfig, h: Helpers)
    requires !brand.IsEmpty() && results != [] && !brand.StyleSection().IsEmpty()
    ensures var out := BrandApplication(results, brand, h);
      |out| <= |results| && SortedByScore(out)
  {
    var style := brand.StyleSection();
    var enhanced := EnhancedAll(results, brand, h);
    var kept := StyleKept(enhanced, style);
    FilterOutcome(enhanced, style, 0.0);
    assert |SortByScore(kept)| == |kept| by {
      assert |multiset(SortByScore(kept))| == |multiset(kept)|;
    }
  }

  /** With style preferences, every result returned is an enhanced input
      result that mentions no avoided style, restyled and marked as filtered. */
  lemma ApplyWithStyles(results: seq<SearchResult>, brand: BrandConfig, h: Helpers)
    requires !brand.IsEmpty() && results != [] && !brand.StyleSection().IsEmpty()
    ensures forall y :: y in BrandApplication(results, brand, h) ==>
      && (exists r :: r in results && !IsAvoided(Enhanced(r, brand, h), brand.StyleSection())
            && y == Restyle(Enhanced(r, brand, h), brand.StyleSection()))
      && y.brandApplied.Some?
      && y.brandApplied.value.stylesFiltered
      && y.brandApplied.value.industryContext == brand.industry.GetOr("")
  {
    forall y | y in BrandApplication(results, brand, h) {
      AppliedMember(results, brand, h, y);
    }
  }

  /** One result of the styled application traced back to its input. */
  lemma AppliedMember(results: seq<SearchResult>, brand: BrandConfig, h: Helpers, y: SearchResult)
    requires y in SortByScore(StyleKept(EnhancedAll(results, brand, h), brand.StyleSection()))
    ensures && (exists r :: r in results && !IsAvoided(Enhanced(r, brand, h), brand.StyleSection())
                  && y == Restyle(Enhanced(r, brand, h), brand.StyleSection()))
            && y.brandApplied.Some?
            && y.brandApplied.value.stylesFiltered
            && y.brandApplied.value.industryContext == brand.industry.GetOr("")
  {
    var style := brand.StyleSection();
    var enhanced := EnhancedAll(results, brand, h);
    FilteredFrom(enhanced, style, y);
    var e :| e in enhanced && !IsAvoided(e, style) && y == Restyle(e, style);
    var j :| 0 <= j < |enhanced| && enhanced[j] == e;
    RestyledEnhanced(results, brand, h, j);
    assert results[j] in results;
  }

  /** The restyled copy of the `j`-th enhanced result is marked as filtered
      and keeps the brand's industry. */
  lemma RestyledEnhanced(results: seq<SearchResult>, brand: BrandConfig, h: Helpers, j: nat)
    requires j < |results|
    ensures var e := Enhanced(results[j], brand, h);
      var y := Restyle(e, brand.StyleSection());
      && y.brandApplied.Some?
      && y.brandApplied.value.stylesFiltered
      && y.brandApplied.value.industryContext == brand.industry.GetOr("")
  {
    EnhancedRecord(results[j], brand, h);
    RestyleRecord(Enhanced(results[j], brand, h), brand.StyleSection());
  }
}
