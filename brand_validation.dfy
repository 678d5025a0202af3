/** WCAG contrast decisions and the validators of a brand profile:
    `check_color_accessibility`, `validate_brand_config` and its three
    `_validate_*_section` helpers. */
module BrandValidation {
  import opened Common
  import opened HexColor
  import opened BrandTypes

  // ------------------------------------------------------------ accessibility

  datatype WcagLevel = AAA | AA | Fail

  datatype Accessibility = Accessibility(
    contrastRatio: real,
    aaCompliant: bool,
    aaaCompliant: bool,
    wcagLevel: WcagLevel)

  /** Minimum contrast, success criterion 1.4.3 of WCAG 2.1 (level AA). */
  const AaMinimum: real := 4.5
  /** Enhanced contrast, success criterion 1.4.6 of WCAG 2.1 (level AAA). */
  const AaaMinimum: real := 7.0

  /** `check_color_accessibility` over the contrast ratio `ratioOf` computes
      for two valid colours. */
  function CheckColorAccessibility(text: Value, background: Value, ratioOf: (string, string) -> real): (a: Accessibility)
    ensures !(IsValidHexColor(text) && IsValidHexColor(background)) ==>
      a == Accessibility(0.0, false, false, Fail)
    ensures IsValidHexColor(text) && IsValidHexColor(background) ==>
      && a.contrastRatio == ratioOf(text.s, background.s)
      && (a.aaCompliant <==> a.contrastRatio >= AaMinimum)
      && (a.aaaCompliant <==> a.contrastRatio >= AaaMinimum)
    ensures a.aaaCompliant ==> a.aaCompliant
    ensures a.wcagLevel == AAA <==> a.aaaCompliant
    ensures a.wcagLevel == AA <==> a.aaCompliant && !a.aaaCompliant
    ensures a.wcagLevel == Fail <==> !a.aaCompliant
  {
    if !IsValidHexColor(text) || !IsValidHexColor(background) then
      Accessibility(0.0, false, false, Fail)
    else
      var ratio := ratioOf(text.s, background.s);
      var aa := ratio >= AaMinimum;
      var aaa := ratio >= AaaMinimum;
      Accessibility(ratio, aa, aaa, if aaa then AAA else if aa then AA else Fail)
  }

  // ------------------------------------------------------------ colours section

  datatype ContrastIssue = ContrastIssue(textColor: string, backgroundColor: string, contrastRatio: real)

  datatype ColorsReport = ColorsReport(
    valid: bool,
    requiredPresent: seq<string>,
    missingRequired: seq<string>,
    contrastIssues: seq<ContrastIssue>)

  const RequiredColors: seq<string> := ["primary"]
  const RecommendedColors: seq<string> := ["secondary", "accent"]
  /** The backgrounds the primary colour is checked against: white, gray-50, black. */
  const Backgrounds: seq<string> := ["#ffffff", "#f9fafb", "#000000"]

  /** `colors[name]` for the colour roles the validator reads. */
  function ColorNamed(colors: Colors, name: string): Option<string> {
    if name == "primary" then colors.primary
    else if name == "secondary" then colors.secondary
    else if name == "accent" then colors.accent
    else None
  }

  /** `name in colors and _is_valid_hex_color(colors[name])` */
  predicate HasValidColor(colors: Colors, name: string) {
    ColorNamed(colors, name).Some? && IsValidHexColor(Str(ColorNamed(colors, name).value))
  }

  /** The names among `names` whose colour is present and valid, in order. */
  function ValidNames(colors: Colors, names: seq<string>): (r: seq<string>)
    ensures forall n :: n in r <==> n in names && HasValidColor(colors, n)
  {
    if names == [] then []
    else
      var last := names[|names| - 1];
      ValidNames(colors, names[..|names| - 1]) + (if HasValidColor(colors, last) then [last] else [])
  }

  /** The backgrounds among `bgs` on which `primary` misses the AA minimum. */
  function ContrastIssues(primary: string, bgs: seq<string>, ratioOf: (string, string) -> real): (r: seq<ContrastIssue>)
    ensures |r| <= |bgs|
    ensures forall i :: 0 <= i < |r| ==>
      r[i].textColor == primary && r[i].backgroundColor in bgs
      && !CheckColorAccessibility(Str(primary), Str(r[i].backgroundColor), ratioOf).aaCompliant
    ensures forall bg :: bg in bgs && !CheckColorAccessibility(Str(primary), Str(bg), ratioOf).aaCompliant ==>
      exists i :: 0 <= i < |r| && r[i].backgroundColor == bg
  {
    if bgs == [] then []
    else
      var bg := bgs[|bgs| - 1];
      var info := CheckColorAccessibility(Str(primary), Str(bg), ratioOf);
      var prefix := ContrastIssues(primary, bgs[..|bgs| - 1], ratioOf);
      var r := prefix + (if !info.aaCompliant then [ContrastIssue(primary, bg, info.contrastRatio)] else []);
      assert forall b :: b in bgs && !CheckColorAccessibility(Str(primary), Str(b), ratioOf).aaCompliant ==>
        exists i :: 0 <= i < |r| && r[i].backgroundColor == b by {
        forall b | b in bgs && !CheckColorAccessibility(Str(primary), Str(b), ratioOf).aaCompliant
          ensures exists i :: 0 <= i < |r| && r[i].backgroundColor == b
        {
          if b in bgs[..|bgs| - 1] {
            var i :| 0 <= i < |prefix| && prefix[i].backgroundColor == b;
            assert r[i] == prefix[i];
          } else {
            assert r[|prefix|].backgroundColor == b;
          }
        }
      }
      r
  }

  /** The loop over a list of colour roles that appends each role whose
      colour is present and valid. */
  method CollectValidNames(colors: Colors, names: seq<string>) returns (present: seq<string>)
    ensures present == ValidNames(colors, names)
  {
    present := [];
    var i := 0;
    while i < |names|
      invariant 0 <= i <= |names|
      invariant present == ValidNames(colors, names[..i])
    {
      assert names[..i + 1][..i] == names[..i];
      if HasValidColor(colors, names[i]) {
        present := present + [names[i]];
      }
      i := i + 1;
    }
    assert names[..i] == names;
  }

  /** One more background adds at most its own issue. */
  lemma ContrastIssuesStep(primary: string, bgs: seq<string>, ratioOf: (string, string) -> real)
    requires bgs != []
    ensures var info := CheckColorAccessibility(Str(primary), Str(bgs[|bgs| - 1]), ratioOf);
      ContrastIssues(primary, bgs, ratioOf)
      == ContrastIssues(primary, bgs[..|bgs| - 1], ratioOf)
         + (if !info.aaCompliant then [ContrastIssue(primary, bgs[|bgs| - 1], info.contrastRatio)] else [])
  {
  }

  /** The loop over the backgrounds that records each one `primary` fails on. */
  method CollectContrastIssues(primary: string, bgs: seq<string>, ratioOf: (string, string) -> real)
    returns (issues: seq<ContrastIssue>)
    ensures issues == ContrastIssues(primary, bgs, ratioOf)
  {
    issues := [];
    var k := 0;
    while k < |bgs|
      invariant 0 <= k <= |bgs|
      invariant issues == ContrastIssues(primary, bgs[..k], ratioOf)
    {
      var bg := bgs[k];
      var info := CheckColorAccessibility(Str(primary), Str(bg), ratioOf);
      ContrastIssuesStep(primary, bgs[..k + 1], ratioOf);
      assert bgs[..k + 1][..k] == bgs[..k];
      if !info.aaCompliant {
        issues := issues + [ContrastIssue(primary, bg, info.contrastRatio)];
      }
      k := k + 1;
    }
    assert bgs[..k] == bgs;
  }

  lemma {:induction false} ValidNamesAppend(colors: Colors, a: seq<string>, b: seq<string>)
    ensures ValidNames(colors, a + b) == ValidNames(colors, a) + ValidNames(colors, b)
    decreases |b|
  {
    if b == [] {
      assert a + b == a;
    } else {
      var b' := b[..|b| - 1];
      assert (a + b)[..|a + b| - 1] == a + b';
      ValidNamesAppend(colors, a, b');
    }
  }

  /** The report `_validate_colors_section` builds, as a value. */
  function ColorsReportOf(colors: Colors, ratioOf: (string, string) -> real): ColorsReport {
    var valid := HasValidColor(colors, "primary");
    ColorsReport(
      valid,
      ValidNames(colors, RequiredColors + RecommendedColors),
      if valid then [] else ["primary"],
      if colors.primary.Some? then ContrastIssues(colors.primary.value, Backgrounds, ratioOf) else [])
  }

  /** `_validate_colors_section` */
  method ValidateColorsSection(colors: Colors, ratioOf: (string, string) -> real) returns (report: ColorsReport)
    ensures report == ColorsReportOf(colors, ratioOf)
    ensures report.valid <==> HasValidColor(colors, "primary")
    ensures report.missingRequired == if report.valid then [] else ["primary"]
    ensures report.requiredPresent == ValidNames(colors, RequiredColors + RecommendedColors)
    ensures colors.primary.None? ==> report.contrastIssues == []
    ensures colors.primary.Some? ==> report.contrastIssues == ContrastIssues(colors.primary.value, Backgrounds, ratioOf)
  {
    var required := CollectValidNames(colors, RequiredColors);
    assert ValidNames(colors, RequiredColors) == ValidNames(colors, []) + ValidNames(colors, ["primary"]) by {
      ValidNamesAppend(colors, [], ["primary"]);
    }
    var valid := required != [];
    var missing: seq<string> := if valid then [] else ["primary"];
    var recommended := CollectValidNames(colors, RecommendedColors);
    ValidNamesAppend(colors, RequiredColors, RecommendedColors);
    var issues: seq<ContrastIssue> := [];
    if colors.primary.Some? {
      issues := CollectContrastIssues(colors.primary.value, Backgrounds, ratioOf);
    }
    report := ColorsReport(valid, required + recommended, missing, issues);
  }

  // --------------------------------------------------------- typography section

  datatype TypographyReport = TypographyReport(
    valid: bool,
    fontsAvailable: seq<Value>,
    googleFontsValid: bool,
    fallbackChains: seq<Value>,
    scaleValid: bool)

  const TypeScales: seq<string> := ["1.125", "1.25", "1.333", "1.414", "1.5", "1.618"]

  /** `font.get(key)` is truthy. */
  predicate Truthy(v: Option<Value>) {
    v.Some? && v.value.Truthy()
  }

  /** The fallback of a named `font` as a one-element list when it is truthy. */
  function FallbackIfAny(font: Font): seq<Value> {
    if font.HasName() && Truthy(font.fallback) then [font.fallback.value] else []
  }

  /** `_validate_typography_section` */
  function ValidateTypographySection(t: Typography): (report: TypographyReport)
    ensures report.valid <==> t.Primary().HasName() || t.Secondary().HasName()
    ensures report.fontsAvailable == t.Primary().Names() + t.Secondary().Names()
    ensures report.googleFontsValid <==> t.Primary().HasName() && Truthy(t.Primary().googleFontsImport)
    ensures report.fallbackChains == FallbackIfAny(t.Primary()) + FallbackIfAny(t.Secondary())
    ensures |report.fallbackChains| <= |report.fontsAvailable|
    ensures report.scaleValid <==> t.scale.Some? && t.scale.value.Str? && t.scale.value.s in TypeScales
  {
    var primary := t.Primary();
    var secondary := t.Secondary();
    var fonts := primary.Names() + secondary.Names();
    TypographyReport(
      fonts != [],
      fonts,
      primary.HasName() && Truthy(primary.googleFontsImport),
      FallbackIfAny(primary) + FallbackIfAny(secondary),
      t.scale.Some? && t.scale.value.Str? && t.scale.value.s in TypeScales)
  }

  // --------------------------------------------------- style-preferences section

  datatype StyleReport = StyleReport(
    valid: bool,
    preferencesCount: nat,
    conflicts: set<string>,
    recommendations: seq<string>)

  const StyleRecommendation := "Consider specifying preferred or avoided styles for better personalization"

  /** `_validate_style_preferences_section` */
  function ValidateStylePreferencesSection(p: StylePreferences): (report: StyleReport)
    ensures report.valid <==> forall s :: s in p.Preferred() ==> s !in p.Avoided()
    ensures forall s :: s in report.conflicts <==> s in p.Preferred() && s in p.Avoided()
    ensures report.preferencesCount == |p.Preferred()| + |p.Avoided()|
    ensures report.recommendations != [] <==> p.Preferred() == [] && p.Avoided() == []
  {
    var preferred := p.Preferred();
    var avoided := p.Avoided();
    var conflicts := set s | s in preferred && s in avoided;
    assert conflicts == {} <==> forall s :: s in preferred ==> s !in avoided by {
      if s :| s in preferred && s in avoided {
        assert s in conflicts;
      }
    }
    StyleReport(
      conflicts == {},
      |preferred| + |avoided|,
      conflicts,
      if preferred == [] && avoided == [] then [StyleRecommendation] else [])
  }

  // ------------------------------------------------------------- whole profile

  datatype BrandError = MissingColorsSection | MissingTypographySection

  datatype BrandReport = BrandReport(
    valid: bool,
    errors: seq<BrandError>,
    completenessScore: real,
    colors: ColorsReport,
    typography: TypographyReport,
    stylePreferences: StyleReport)

  const NoColorsReport := ColorsReport(false, [], [], [])
  const NoTypographyReport := TypographyReport(false, [], false, [], false)
  const NoStyleReport := StyleReport(false, 0, {}, [])

  /** `validate_brand_config` */
  method ValidateBrandConfig(brand: BrandConfig, ratioOf: (string, string) -> real) returns (report: BrandReport)
    ensures var hasColors := !brand.ColorsSection().IsEmpty();
            var hasTypography := !brand.TypographySection().IsEmpty();
            var hasStyle := !brand.StyleSection().IsEmpty();
      && report.completenessScore
         == ((if hasColors then 4 else 0) + (if hasTypography then 4 else 0) + (if hasStyle then 2 else 0)) as real / 10.0
      && (report.valid <==>
           hasColors && HasValidColor(brand.ColorsSection(), "primary")
           && hasTypography && ValidateTypographySection(brand.TypographySection()).valid)
      && report.errors
         == (if hasColors then [] else [MissingColorsSection]) + (if hasTypography then [] else [MissingTypographySection])
      && (MissingColorsSection in report.errors <==> !hasColors)
      && (MissingTypographySection in report.errors <==> !hasTypography)
      && (hasColors ==> report.colors == ColorsReportOf(brand.ColorsSection(), ratioOf))
      && (!hasColors ==> report.colors == NoColorsReport)
      && (hasTypography ==> report.typography == ValidateTypographySection(brand.TypographySection()))
      && (!hasTypography ==> report.typography == NoTypographyReport)
      && (hasStyle ==> report.stylePreferences == ValidateStylePreferencesSection(brand.StyleSection()))
      && (!hasStyle ==> report.stylePreferences == NoStyleReport)
    ensures 0.0 <= report.completenessScore <= 1.0
    ensures report.errors != [] ==> !report.valid
  {
    var valid := true;
    var errors: seq<BrandError> := [];
    var points := 0;
    var colorsReport := NoColorsReport;
    var typographyReport := NoTypographyReport;
    var styleReport := NoStyleReport;

    var colors := brand.ColorsSection();
    if !colors.IsEmpty() {
      points := points + 4;
      colorsReport := ValidateColorsSection(colors, ratioOf);
      if !colorsReport.valid {
        valid := false;
      }
    } else {
      errors := errors + [MissingColorsSection];
      valid := false;
    }

    var typography := brand.TypographySection();
    if !typography.IsEmpty() {
      points := points + 4;
      typographyReport := ValidateTypographySection(typography);
      if !typographyReport.valid {
        valid := false;
      }
    } else {
      errors := errors + [MissingTypographySection];
      valid := false;
    }

    var style := brand.StyleSection();
    if !style.IsEmpty() {
      points := points + 2;
      styleReport := ValidateStylePreferencesSection(style);
    }

    report := BrandReport(valid, errors, points as real / 10.0, colorsReport, typographyReport, styleReport);
  }
}
