/** The brand profile and the search results brand_processor.py works on.
    A Python dict becomes a record with an `Option` per key the code reads,
    plus the set of the other keys present, so that "the dict is empty"
    (Python's `not d`) stays exact. */
module BrandTypes {
  import opened Common

  /** The `colors` section. Colour leaves are `str`. */
  datatype Colors = Colors(
    primary: Option<string>,
    secondary: Option<string>,
    accent: Option<string>,
    neutral: Option<Table>,
    semantic: Option<Table>,
    otherKeys: set<string>)
  {
    predicate IsEmpty() {
      primary.None? && secondary.None? && accent.None? && neutral.None? && semantic.None? && otherKeys == {}
    }
  }

  /** `primary_font` / `secondary_font`. */
  datatype Font = Font(name: Option<Value>, fallback: Option<Value>, googleFontsImport: Option<Value>)
  {
    /** `font.get("name")` is truthy. */
    predicate HasName() {
      name.Some? && name.value.Truthy()
    }
    /** The name as a one-element list when it is truthy. */
    function Names(): seq<Value> {
      if HasName() then [name.value] else []
    }
    /** `"'{name}', {fallback}"`, the font-family text written for a named
        font, with `default` when no fallback is given. */
    function Family(default: string): string
      requires HasName()
    {
      "'" + name.value.Render() + "', " + fallback.GetOr(Str(default)).Render()
    }
  }

  const NoFont := Font(None, None, None)

  /** The `typography` section. */
  datatype Typography = Typography(
    primaryFont: Option<Font>,
    secondaryFont: Option<Font>,
    scale: Option<Value>,
    lineHeights: Option<seq<(string, Value)>>,
    otherKeys: set<string>)
  {
    predicate IsEmpty() {
      primaryFont.None? && secondaryFont.None? && scale.None? && lineHeights.None? && otherKeys == {}
    }
    /** `typography.get("primary_font", {})` */
    function Primary(): Font {
      primaryFont.GetOr(NoFont)
    }
    /** `typography.get("secondary_font", {})` */
    function Secondary(): Font {
      secondaryFont.GetOr(NoFont)
    }
  }

  /** The `style_preferences` section. */
  datatype StylePreferences = StylePreferences(
    preferredStyles: Option<seq<string>>,
    avoidedStyles: Option<seq<string>>,
    designPhilosophy: Option<string>,
    otherKeys: set<string>)
  {
    predicate IsEmpty() {
      preferredStyles.None? && avoidedStyles.None? && designPhilosophy.None? && otherKeys == {}
    }
    function Preferred(): seq<string> {
      preferredStyles.GetOr([])
    }
    function Avoided(): seq<string> {
      avoidedStyles.GetOr([])
    }
    function Philosophy(): string {
      designPhilosophy.GetOr("")
    }
  }

  const NoColors := Colors(None, None, None, None, None, {})
  const NoTypography := Typography(None, None, None, None, {})
  const NoStylePreferences := StylePreferences(None, None, None, {})

  /** A whole brand profile. */
  datatype BrandConfig = BrandConfig(
    colors: Option<Colors>,
    typography: Option<Typography>,
    stylePreferences: Option<StylePreferences>,
    industry: Option<string>,
    otherKeys: set<string>)
  {
    predicate IsEmpty() {
      colors.None? && typography.None? && stylePreferences.None? && industry.None? && otherKeys == {}
    }
    /** `brand_config.get("colors", {})` */
    function ColorsSection(): Colors {
      colors.GetOr(NoColors)
    }
    /** `brand_config.get("typography", {})` */
    function TypographySection(): Typography {
      typography.GetOr(NoTypography)
    }
    /** `brand_config.get("style_preferences", {})` */
    function StyleSection(): StylePreferences {
      stylePreferences.GetOr(NoStylePreferences)
    }
  }

  /** The entries of `brand_applied["modifications"]`. */
  datatype Modification = ColorsReplaced | TypographyApplied

  /** The `brand_applied` record `apply_brand_config` attaches to a result. */
  datatype BrandApplied = BrandApplied(
    colorsReplaced: seq<(string, string)>,
    fontsApplied: seq<Value>,
    stylesFiltered: bool,
    industryContext: string,
    modifications: seq<Modification>)

  /** One search result. A missing `term`, `description`, `reasoning` or
      `code_example` is the empty string: every reader treats the two alike. */
  datatype SearchResult = SearchResult(
    term: string,
    description: string,
    reasoning: string,
    score: Option<real>,
    codeExample: string,
    brandApplied: Option<BrandApplied>)

  /** The numeric and regular-expression routines the processor calls but
      that are not modelled: HLS lightening and darkening by 0.2, the WCAG
      contrast ratio of two valid colours, and the three `re.sub` font
      rewrites, each given the font-family text it substitutes. */
  datatype Helpers = Helpers(
    lighten: string -> string,
    darken: string -> string,
    contrastRatio: (string, string) -> real,
    rewriteDeclarations: (string, string) -> string,
    rewriteSans: (string, string) -> string,
    rewriteMono: (string, string) -> string)
}
