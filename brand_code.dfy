/** Rewriting of code snippets with a brand: `_replace_colors_in_code`,
    `_apply_brand_colors`, `_replace_fonts_in_code`,
    `generate_css_variables` and `generate_brand_aware_examples`. */
module BrandCode {
  import opened Common
  import opened HexColor
  import opened BrandTypes

  /** `_lighten_color(hex, 0.2)`: colours that are not valid hex come back as they are. */
  function Lighten(hex: string, h: Helpers): (r: string)
    ensures !IsValidHexColor(Str(hex)) ==> r == hex
  {
    if IsValidHexColor(Str(hex)) then h.lighten(hex) else hex
  }

  /** `_darken_color(hex, 0.2)` */
  function Darken(hex: string, h: Helpers): (r: string)
    ensures !IsValidHexColor(Str(hex)) ==> r == hex
  {
    if IsValidHexColor(Str(hex)) then h.darken(hex) else hex
  }

  // -------------------------------------------------- colour substitution

  /** The `color_mapping` of `_replace_colors_in_code`, in its order: the
      default Tailwind colours and what the brand puts in their place. */
  function ColorMapping(colors: Colors, h: Helpers): (m: seq<(string, string)>)
    ensures |m| == 6
    ensures m[0].0 == "#3b82f6" && m[1].0 == "#1d4ed8" && m[2].0 == "#60a5fa"
    ensures m[3].0 == "#f59e0b" && m[4].0 == "#10b981" && m[5].0 == "#ef4444"
  {
    var semantic := colors.semantic.GetOr([]);
    [ ("#3b82f6", colors.primary.GetOr("#3b82f6")),
      ("#1d4ed8", colors.primary.GetOr("#1d4ed8")),
      ("#60a5fa", Lighten(colors.primary.GetOr("#60a5fa"), h)),
      ("#f59e0b", colors.accent.GetOr("#f59e0b")),
      ("#10b981", Get(semantic, "success").GetOr("#10b981")),
      ("#ef4444", Get(semantic, "error").GetOr("#ef4444")) ]
  }

  /** One step of the loop: replace `from` by `to` when it occurs and differs from it. */
  function Substitute(code: string, from: string, to: string): string {
    if from != [] && Contains(code, from) && from != to then ReplaceAll(code, from, to) else code
  }

  /** The substitutions of `mapping` applied one after the other. */
  function SubstituteAll(code: string, mapping: seq<(string, string)>): string {
    if mapping == [] then code
    else
      var (from, to) := mapping[|mapping| - 1];
      Substitute(SubstituteAll(code, mapping[..|mapping| - 1]), from, to)
  }

  /** Code in which no mapped colour occurs comes back unchanged. */
  lemma {:induction false} SubstituteAllAbsent(code: string, mapping: seq<(string, string)>)
    requires forall p :: p in mapping ==> !Contains(code, p.0)
    ensures SubstituteAll(code, mapping) == code
    decreases |mapping|
  {
    if mapping != [] {
      var init := mapping[..|mapping| - 1];
      assert forall p :: p in init ==> p in mapping;
      SubstituteAllAbsent(code, init);
      assert mapping[|mapping| - 1] in mapping;
    }
  }

  /** A colour mapped to itself never changes the code, whatever the others do. */
  lemma {:induction false} SubstituteAllIdentity(code: string, mapping: seq<(string, string)>)
    requires forall p :: p in mapping ==> p.0 == p.1
    ensures SubstituteAll(code, mapping) == code
    decreases |mapping|
  {
    if mapping != [] {
      var init := mapping[..|mapping| - 1];
      assert forall p :: p in init ==> p in mapping;
      SubstituteAllIdentity(code, init);
      assert mapping[|mapping| - 1] in mapping;
    }
  }

  /** `_replace_colors_in_code` */
  method ReplaceColorsInCode(code: string, colors: Colors, h: Helpers) returns (out: string)
    ensures out == SubstituteAll(code, ColorMapping(colors, h))
  {
    var mapping := ColorMapping(colors, h);
    out := code;
    var i := 0;
    while i < |mapping|
      invariant 0 <= i <= |mapping|
      invariant out == SubstituteAll(code, mapping[..i])
    {
      var (from, to) := mapping[i];
      assert mapping[..i + 1][..i] == mapping[..i];
      if Contains(out, from) && from != to {
        out := ReplaceAll(out, from, to);
      }
      i := i + 1;
    }
    assert mapping[..i] == mapping;
  }

  /** Without a colour the brand overrides, `_replace_colors_in_code` changes nothing. */
  lemma ReplaceColorsAbsent(code: string, colors: Colors, h: Helpers)
    requires forall i :: 0 <= i < 6 ==> !Contains(code, ColorMapping(colors, h)[i].0)
    ensures SubstituteAll(code, ColorMapping(colors, h)) == code
  {
    var m := ColorMapping(colors, h);
    forall p | p in m
      ensures !Contains(code, p.0)
    {
      var i :| 0 <= i < |m| && m[i] == p;
    }
    SubstituteAllAbsent(code, m);
  }

  // ------------------------------------------------- primary-blue substitution

  /** The blues `_apply_brand_colors` swaps for the primary colour. */
  const Blues: seq<string> := ["#3b82f6", "#2563eb", "#1d4ed8"]

  /** The code after swapping each of `blues` that occurs for `primary`, and
      the `(old, new)` pairs recorded, in order. */
  function SwapBlues(code: string, blues: seq<string>, primary: string): (r: (string, seq<(string, string)>))
    requires forall i :: 0 <= i < |blues| ==> blues[i] != []
    ensures |r.1| <= |blues|
    ensures forall i :: 0 <= i < |r.1| ==> r.1[i].0 in blues && r.1[i].1 == primary
    ensures r.1 == [] ==> r.0 == code
  {
    if blues == [] then (code, [])
    else
      var (prev, recorded) := SwapBlues(code, blues[..|blues| - 1], primary);
      var from := blues[|blues| - 1];
      if Contains(prev, from) then (ReplaceAll(prev, from, primary), recorded + [(from, primary)])
      else (prev, recorded)
  }

  /** Some blue is swapped exactly when the snippet contains one of the
      blues: up to the first blue it contains, nothing is replaced. */
  lemma {:induction false} SwapBluesRecordsIff(code: string, blues: seq<string>, primary: string)
    requires forall i :: 0 <= i < |blues| ==> blues[i] != []
    ensures SwapBlues(code, blues, primary).1 != [] <==> exists b :: b in blues && Contains(code, b)
    decreases |blues|
  {
    if blues != [] {
      var init := blues[..|blues| - 1];
      var from := blues[|blues| - 1];
      SwapBluesRecordsIff(code, init, primary);
      assert forall b :: b in init ==> b in blues;
      assert forall b :: b in blues ==> b in init || b == from;
    }
  }

  /** Swapping other blues of the same length never removes an occurrence of
      the blue `b`: two colour tokens cannot overlap. */
  lemma {:induction false} SwapBluesKeeps(code: string, blues: seq<string>, primary: string, b: string)
    requires forall i :: 0 <= i < |blues| ==> HashToken(blues[i]) && |blues[i]| == |b| && blues[i] != b
    requires HashToken(b) && Contains(code, b)
    ensures Contains(SwapBlues(code, blues, primary).0, b)
    decreases |blues|
  {
    if blues != [] {
      var init := blues[..|blues| - 1];
      SwapBluesKeeps(code, init, primary, b);
      var prev := SwapBlues(code, init, primary).0;
      var i :| 0 <= i <= |prev| - |b| && OccursAt(prev, b, i);
      ReplaceAllKeepsToken(prev, blues[|blues| - 1], primary, b, i);
    }
  }

  /** Every blue of the snippet is swapped and recorded, whatever the
      blues tried before it did. */
  lemma {:induction false} SwapBluesRecordsEvery(code: string, blues: seq<string>, primary: string, b: string)
    requires forall i :: 0 <= i < |blues| ==> blues[i] != [] && HashToken(blues[i]) && |blues[i]| == |b|
    requires forall i, j :: 0 <= i < j < |blues| ==> blues[i] != blues[j]
    requires b in blues && Contains(code, b)
    ensures (b, primary) in SwapBlues(code, blues, primary).1
    decreases |blues|
  {
    var init := blues[..|blues| - 1];
    var from := blues[|blues| - 1];
    if b == from {
      SwapBluesKeeps(code, init, primary, b);
    } else {
      assert b in init;
      SwapBluesRecordsEvery(code, init, primary, b);
    }
  }

  /** For a primary colour written as a `#` token of the blues' length and
      not itself one of them, the returned snippet holds none of the blues,
      and it holds the primary colour as soon as one swap was made. */
  lemma {:induction false} SwapBluesReplaced(code: string, blues: seq<string>, primary: string)
    requires forall i :: 0 <= i < |blues| ==> blues[i] != [] && HashToken(blues[i]) && |blues[i]| == |primary|
    requires HashToken(primary) && primary !in blues
    ensures SwapBlues(code, blues, primary).1 != [] ==> Contains(SwapBlues(code, blues, primary).0, primary)
    ensures forall b :: b in blues ==> !Contains(SwapBlues(code, blues, primary).0, b)
    decreases |blues|
  {
    if blues != [] {
      var init := blues[..|blues| - 1];
      var from := blues[|blues| - 1];
      SwapBluesReplaced(code, init, primary);
      var prev := SwapBlues(code, init, primary).0;
      assert forall b :: b in blues ==> b in init || b == from;
      if Contains(prev, from) {
        var next := ReplaceAll(prev, from, primary);
        ReplaceAllLeavesReplacement(prev, from, primary);
        forall b | b in blues
          ensures !Contains(next, b)
        {
          ReplaceAllNoToken(prev, from, primary, b);
        }
      }
    }
  }

  /** `primary_palette.get("primary")` is truthy: the brand has a non-empty primary colour. */
  predicate HasPrimary(colors: Colors) {
    colors.primary.Some? && colors.primary.value != ""
  }

  /** `_apply_brand_colors` as a function of the result and the colours section. */
  function BrandColorsApplied(result: SearchResult, colors: Colors): (r: SearchResult)
    ensures colors.IsEmpty() || result.codeExample == "" ==> r == result
    ensures r.term == result.term && r.description == result.description
      && r.reasoning == result.reasoning && r.score == result.score
    ensures r.brandApplied.Some? == result.brandApplied.Some?
  {
    if colors.IsEmpty() || result.codeExample == "" then result
    else
      var (code, replaced) :=
        if HasPrimary(colors) then SwapBlues(result.codeExample, Blues, colors.primary.value)
        else (result.codeExample, []);
      var applied :=
        if result.brandApplied.Some? then
          var b := result.brandApplied.value;
          Some(b.(colorsReplaced := replaced,
                  modifications := if replaced != [] then b.modifications + [ColorsReplaced] else b.modifications))
        else None;
      result.(codeExample := code, brandApplied := applied)
  }

  /** `_apply_brand_colors` */
  method ApplyBrandColors(result: SearchResult, colors: Colors) returns (r: SearchResult)
    ensures r == BrandColorsApplied(result, colors)
  {
    if colors.IsEmpty() || result.codeExample == "" {
      return result;
    }
    var code := result.codeExample;
    var replaced: seq<(string, string)> := [];
    if HasPrimary(colors) {
      var primary := colors.primary.value;
      var i := 0;
      while i < |Blues|
        invariant 0 <= i <= |Blues|
        invariant (code, replaced) == SwapBlues(result.codeExample, Blues[..i], primary)
      {
        var from := Blues[i];
        assert Blues[..i + 1][..i] == Blues[..i];
        if Contains(code, from) {
          code := ReplaceAll(code, from, primary);
          replaced := replaced + [(from, primary)];
        }
        i := i + 1;
      }
      assert Blues[..i] == Blues;
    }
    var applied := result.brandApplied;
    if applied.Some? {
      var b := applied.value;
      var modifications := b.modifications;
      if replaced != [] {
        modifications := modifications + [ColorsReplaced];
      }
      applied := Some(b.(colorsReplaced := replaced, modifications := modifications));
    }
    assert (code, replaced) == (if HasPrimary(colors) then SwapBlues(result.codeExample, Blues, colors.primary.value)
                                else (result.codeExample, []));
    r := result.(codeExample := code, brandApplied := applied);
  }

  /** The primary colour is a `#` token as long as the blues and is not one
      of them, as a six-digit hex colour other than the three blues is. */
  predicate PrimaryIsOtherToken(colors: Colors) {
    HasPrimary(colors) && HashToken(colors.primary.value) && |colors.primary.value| == 7
    && colors.primary.value !in Blues
  }

  /** A snippet that had one of the default blues comes back with the primary
      colour in its place, and with no default blue left. */
  lemma BrandColorsSwapped(result: SearchResult, colors: Colors)
    requires !colors.IsEmpty() && result.codeExample != "" && PrimaryIsOtherToken(colors)
    ensures forall bl :: bl in Blues ==> !Contains(BrandColorsApplied(result, colors).codeExample, bl)
    ensures (exists bl :: bl in Blues && Contains(result.codeExample, bl)) ==>
      Contains(BrandColorsApplied(result, colors).codeExample, colors.primary.value)
  {
    SwapBluesRecordsIff(result.codeExample, Blues, colors.primary.value);
    SwapBluesReplaced(result.codeExample, Blues, colors.primary.value);
  }

  /** The `colors_replaced` record lists each swapped blue once, in the
      order tried, each paired with the primary colour; the modification is
      logged exactly when something was swapped; code without any of the
      blues is left as it is. */
  lemma BrandColorsRecord(result: SearchResult, colors: Colors)
    requires !colors.IsEmpty() && result.codeExample != "" && result.brandApplied.Some?
    ensures var b := BrandColorsApplied(result, colors).brandApplied.value;
      && |b.colorsReplaced| <= 3
      && (forall i :: 0 <= i < |b.colorsReplaced| ==>
            b.colorsReplaced[i].0 in Blues && b.colorsReplaced[i].1 == colors.primary.value)
      && (b.colorsReplaced == [] ==> BrandColorsApplied(result, colors).codeExample == result.codeExample)
      && (!HasPrimary(colors) ==> b.colorsReplaced == [])
      && (ColorsReplaced in b.modifications <==>
            ColorsReplaced in result.brandApplied.value.modifications || b.colorsReplaced != [])
      && (b.colorsReplaced != [] <==>
            HasPrimary(colors) && exists bl :: bl in Blues && Contains(result.codeExample, bl))
      && (HasPrimary(colors) ==> forall bl :: bl in Blues && Contains(result.codeExample, bl) ==>
            (bl, colors.primary.value) in b.colorsReplaced)
      && (PrimaryIsOtherToken(colors) ==>
            (b.colorsReplaced != [] ==> Contains(BrandColorsApplied(result, colors).codeExample, colors.primary.value))
            && forall bl :: bl in Blues ==> !Contains(BrandColorsApplied(result, colors).codeExample, bl))
  {
    if HasPrimary(colors) {
      SwapBluesRecordsIff(result.codeExample, Blues, colors.primary.value);
      if PrimaryIsOtherToken(colors) {
        SwapBluesReplaced(result.codeExample, Blues, colors.primary.value);
      }
      forall bl | bl in Blues && Contains(result.codeExample, bl)
        ensures (bl, colors.primary.value) in SwapBlues(result.codeExample, Blues, colors.primary.value).1
      {
        SwapBluesRecordsEvery(result.codeExample, Blues, colors.primary.value, bl);
      }
    }
  }

  // ------------------------------------------------------------ font rewrites

  /** `_replace_fonts_in_code` over the regular-expression rewrites it calls. */
  function ReplaceFonts(code: string, t: Typography, h: Helpers): (r: string)
    ensures !t.Primary().HasName() && !t.Secondary().HasName() ==> r == code
  {
    var sans := if t.Primary().HasName() then h.rewriteSans(code, t.Primary().Family("sans-serif")) else code;
    if t.Secondary().HasName() then h.rewriteMono(sans, t.Secondary().Family("monospace")) else sans
  }

  // ------------------------------------------------------------ CSS variables

  /** `"  --{prefix}{key}: {value};"` for each entry of a dict, in order. */
  function EntryLines(prefix: string, entries: Table): (lines: seq<string>)
    ensures |lines| == |entries|
    ensures forall i :: 0 <= i < |entries| ==>
      lines[i] == "  --" + prefix + entries[i].0 + ": " + entries[i].1 + ";"
  {
    seq(|entries|, i requires 0 <= i < |entries| => "  --" + prefix + entries[i].0 + ": " + entries[i].1 + ";")
  }

  /** The lines for the three named colours. */
  function PaletteLines(colors: Colors, h: Helpers): seq<string> {
    (if colors.primary.Some? then
       var p := colors.primary.value;
       ["  --color-primary: " + p + ";",
        "  --color-primary-light: " + Lighten(p, h) + ";",
        "  --color-primary-dark: " + Darken(p, h) + ";"]
     else [])
    + (if colors.secondary.Some? then
         var s := colors.secondary.value;
         ["  --color-secondary: " + s + ";",
          "  --color-secondary-light: " + Lighten(s, h) + ";",
          "  --color-secondary-dark: " + Darken(s, h) + ";"]
       else [])
    + (if colors.accent.Some? then ["  --color-accent: " + colors.accent.value + ";"] else [])
  }

  /** The colour lines: the palette, then one line per neutral and per semantic colour. */
  function ColorLines(colors: Colors, h: Helpers): seq<string> {
    PaletteLines(colors, h)
    + EntryLines("color-", colors.neutral.GetOr([]))
    + EntryLines("color-", colors.semantic.GetOr([]))
  }

  /** `"{key}: {value}"` with the values rendered as `str()` renders them. */
  function Rendered(entries: seq<(string, Value)>): (t: Table)
    ensures |t| == |entries|
    ensures forall i :: 0 <= i < |entries| ==> t[i] == (entries[i].0, entries[i].1.Render())
  {
    seq(|entries|, i requires 0 <= i < |entries| => (entries[i].0, entries[i].1.Render()))
  }

  /** The typography lines: fonts with their fallbacks, the scale, the line heights. */
  function TypographyLines(t: Typography): seq<string> {
    FontLines(t) + EntryLines("line-height-", Rendered(t.lineHeights.GetOr([])))
  }

  /** The font and scale lines. */
  function FontLines(t: Typography): seq<string> {
    (if t.Primary().HasName() then ["  --font-primary: " + t.Primary().Family("sans-serif") + ";"] else [])
    + (if t.Secondary().HasName() then ["  --font-secondary: " + t.Secondary().Family("monospace") + ";"] else [])
    + (if t.scale.Some? then ["  --type-scale: " + t.scale.value.Render() + ";"] else [])
  }

  /** The lines of the `:root` block. */
  function CssLines(brand: BrandConfig, h: Helpers): seq<string> {
    var colors := brand.ColorsSection();
    var t := brand.TypographySection();
    [":root {"]
    + (if !colors.IsEmpty() then ColorLines(colors, h) else [])
    + (if !t.IsEmpty() then TypographyLines(t) else [])
    + ["}"]
  }

  /** The text `generate_css_variables` returns. */
  function CssText(brand: BrandConfig, h: Helpers): string {
    Join(CssLines(brand, h), "\n")
  }

  /** The block opens with `:root {` and closes with `}`, each on its own line. */
  lemma CssFrame(brand: BrandConfig, h: Helpers)
    ensures var css := CssText(brand, h);
      && StartsWith(css, ":root {\n")
      && |css| >= 2 && css[|css| - 2..] == "\n}"
      && Contains(css, ":root")
  {
    var lines := CssLines(brand, h);
    var css := CssText(brand, h);
    assert |lines| >= 2 && lines[0] == ":root {" && lines[|lines| - 1] == "}";
    assert css == lines[0] + "\n" + Join(lines[1..], "\n");
    JoinLast(lines, "\n");
    assert css[..5] == ":root";
    assert OccursAt(css, ":root", 0);
  }

  /** The colour lines hold the palette, then one line per neutral and per
      semantic colour, in the order of their dicts. */
  lemma ColorLinesEntries(colors: Colors, h: Helpers)
    ensures var lines := ColorLines(colors, h);
      var neutral := colors.neutral.GetOr([]);
      var semantic := colors.semantic.GetOr([]);
      var start := |PaletteLines(colors, h)|;
      && start + |neutral| + |semantic| == |lines|
      && (forall i :: 0 <= i < |neutral| ==>
            lines[start + i] == "  --color-" + neutral[i].0 + ": " + neutral[i].1 + ";")
      && (forall i :: 0 <= i < |semantic| ==>
            lines[start + |neutral| + i] == "  --color-" + semantic[i].0 + ": " + semantic[i].1 + ";")
  {
    var palette := PaletteLines(colors, h);
    var neutral := EntryLines("color-", colors.neutral.GetOr([]));
    var semantic := EntryLines("color-", colors.semantic.GetOr([]));
    assert ColorLines(colors, h) == palette + neutral + semantic;
  }

  /** With a non-empty colours section, the `:root` block holds the colour
      lines right after its opening line. */
  lemma CssColorLines(brand: BrandConfig, h: Helpers)
    requires !brand.ColorsSection().IsEmpty()
    ensures var lines := CssLines(brand, h);
      var c := ColorLines(brand.ColorsSection(), h);
      && 1 + |c| < |lines|
      && lines[1..1 + |c|] == c
  {
    var lines := CssLines(brand, h);
    var c := ColorLines(brand.ColorsSection(), h);
    var t := brand.TypographySection();
    var rest := (if !t.IsEmpty() then TypographyLines(t) else []) + ["}"];
    assert lines == [":root {"] + c + rest;
    assert lines[1..1 + |c|] == c;
  }

  /** `generate_css_variables` */
  method GenerateCssVariables(brand: BrandConfig, h: Helpers) returns (css: string)
    ensures css == CssText(brand, h)
  {
    var lines: seq<string> := [":root {"];
    var colors := brand.ColorsSection();
    if !colors.IsEmpty() {
      lines := AppendColors(lines, colors, h);
    }
    var t := brand.TypographySection();
    if !t.IsEmpty() {
      lines := AppendTypography(lines, t);
    }
    lines := lines + ["}"];
    assert lines == CssLines(brand, h);
    css := Join(lines, "\n");
  }

  /** The colour part of `generate_css_variables`. */
  method AppendColors(lines: seq<string>, colors: Colors, h: Helpers) returns (out: seq<string>)
    ensures out == lines + ColorLines(colors, h)
  {
    var palette := PaletteLines(colors, h);
    out := lines + palette;
    var neutral := colors.neutral.GetOr([]);
    var semantic := colors.semantic.GetOr([]);
    out := AppendEntries(out, "color-", neutral);
    out := AppendEntries(out, "color-", semantic);
    assert out == lines + (palette + EntryLines("color-", neutral) + EntryLines("color-", semantic));
  }

  /** The typography part of `generate_css_variables`. */
  method AppendTypography(lines: seq<string>, t: Typography) returns (out: seq<string>)
    ensures out == lines + TypographyLines(t)
  {
    out := AppendFonts(lines, t);
    var heights := Rendered(t.lineHeights.GetOr([]));
    out := AppendEntries(out, "line-height-", heights);
    assert out == lines + (FontLines(t) + EntryLines("line-height-", heights));
  }

  /** The font and scale lines of `generate_css_variables`. */
  method AppendFonts(lines: seq<string>, t: Typography) returns (out: seq<string>)
    ensures out == lines + FontLines(t)
  {
    var fonts: seq<string> := [];
    if t.Primary().HasName() {
      fonts := fonts + ["  --font-primary: " + t.Primary().Family("sans-serif") + ";"];
    }
    if t.Secondary().HasName() {
      fonts := fonts + ["  --font-secondary: " + t.Secondary().Family("monospace") + ";"];
    }
    if t.scale.Some? {
      fonts := fonts + ["  --type-scale: " + t.scale.value.Render() + ";"];
    }
    out := lines + fonts;
  }

  /** The `for key, value in d.items(): css_lines.append(...)` loops. */
  method AppendEntries(lines: seq<string>, prefix: string, entries: Table) returns (out: seq<string>)
    ensures out == lines + EntryLines(prefix, entries)
  {
    out := lines;
    var i := 0;
    while i < |entries|
      invariant 0 <= i <= |entries|
      invariant out == lines + EntryLines(prefix, entries[..i])
    {
      var (key, value) := entries[i];
      out := out + ["  --" + prefix + key + ": " + value + ";"];
      i := i + 1;
      assert EntryLines(prefix, entries[..i]) == EntryLines(prefix, entries[..i - 1]) + [EntryLines(prefix, entries[..i])[i - 1]];
    }
    assert entries[..i] == entries;
  }

  // ------------------------------------------------------ brand-aware examples

  /** The code after the colour and font rewrites, before any CSS block is added. */
  function RewrittenCode(code: string, brand: BrandConfig, h: Helpers): string {
    var colors := brand.ColorsSection();
    var t := brand.TypographySection();
    var withColors := if !colors.IsEmpty() then SubstituteAll(code, ColorMapping(colors, h)) else code;
    if !t.IsEmpty() then ReplaceFonts(withColors, t, h) else withColors
  }

  /** The `code_example` `generate_brand_aware_examples` produces. */
  function BrandAwareCode(code: string, brand: BrandConfig, h: Helpers): (r: string)
    ensures code == "" ==> r == code
    ensures code != "" ==>
      var rewritten := RewrittenCode(code, brand, h);
      || r == rewritten
      || (&& r == CssText(brand, h) + "\n\n" + rewritten
          && Contains(Lower(rewritten), "css") && !Contains(rewritten, ":root"))
    ensures code != "" && Contains(RewrittenCode(code, brand, h), ":root") ==> r == RewrittenCode(code, brand, h)
  {
    if code == "" then code
    else
      var rewritten := RewrittenCode(code, brand, h);
      if Contains(Lower(rewritten), "css") || Contains(rewritten, ":root") then
        var css := CssText(brand, h);
        if css != "" && !Contains(rewritten, ":root") then css + "\n\n" + rewritten else rewritten
      else rewritten
  }

  /** `generate_brand_aware_examples` */
  method GenerateBrandAwareExamples(result: SearchResult, brand: BrandConfig, h: Helpers) returns (r: SearchResult)
    ensures r == result.(codeExample := BrandAwareCode(result.codeExample, brand, h))
  {
    if result.codeExample == "" {
      return result;
    }
    var code := result.codeExample;
    var colors := brand.ColorsSection();
    var t := brand.TypographySection();
    if !colors.IsEmpty() {
      code := ReplaceColorsInCode(code, colors, h);
    }
    if !t.IsEmpty() {
      code := ReplaceFonts(code, t, h);
    }
    if Contains(Lower(code), "css") || Contains(code, ":root") {
      var css := GenerateCssVariables(brand, h);
      if css != "" && !Contains(code, ":root") {
        code := css + "\n\n" + code;
      }
    }
    r := result.(codeExample := code);
  }

  /** A CSS snippet ends up with exactly the `:root` block it already had, or
      with the brand's block in front: either way it contains `:root`. */
  lemma BrandAwareHasRoot(code: string, brand: BrandConfig, h: Helpers)
    requires code != ""
    ensures var rewritten := RewrittenCode(code, brand, h);
      var r := BrandAwareCode(code, brand, h);
      && (Contains(Lower(rewritten), "css") || Contains(rewritten, ":root") ==> Contains(r, ":root"))
      && (r != rewritten ==> StartsWith(r, ":root {\n"))
  {
    CssFrame(brand, h);
    var rewritten := RewrittenCode(code, brand, h);
    var r := BrandAwareCode(code, brand, h);
    var css := CssText(brand, h);
    if r != rewritten {
      assert r == css + "\n\n" + rewritten;
      assert r[..8] == css[..8];
      assert r[..5] == css[..5];
      assert OccursAt(r, ":root", 0);
    }
  }
}
