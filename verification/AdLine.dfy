/** Fitting an ad into one terminal line (packages/protocol/src/sanitize.ts), link shape `plain`. */
module AdLine {
  import opened Common

  const ESC: char := '\U{1B}'
  const GLYPH: string := "\U{2736}"
  const ELLIPSIS: char := '\U{2026}'
  const SEP: string := " \U{2014} "
  const CTA_SEP: string := " \U{B7} "
  const SCHEME: string := "https://"
  const BRAND_LIMIT: int := 20
  const TEXT_LIMIT: int := 60
  const CTA_LIMIT: int := 30

  /** Columns one code point takes: none for marks, two for wide scripts and emoji. */
  function CharWidth(c: char): (w: nat)
    ensures w <= 2
  {
    var cp := c as int;
    if 0x0300 <= cp <= 0x036F || 0xFE00 <= cp <= 0xFE0F then 0
    else if 0x1100 <= cp <= 0x115F || 0x2E80 <= cp <= 0xA4CF || 0xAC00 <= cp <= 0xD7A3
            || 0xF900 <= cp <= 0xFAFF || 0xFF00 <= cp <= 0xFF60 || 0x1F300 <= cp <= 0x1FAFF then 2
    else 1
  }

  /** `displayWidth`, as a sum. */
  function Width(s: string): nat { if |s| == 0 then 0 else Width(s[..|s| - 1]) + CharWidth(s[|s| - 1]) }

  lemma {:induction false} WidthPlus(s: string, t: string)
    ensures Width(s + t) == Width(s) + Width(t)
  {
    if |t| == 0 {
      assert s + t == s;
    } else {
      assert (s + t)[..|s + t| - 1] == s + t[..|t| - 1];
      WidthPlus(s, t[..|t| - 1]);
    }
  }

  method DisplayWidth(s: string) returns (w: nat)
    ensures w == Width(s)
  {
    w := 0;
    for i := 0 to |s|
      invariant w == Width(s[..i])
    {
      assert s[..i + 1][..i] == s[..i];
      var cp := s[i] as int;
      if 0x0300 <= cp <= 0x036F { continue; }
      if 0xFE00 <= cp <= 0xFE0F { continue; }
      if 0x1100 <= cp <= 0x115F || 0x2E80 <= cp <= 0xA4CF || 0xAC00 <= cp <= 0xD7A3
         || 0xF900 <= cp <= 0xFAFF || 0xFF00 <= cp <= 0xFF60 || 0x1F300 <= cp <= 0x1FAFF {
        w := w + 2;
        continue;
      }
      w := w + 1;
    }
    assert s[..|s|] == s;
  }

  /* ---------- truncating ---------- */

  /** White space as `trimEnd` knows it. */
  predicate IsSpace(c: char)
  {
    var cp := c as int;
    9 <= cp <= 13 || cp == 32 || cp == 0xA0 || cp == 0x1680 || 0x2000 <= cp <= 0x200A
    || cp == 0x2028 || cp == 0x2029 || cp == 0x202F || cp == 0x205F || cp == 0x3000 || cp == 0xFEFF
  }

  function TrimEnd(s: string): (r: string)
    ensures r <= s
  {
    if |s| > 0 && IsSpace(s[|s| - 1]) then TrimEnd(s[..|s| - 1]) else s
  }

  /** The longest prefix that is no wider than the limit. */
  function Fitting(s: string, limit: int, from: nat): (n: nat)
    requires from <= |s|
    ensures from <= n <= |s|
    decreases |s| - from
  {
    if from < |s| && Width(s[..from + 1]) <= limit then Fitting(s, limit, from + 1) else from
  }

  function Truncated(s: string, max: int): string
  {
    if max <= 0 then ""
    else if Width(s) <= max then s
    else TrimEnd(s[..Fitting(s, max - 1, 0)]) + [ELLIPSIS]
  }

  method Truncate(s: string, max: int) returns (r: string)
    ensures r == Truncated(s, max)
  {
    if max <= 0 {
      return "";
    }
    var whole := DisplayWidth(s);
    if whole <= max {
      return s;
    }
    var out: string := "";
    var i := 0;
    while i < |s|
      invariant i <= |s| && out == s[..i]
      invariant Fitting(s, max - 1, 0) == Fitting(s, max - 1, i)
    {
      assert s[..i + 1] == out + [s[i]];
      var w := DisplayWidth(out + [s[i]]);
      if w > max - 1 {
        break;
      }
      out := out + [s[i]];
      i := i + 1;
    }
    r := TrimEnd(out) + [ELLIPSIS];
  }

  lemma {:induction false} FittingFits(s: string, limit: int, from: nat)
    requires from <= |s| && Width(s[..from]) <= limit
    ensures Width(s[..Fitting(s, limit, from)]) <= limit
    ensures var n := Fitting(s, limit, from); n < |s| ==> Width(s[..n + 1]) > limit
    decreases |s| - from
  {
    if from < |s| && Width(s[..from + 1]) <= limit {
      FittingFits(s, limit, from + 1);
    }
  }

  lemma {:induction false} PrefixIsNarrower(p: string, s: string)
    requires p <= s
    ensures Width(p) <= Width(s)
  {
    WidthPlus(p, s[|p|..]);
    assert p + s[|p|..] == s;
  }

  /**
    Truncating never exceeds the limit, keeps what fits, and otherwise keeps a beginning: everything
    that fits before the mark, but for white space at its end.
    */
  lemma {:induction false} TruncateFits(s: string, max: int)
    ensures Width(Truncated(s, max)) <= Max0(max)
    ensures max > 0 && Width(s) <= max ==> Truncated(s, max) == s
    ensures max > 0 && Width(s) > max ==>
              exists n :: 0 <= n < |s| && Truncated(s, max) == TrimEnd(s[..n]) + [ELLIPSIS]
                          && Width(s[..n]) <= max - 1 < Width(s[..n + 1])
    ensures forall c :: c in Truncated(s, max) ==> c in s || c == ELLIPSIS
  {
    if max > 0 && Width(s) > max {
      var n := Fitting(s, max - 1, 0);
      assert s[..0] == "";
      FittingFits(s, max - 1, 0);
      assert s[..|s|] == s;
      PrefixIsNarrower(TrimEnd(s[..n]), s[..n]);
      assert CharWidth(ELLIPSIS) == 1;
    }
  }

  /* ---------- the line ---------- */

  /** Code points that end the line or take the terminal over: controls, zero-width, bidirectional, separators. */
  predicate Unsafe(c: char)
  {
    var cp := c as int;
    cp <= 0x1F || cp == 0x7F || 0x80 <= cp <= 0x9F || 0x200B <= cp <= 0x200F || 0x202A <= cp <= 0x202E
    || 0x2066 <= cp <= 0x2069 || cp == 0x2028 || cp == 0x2029 || cp == 0xFEFF
  }

  predicate Clean(s: string) { forall i :: 0 <= i < |s| ==> !Unsafe(s[i]) }

  datatype Creative = Creative(brand: string, text: string, cta: Option<string>)

  datatype Line = Line(ansi: string, plain: string, width: nat)

  datatype Rendered = Ok(line: Line) | SanitizeError

  const GLYPH_STYLE: string := [ESC] + "[38;5;208m"
  const BRAND_STYLE: string := [ESC] + "[1m"
  const DIM_STYLE: string := [ESC] + "[2m"
  const RESET: string := [ESC] + "[0m"

  function Prefixed(brand: string): string { GLYPH + " " + brand + SEP }

  function Tail(cta: string): string { if cta == "" then "" else CTA_SEP + SCHEME + cta }

  /** Text and call to action as they fit: the call to action goes first, then the text is cut. */
  function Fit(fixed: nat, text: string, cta: string, columns: int): (string, string)
  {
    var budget := Max(20, columns - 1);
    var outCta := if fixed + Width(text) + Width(Tail(cta)) > budget then "" else cta;
    var outText := if fixed + Width(text) > budget then Truncated(text, Max(3, budget - fixed)) else text;
    (outText, outCta)
  }

  /** `renderAdLine`. Unicode normalisation is a parameter. */
  method RenderAdLine(creative: Creative, columns: int, normalize: string -> string) returns (r: Rendered)
    ensures r == Render(creative, columns, normalize)
  {
    if !Clean(creative.brand) || !Clean(creative.text) || (creative.cta.Some? && !Clean(creative.cta.value)) {
      return SanitizeError;
    }
    var brand := Truncate(normalize(creative.brand), BRAND_LIMIT);
    var text := Truncate(normalize(creative.text), TEXT_LIMIT);
    var cta: string := "";
    if creative.cta.Some? && creative.cta.value != "" {
      cta := Truncate(normalize(creative.cta.value), CTA_LIMIT);
    }
    if brand == "" || text == "" {
      return SanitizeError;
    }
    var fixed := DisplayWidth(GLYPH + " " + brand + SEP);
    var outText, outCta := FitParts(fixed, text, cta, columns);
    r := Compose(brand, outText, outCta);
  }

  /** Shortens on plain text only; styles come last. */
  method FitParts(fixed: nat, text: string, cta: string, columns: int) returns (outText: string, outCta: string)
    ensures (outText, outCta) == Fit(fixed, text, cta, columns)
  {
    var budget := if columns - 1 > 20 then columns - 1 else 20;
    outText, outCta := text, cta;
    var textWidth := DisplayWidth(text);
    var ctaWidth := 0;
    if cta != "" {
      ctaWidth := DisplayWidth(CTA_SEP + SCHEME + cta);
    }
    if fixed + textWidth + ctaWidth > budget {
      outCta := "";
    }
    if fixed + textWidth > budget {
      outText := Truncate(text, if budget - fixed > 3 then budget - fixed else 3);
    }
  }

  method Compose(brand: string, text: string, cta: string) returns (r: Rendered)
    ensures r == Ok(Composed(brand, text, cta))
  {
    var tail := if cta != "" then CTA_SEP + SCHEME + cta else "";
    var plain := GLYPH + " " + brand + SEP + text + tail;
    var end := if cta != "" then DIM_STYLE + (tail + RESET) else "";
    var ansi := GLYPH_STYLE + (GLYPH + (RESET + (" " + (BRAND_STYLE + (brand + (RESET + (SEP + (text + end))))))));
    var width := DisplayWidth(plain);
    r := Ok(Line(ansi, plain, width));
  }

  function Composed(brand: string, text: string, cta: string): Line
  {
    var plain := Prefixed(brand) + text + Tail(cta);
    Line(Styled(brand, text, cta), plain, Width(plain))
  }

  function Parts(creative: Creative, normalize: string -> string): (string, string, string)
  {
    (Truncated(normalize(creative.brand), BRAND_LIMIT), Truncated(normalize(creative.text), TEXT_LIMIT),
     if creative.cta.Some? && creative.cta.value != "" then Truncated(normalize(creative.cta.value), CTA_LIMIT) else "")
  }

  function Styled(brand: string, text: string, cta: string): string
  {
    var end := if cta != "" then DIM_STYLE + (Tail(cta) + RESET) else "";
    GLYPH_STYLE + (GLYPH + (RESET + (" " + (BRAND_STYLE + (brand + (RESET + (SEP + (text + end))))))))
  }

  function Render(creative: Creative, columns: int, normalize: string -> string): Rendered
  {
    var (brand, text, cta) := Parts(creative, normalize);
    if !Clean(creative.brand) || !Clean(creative.text) || (creative.cta.Some? && !Clean(creative.cta.value))
       || brand == "" || text == "" then SanitizeError
    else
      var (outText, outCta) := Fit(Width(Prefixed(brand)), text, cta, columns);
      Ok(Composed(brand, outText, outCta))
  }

  /* ---------- main results ---------- */

  lemma {:induction false} FixedWidth(brand: string)
    ensures Width(Prefixed(brand)) == Width(brand) + 5
  {
    WidthPlus(GLYPH + " " + brand, SEP);
    WidthPlus(GLYPH + " ", brand);
    assert GLYPH + " " == "" + [GLYPH[0]] + [' '];
    assert SEP == "" + [' '] + [SEP[1]] + [' '];
  }

  /**
    The line keeps the disclosure mark and the whole brand, and its width is at most the larger of the
    budget and what the fixed part and three columns take; so from 29 columns on it fits the terminal.
    */
  lemma {:induction false} LineFits(creative: Creative, columns: int, normalize: string -> string)
    requires Render(creative, columns, normalize).Ok?
    ensures var line := Render(creative, columns, normalize).line;
            var brand := Parts(creative, normalize).0;
            && line.width == Width(line.plain)
            && line.width <= Max(Max(20, columns - 1), Width(Prefixed(brand)) + 3)
            && (columns >= 29 ==> line.width <= columns - 1)
            && brand != "" && Width(brand) <= BRAND_LIMIT && Prefixed(brand) <= line.plain
  {
    var (brand, text, cta) := Parts(creative, normalize);
    TruncateFits(normalize(creative.brand), BRAND_LIMIT);
    FixedWidth(brand);
    FitFits(Width(Prefixed(brand)), text, cta, columns);
    var (outText, outCta) := Fit(Width(Prefixed(brand)), text, cta, columns);
    hide Fit, Truncated, Tail, Prefixed, Styled;
    ComposedWidth(brand, outText, outCta);
  }

  lemma {:induction false} ComposedWidth(brand: string, text: string, cta: string)
    ensures var line := Composed(brand, text, cta);
            && line.width == Width(Prefixed(brand)) + Width(text) + Width(Tail(cta)) == Width(line.plain)
            && Prefixed(brand) <= line.plain
  {
    var head, tail := Prefixed(brand), Tail(cta);
    WidthPlus(head + text, tail);
    WidthPlus(head, text);
    hide Prefixed, Tail, Width, Styled;
    assert head <= head + text;
  }

  lemma {:induction false} FitFits(fixed: nat, text: string, cta: string, columns: int)
    ensures var (outText, outCta) := Fit(fixed, text, cta, columns);
            fixed + Width(outText) + Width(Tail(outCta)) <= Max(Max(20, columns - 1), fixed + 3)
  {
    TruncateFits(text, Max(3, Max(20, columns - 1) - fixed));
    hide Truncated;
    assert Width(Tail("")) == 0;
  }

  /** Length of the parameters of an escape sequence, up to its final letter. */
  function ParametersOf(s: string): (n: nat)
    ensures n <= |s|
  {
    if |s| > 0 && ('0' <= s[0] <= '9' || s[0] == ';') then 1 + ParametersOf(s[1..]) else 0
  }

  /** Removes every SGR sequence: escape, bracket, parameters, `m` (section 8.3.117 of ECMA-48). */
  function WithoutSgr(s: string): string
  {
    if |s| == 0 then ""
    else if s[0] == ESC && |s| > 1 && s[1] == '[' then
      var n := ParametersOf(s[2..]);
      if 2 + n < |s| && s[2 + n] == 'm' then WithoutSgr(s[3 + n..]) else [s[0]] + WithoutSgr(s[1..])
    else [s[0]] + WithoutSgr(s[1..])
  }

  predicate NoEscape(s: string) { ESC !in s }

  lemma {:induction false} PlainStays(u: string, t: string)
    requires NoEscape(u)
    ensures WithoutSgr(u + t) == u + WithoutSgr(t)
  {
    if |u| > 0 {
      assert (u + t)[1..] == u[1..] + t;
      PlainStays(u[1..], t);
    } else {
      assert u + t == t;
    }
  }

  /** A sequence of one of our styles disappears. */
  lemma {:induction false} StyleGoes(parameters: string, t: string)
    requires forall i :: 0 <= i < |parameters| ==> '0' <= parameters[i] <= '9' || parameters[i] == ';'
    ensures WithoutSgr([ESC] + "[" + parameters + "m" + t) == WithoutSgr(t)
  {
    var s := [ESC] + "[" + parameters + "m" + t;
    assert s[2..] == parameters + ("m" + t);
    ParametersEnd(parameters, "m" + t);
    assert s[3 + |parameters|..] == t;
  }

  lemma {:induction false} ParametersEnd(parameters: string, rest: string)
    requires forall i :: 0 <= i < |parameters| ==> '0' <= parameters[i] <= '9' || parameters[i] == ';'
    requires |rest| > 0 && rest[0] == 'm'
    ensures ParametersOf(parameters + rest) == |parameters|
  {
    if |parameters| > 0 {
      assert (parameters + rest)[1..] == parameters[1..] + rest;
      ParametersEnd(parameters[1..], rest);
    } else {
      assert parameters + rest == rest;
    }
  }

  lemma {:induction false} StylesGo(t: string)
    ensures WithoutSgr(GLYPH_STYLE + t) == WithoutSgr(t) && WithoutSgr(BRAND_STYLE + t) == WithoutSgr(t)
    ensures WithoutSgr(DIM_STYLE + t) == WithoutSgr(t) && WithoutSgr(RESET + t) == WithoutSgr(t)
  {
    hide WithoutSgr;
    GlyphStyleGoes(t);
    BrandStyleGoes(t);
    DimStyleGoes(t);
    ResetGoes(t);
  }

  lemma {:induction false} GlyphStyleGoes(t: string)
    ensures WithoutSgr(GLYPH_STYLE + t) == WithoutSgr(t)
  {
    hide WithoutSgr;
    StyleGoes("38;5;208", t);
    assert GLYPH_STYLE + t == [ESC] + "[" + "38;5;208" + "m" + t;
  }

  lemma {:induction false} BrandStyleGoes(t: string)
    ensures WithoutSgr(BRAND_STYLE + t) == WithoutSgr(t)
  {
    hide WithoutSgr;
    StyleGoes("1", t);
    assert BRAND_STYLE + t == [ESC] + "[" + "1" + "m" + t;
  }

  lemma {:induction false} DimStyleGoes(t: string)
    ensures WithoutSgr(DIM_STYLE + t) == WithoutSgr(t)
  {
    hide WithoutSgr;
    StyleGoes("2", t);
    assert DIM_STYLE + t == [ESC] + "[" + "2" + "m" + t;
  }

  lemma {:induction false} ResetGoes(t: string)
    ensures WithoutSgr(RESET + t) == WithoutSgr(t)
  {
    hide WithoutSgr;
    StyleGoes("0", t);
    assert RESET + t == [ESC] + "[" + "0" + "m" + t;
  }

  /** Stripping the styles we add from a line of clean parts gives the plain line. */
  lemma {:induction false} StylesOnlyStyle(brand: string, text: string, cta: string)
    requires NoEscape(brand) && NoEscape(text) && NoEscape(cta)
    ensures WithoutSgr(Styled(brand, text, cta)) == Prefixed(brand) + text + Tail(cta)
  {
    var end := if cta != "" then DIM_STYLE + (Tail(cta) + RESET) else "";
    EndGoes(cta);
    PlainNesting(brand, text, Tail(cta));
    hide WithoutSgr, Tail, Prefixed;
    forall t: string
      ensures WithoutSgr(GLYPH_STYLE + t) == WithoutSgr(t) && WithoutSgr(BRAND_STYLE + t) == WithoutSgr(t)
              && WithoutSgr(RESET + t) == WithoutSgr(t) {
      StylesGo(t);
    }
    StylesAround(GLYPH_STYLE, BRAND_STYLE, RESET, GLYPH, " ", brand, SEP, text, end);
  }

  lemma {:induction false} PlainNesting(brand: string, text: string, tail: string)
    ensures GLYPH + (" " + (brand + (SEP + (text + tail)))) == Prefixed(brand) + text + tail
  {}

  lemma {:induction false} EndGoes(cta: string)
    requires NoEscape(cta)
    ensures WithoutSgr(if cta != "" then DIM_STYLE + (Tail(cta) + RESET) else "") == Tail(cta)
  {
    if cta != "" {
      DimStyleGoes(Tail(cta) + RESET);
      PlainStays(Tail(cta), RESET);
      ResetGoes("");
      assert WithoutSgr("") == "";
      hide WithoutSgr;
      assert RESET + "" == RESET;
    }
  }

  lemma {:induction false} StylesAround(g: string, b: string, r: string, glyph: string, space: string, brand: string,
                                        sep: string, text: string, end: string)
    requires forall t: string {:trigger g + t} :: WithoutSgr(g + t) == WithoutSgr(t)
    requires forall t: string {:trigger b + t} :: WithoutSgr(b + t) == WithoutSgr(t)
    requires forall t: string {:trigger r + t} :: WithoutSgr(r + t) == WithoutSgr(t)
    requires NoEscape(glyph) && NoEscape(space) && NoEscape(brand) && NoEscape(sep) && NoEscape(text)
    ensures WithoutSgr(g + (glyph + (r + (space + (b + (brand + (r + (sep + (text + end)))))))))
            == glyph + (space + (brand + (sep + (text + WithoutSgr(end)))))
  {
    hide WithoutSgr, NoEscape;
    PlainStays(text, end);
    PlainStays(sep, text + end);
    PlainStays(brand, r + (sep + (text + end)));
    PlainStays(space, b + (brand + (r + (sep + (text + end)))));
    PlainStays(glyph, r + (space + (b + (brand + (r + (sep + (text + end)))))));
  }

  /**
    Whatever the advertiser wrote: without its SGR sequences the styled line is exactly the plain line.
    (Normalisation may rewrite characters but brings in no escape.)
    */
  lemma {:induction false} AnsiIsPlainWithStyle(creative: Creative, columns: int, normalize: string -> string)
    requires Render(creative, columns, normalize).Ok?
    requires forall s: string :: Clean(s) ==> NoEscape(normalize(s))
    ensures var line := Render(creative, columns, normalize).line; WithoutSgr(line.ansi) == line.plain
  {
    var (brand, text, cta) := Parts(creative, normalize);
    var fixed := Width(Prefixed(brand));
    var (outText, outCta) := Fit(fixed, text, cta, columns);
    TruncateFits(normalize(creative.brand), BRAND_LIMIT);
    TruncateFits(normalize(creative.text), TEXT_LIMIT);
    TruncateFits(text, Max(3, Max(20, columns - 1) - fixed));
    if creative.cta.Some? {
      TruncateFits(normalize(creative.cta.value), CTA_LIMIT);
    }
    StylesOnlyStyle(brand, outText, outCta);
  }
}
