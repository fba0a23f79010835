/**
 * The colour palettes of color_manager.py: a base palette, an old-paper
 * palette and an inverted one, selected by the settings' colour scheme.
 */
module Palettes {
  /** An RGB triple. */
  datatype Rgb = Rgb(r: int, g: int, b: int)

  predicate InRange(c: Rgb)
  {
    0 <= c.r <= 255 && 0 <= c.g <= 255 && 0 <= c.b <= 255
  }

  const White := Rgb(255, 255, 255)

  /** `invert_color`: every channel `c` becomes `255 - c`. */
  function Invert(c: Rgb): (d: Rgb)
    ensures d.r + c.r == 255 && d.g + c.g == 255 && d.b + c.b == 255
  {
    Rgb(255 - c.r, 255 - c.g, 255 - c.b)
  }

  /** Inverting keeps a colour inside [0, 255] per channel, and inverting twice gives it back. */
  lemma InvertInvolution(c: Rgb)
    ensures Invert(Invert(c)) == c
    ensures InRange(c) ==> InRange(Invert(c))
  {
  }

  /** The twelve colour names both palettes define. */
  const ColorNames: seq<string> :=
    ["WHITE", "LIGHT_GRAY", "MEDIUM_GRAY", "GRAY", "DARK_GRAY", "BLACK", "VERY_DARK",
     "UI_BACKGROUND", "UI_BORDER", "UI_TEXT", "UI_ACCENT", "BUTTON_HOVER"]

  /** `base_colors`. */
  function BasePalette(): (p: map<string, Rgb>)
    ensures p.Keys == set n | n in ColorNames
    ensures forall n :: n in p ==> InRange(p[n])
  {
    map["WHITE" := Rgb(255, 255, 255),
        "LIGHT_GRAY" := Rgb(220, 220, 220),
        "MEDIUM_GRAY" := Rgb(180, 180, 180),
        "GRAY" := Rgb(128, 128, 128),
        "DARK_GRAY" := Rgb(80, 80, 80),
        "BLACK" := Rgb(40, 40, 40),
        "VERY_DARK" := Rgb(20, 20, 20),
        "UI_BACKGROUND" := Rgb(248, 248, 248),
        "UI_BORDER" := Rgb(200, 200, 200),
        "UI_TEXT" := Rgb(60, 60, 60),
        "UI_ACCENT" := Rgb(100, 100, 100),
        "BUTTON_HOVER" := Rgb(230, 230, 230)]
  }

  /** `old_paper_colors`. */
  function OldPaperPalette(): (p: map<string, Rgb>)
    ensures p.Keys == set n | n in ColorNames
    ensures forall n :: n in p ==> InRange(p[n])
  {
    map["WHITE" := Rgb(255, 248, 220),
        "LIGHT_GRAY" := Rgb(240, 228, 200),
        "MEDIUM_GRAY" := Rgb(210, 190, 160),
        "GRAY" := Rgb(180, 150, 120),
        "DARK_GRAY" := Rgb(120, 90, 60),
        "BLACK" := Rgb(80, 50, 30),
        "VERY_DARK" := Rgb(60, 35, 20),
        "UI_BACKGROUND" := Rgb(250, 240, 210),
        "UI_BORDER" := Rgb(200, 170, 140),
        "UI_TEXT" := Rgb(90, 60, 40),
        "UI_ACCENT" := Rgb(140, 100, 70),
        "BUTTON_HOVER" := Rgb(235, 220, 190)]
  }

  /** The dict comprehension that inverts every entry of a palette. */
  function Inverted(p: map<string, Rgb>): (q: map<string, Rgb>)
    ensures q.Keys == p.Keys
    ensures forall n :: n in q ==> q[n] == Invert(p[n])
  {
    map n | n in p :: Invert(p[n])
  }

  /** Inverting a palette twice gives it back. */
  lemma InvertedTwice(p: map<string, Rgb>)
    ensures Inverted(Inverted(p)) == p
  {
    forall n | n in p
      ensures Inverted(Inverted(p))[n] == p[n]
    {
      InvertInvolution(p[n]);
    }
  }

  /** `get_colors`: scheme 2 is old paper, 3 the inverted base palette, anything else the base. */
  function ActivePalette(scheme: int): (p: map<string, Rgb>)
    ensures scheme == 2 ==> p == OldPaperPalette()
    ensures scheme == 3 ==> p == Inverted(BasePalette())
    ensures scheme != 2 && scheme != 3 ==> p == BasePalette()
  {
    if scheme == 2 then OldPaperPalette()
    else if scheme == 3 then Inverted(BasePalette())
    else BasePalette()
  }

  /** Every scheme's palette has the same twelve names, each a colour inside [0, 255]. */
  lemma PalettesShareNames(scheme: int)
    ensures ActivePalette(scheme).Keys == BasePalette().Keys == OldPaperPalette().Keys
    ensures forall n :: n in ActivePalette(scheme) ==> InRange(ActivePalette(scheme)[n])
  {
    var base := BasePalette();
    if scheme == 3 {
      forall n | n in base
        ensures InRange(Inverted(base)[n])
      {
        InvertInvolution(base[n]);
      }
    }
  }

  /** `get_color`: the active palette, then the base palette, then white. */
  function ColorOf(scheme: int, name: string): (c: Rgb)
    ensures name in ActivePalette(scheme) ==> c == ActivePalette(scheme)[name]
    ensures name !in ActivePalette(scheme) && name in BasePalette() ==> c == BasePalette()[name]
    ensures name !in ActivePalette(scheme) && name !in BasePalette() ==> c == White
  {
    var colors := ActivePalette(scheme);
    if name in colors then colors[name]
    else if name in BasePalette() then BasePalette()[name]
    else White
  }

  /** Since every palette knows the same names, white is the answer exactly for an unknown name (or white itself). */
  lemma ColorOfUnknown(scheme: int, name: string)
    ensures name !in ColorNames ==> ColorOf(scheme, name) == White
    ensures name in ColorNames ==> ColorOf(scheme, name) == ActivePalette(scheme)[name]
    ensures InRange(ColorOf(scheme, name))
  {
    PalettesShareNames(scheme);
  }

  /** The four poster colour names. */
  const PosterNames: set<string> := {"background", "border", "text", "accent"}

  /** The poster of the old-paper scheme. */
  const OldPaperPoster: map<string, Rgb> :=
    map["background" := Rgb(139, 115, 85), "border" := Rgb(101, 78, 57),
        "text" := Rgb(250, 240, 210), "accent" := Rgb(205, 175, 140)]

  /** The poster of the inverted scheme: greys, not the inverted normal poster. */
  const InvertedPoster: map<string, Rgb> :=
    map["background" := Rgb(50, 50, 50), "border" := Rgb(20, 20, 20),
        "text" := Rgb(200, 200, 200), "accent" := Rgb(150, 150, 150)]

  /** The poster of the normal scheme, used for every scheme other than 2 and 3. */
  const NormalPoster: map<string, Rgb> :=
    map["background" := Rgb(139, 115, 85), "border" := Rgb(101, 67, 33),
        "text" := Rgb(255, 248, 220), "accent" := Rgb(205, 175, 149)]

  /** `get_poster_colors`: own tables for schemes 2 and 3, the normal table otherwise. */
  function PosterColors(scheme: int): (p: map<string, Rgb>)
    ensures p.Keys == PosterNames
    ensures forall n :: n in p ==> InRange(p[n])
    ensures scheme == 2 ==> p == OldPaperPoster
    ensures scheme == 3 ==> p == InvertedPoster
    ensures scheme != 2 && scheme != 3 ==> p == NormalPoster
    ensures p["background"] == (if scheme == 3 then Rgb(50, 50, 50) else Rgb(139, 115, 85))
  {
    if scheme == 2 then OldPaperPoster
    else if scheme == 3 then InvertedPoster
    else NormalPoster
  }
}
