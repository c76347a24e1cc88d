/**
 * The colour tables of constants/theme.ts: the fixed `rawColors` and the two
 * palettes `theme.light` and `theme.dark`. Both palettes have the same six
 * keys by construction, since they are values of one datatype.
 */
module Palette {

  /** The two themes the app knows ("light" | "dark"). */
  datatype Theme = Light | Dark

  /** One palette: the six keys every theme defines. */
  datatype Colors = Colors(
    background: string,
    text: string,
    subtext: string,
    tint: string,
    card: string,
    border: string)

  // rawColors: colours that never change
  const Verde := "#00B131"
  const Branco := "#FFFFFF"
  const Preto := "#000000"
  const CinzaClaro := "#888"
  const CinzaEscuro := "#2C2C2C"
  const TextoEscuro := "#000"
  const TextoClaro := "#E5E5E7"

  /** `theme[t]`: the palette of theme `t`. */
  function PaletteOf(t: Theme): (c: Colors)
    ensures c.tint == Verde && c.border == Verde
    ensures c.subtext == CinzaClaro
  {
    match t
    case Light => Colors(Branco, Preto, CinzaClaro, Verde, CinzaEscuro, Verde)
    case Dark => Colors(CinzaEscuro, Branco, CinzaClaro, Verde, CinzaClaro, Verde)
  }

  /** Light is black on white; dark is white on dark grey. */
  lemma ForegroundOnBackground(t: Theme)
    ensures t == Light ==> PaletteOf(t).background == Branco && PaletteOf(t).text == Preto
    ensures t == Dark ==> PaletteOf(t).background == CinzaEscuro && PaletteOf(t).text == Branco
  {
  }

  /** Cards invert: dark grey on the light theme, light grey on the dark one. */
  lemma CardsInvert()
    ensures PaletteOf(Light).card == CinzaEscuro
    ensures PaletteOf(Dark).card == CinzaClaro
    ensures PaletteOf(Light).card == PaletteOf(Dark).background
  {
  }

  /**
   * Different themes give different palettes, so the colours on screen
   * determine the theme: the background alone already tells them apart.
   */
  lemma PaletteDeterminesTheme(t: Theme, u: Theme)
    ensures PaletteOf(t).background == PaletteOf(u).background <==> t == u
  {
  }
}
