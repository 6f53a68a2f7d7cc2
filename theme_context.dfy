/** The theme store: nine named colours, overwritten field by field by `setColors`, restored by
    `resetColors`, and seeded from saved colours laid over the defaults. */
module ThemeContext {
  import opened Wrappers

  datatype ThemeColors = ThemeColors(
    primary: string,
    primaryDark: string,
    secondary: string,
    accent: string,
    background: string,
    surface: string,
    error: string,
    success: string,
    warning: string)

  /** `Partial<ThemeColors>`: each colour present or absent. */
  datatype PartialColors = PartialColors(
    primary: Option<string>,
    primaryDark: Option<string>,
    secondary: Option<string>,
    accent: Option<string>,
    background: Option<string>,
    surface: Option<string>,
    error: Option<string>,
    success: Option<string>,
    warning: Option<string>)

  /** The names of the nine colours. */
  datatype ColorKey = Primary | PrimaryDark | Secondary | Accent | Background | Surface | Error | Success | Warning

  function Get(c: ThemeColors, k: ColorKey): string {
    match k
    case Primary => c.primary
    case PrimaryDark => c.primaryDark
    case Secondary => c.secondary
    case Accent => c.accent
    case Background => c.background
    case Surface => c.surface
    case Error => c.error
    case Success => c.success
    case Warning => c.warning
  }

  function GetPartial(p: PartialColors, k: ColorKey): Option<string> {
    match k
    case Primary => p.primary
    case PrimaryDark => p.primaryDark
    case Secondary => p.secondary
    case Accent => p.accent
    case Background => p.background
    case Surface => p.surface
    case Error => p.error
    case Success => p.success
    case Warning => p.warning
  }

  /** Two colour sets that agree on every key are the same. */
  lemma SameOnEveryKey(a: ThemeColors, b: ThemeColors)
    requires forall k :: Get(a, k) == Get(b, k)
    ensures a == b
  {
    assert Get(a, Primary) == Get(b, Primary) && Get(a, PrimaryDark) == Get(b, PrimaryDark);
    assert Get(a, Secondary) == Get(b, Secondary) && Get(a, Accent) == Get(b, Accent);
    assert Get(a, Background) == Get(b, Background) && Get(a, Surface) == Get(b, Surface);
    assert Get(a, Error) == Get(b, Error) && Get(a, Success) == Get(b, Success);
    assert Get(a, Warning) == Get(b, Warning);
  }

  /** The partial with no colour present. */
  const NoColors: PartialColors := PartialColors(None, None, None, None, None, None, None, None, None)

  /** `{ ...colors, ...partial }`: every colour the partial holds replaces the old one, and every
      other colour stays. */
  function Merge(colors: ThemeColors, partial: PartialColors): (r: ThemeColors)
    ensures forall k :: Get(r, k) == GetPartial(partial, k).GetOr(Get(colors, k))
  {
    ThemeColors(
      partial.primary.GetOr(colors.primary),
      partial.primaryDark.GetOr(colors.primaryDark),
      partial.secondary.GetOr(colors.secondary),
      partial.accent.GetOr(colors.accent),
      partial.background.GetOr(colors.background),
      partial.surface.GetOr(colors.surface),
      partial.error.GetOr(colors.error),
      partial.success.GetOr(colors.success),
      partial.warning.GetOr(colors.warning))
  }

  /** Merging nothing changes nothing. */
  lemma MergeNothing(colors: ThemeColors)
    ensures Merge(colors, NoColors) == colors
  {
    var r := Merge(colors, NoColors);
    assert forall k :: GetPartial(NoColors, k) == None;
    SameOnEveryKey(r, colors);
  }

  /** Merging the same partial twice is merging it once. */
  lemma MergeIdempotent(colors: ThemeColors, partial: PartialColors)
    ensures Merge(Merge(colors, partial), partial) == Merge(colors, partial)
  {
    SameOnEveryKey(Merge(Merge(colors, partial), partial), Merge(colors, partial));
  }

  /** A partial that holds every colour replaces the whole set, whatever it was. */
  lemma MergeFullPartial(a: ThemeColors, b: ThemeColors, partial: PartialColors)
    requires forall k :: GetPartial(partial, k).Some?
    ensures Merge(a, partial) == Merge(b, partial)
  {
    SameOnEveryKey(Merge(a, partial), Merge(b, partial));
  }

  /** `defaultColors`. */
  const DefaultColors: ThemeColors := ThemeColors(
    "#667eea", "#5568d3", "#764ba2", "#f093fb", "#f9fafb", "#ffffff", "#ef4444", "#10b981", "#f59e0b")

  /** The initial colours: the defaults, with the saved colours (when something is saved) laid
      over them. Reading and parsing the saved text is not modelled; `saved` is what it parses to. */
  function InitialColors(saved: Option<PartialColors>): (r: ThemeColors)
    ensures saved.None? ==> r == DefaultColors
    ensures saved.Some? ==> forall k :: Get(r, k) == GetPartial(saved.value, k).GetOr(Get(DefaultColors, k))
  {
    match saved
    case None => DefaultColors
    case Some(p) => Merge(DefaultColors, p)
  }

  /** The provider's colour state. */
  class ThemeStore {
    var colors: ThemeColors

    constructor (saved: Option<PartialColors>)
      ensures colors == InitialColors(saved)
    {
      colors := InitialColors(saved);
    }

    /** `setColors(partial)`: the colours the partial holds replace the current ones. */
    method SetColors(partial: PartialColors)
      modifies this
      ensures colors == Merge(old(colors), partial)
      ensures forall k :: GetPartial(partial, k).None? ==> Get(colors, k) == Get(old(colors), k)
    {
      colors := Merge(colors, partial);
    }

    /** `resetColors()`: back to the defaults, whatever the colours were. */
    method ResetColors()
      modifies this
      ensures colors == DefaultColors
    {
      colors := DefaultColors;
    }
  }
}
