/**
 The login theme registry: a map from theme key to theme, filled once at
 start-up. A second registration under a key already present is fatal.
 */
module Themes {

  /** A theme, seen from the login component: its raw page markup and the
      names of its assets. How it produces markup and asset bytes is its own
      business. */
  datatype Theme = Theme(html: string, assetList: seq<string>)

  /** The key the built-in theme is registered under. */
  const DefaultTheme: string := "theme1"

  /** The outcome of a registration: done, or the panic that halts start-up. */
  datatype Registration = Registered | Panic(message: string)

  const DuplicateThemeMessage: string := "duplicate login theme"

  /** Why a request for an asset panics at run time. */
  datatype AssetError =
    | SliceOutOfRange  // `name[1:]` on an empty name panics
    | NilTheme         // a method call on the nil theme of an unregistered key panics

  /** The asset request handed to a theme: the theme asked and the asset name
      it is asked for. */
  datatype AssetQuery = AssetQuery(theme: Theme, name: string)

  datatype Result<T> = Ok(value: T) | Err(error: AssetError)

  class ThemeRegistry {
    var themes: map<string, Theme>

    /** The package's `init`: the built-in theme under its key. */
    constructor Init(theme1: Theme)
      ensures themes == map[DefaultTheme := theme1]
    {
      themes := map[DefaultTheme := theme1];
    }

    method Register(key: string, theme: Theme) returns (status: Registration)
      modifies this
      ensures status.Panic? <==> key in old(themes)
      ensures status.Panic? ==> status.message == DuplicateThemeMessage && themes == old(themes)
      ensures status.Registered? ==> themes == old(themes)[key := theme]
    {
      if key in themes {
        return Panic(DuplicateThemeMessage);
      }
      themes := themes[key := theme];
      return Registered;
    }
  }

  /** The built-in theme is registered at start-up, so registering anything
      else under its key halts start-up. */
  method DuplicateThemeIsFatal(theme1: Theme, other: Theme) returns (status: Registration)
    ensures status == Panic(DuplicateThemeMessage)
  {
    var registry := new ThemeRegistry.Init(theme1);
    status := registry.Register(DefaultTheme, other);
  }

  /** Registering a fresh key succeeds; registering the same key again, with
      any theme, panics and keeps the first registration. */
  method RegisterTwice(theme1: Theme, key: string, first: Theme, second: Theme)
    returns (s1: Registration, s2: Registration, stored: Theme)
    requires key != DefaultTheme
    ensures s1 == Registered
    ensures s2 == Panic(DuplicateThemeMessage)
    ensures stored == first
  {
    var registry := new ThemeRegistry.Init(theme1);
    s1 := registry.Register(key, first);
    s2 := registry.Register(key, second);
    stored := registry.themes[key];
  }

  /** The name a theme is asked for when the page requests asset `name`: the
      request path without its first character. */
  function AssetKey(name: string): (r: Result<string>)
    ensures r.Ok? <==> |name| > 0
    ensures r.Ok? ==> [name[0]] + r.value == name
    ensures r.Err? ==> r.error == SliceOutOfRange
  {
    if |name| == 0 then Err(SliceOutOfRange) else Ok(name[1..])
  }

  /** `GetAsset(name)`: forwards `name[1:]` to the selected theme; an empty
      name or an unregistered key panics. When both happen, the model reports
      the slice panic. */
  function GetAsset(themes: map<string, Theme>, key: string, name: string): (r: Result<AssetQuery>)
    ensures r.Ok? <==> |name| > 0 && key in themes
    ensures r.Ok? ==> r.value.theme == themes[key] && [name[0]] + r.value.name == name
    ensures |name| == 0 ==> r == Err(SliceOutOfRange)
  {
    match AssetKey(name)
    case Err(e) => Err(e)
    case Ok(rest) => if key in themes then Ok(AssetQuery(themes[key], rest)) else Err(NilTheme)
  }

  /** A path-style request `"/" + n` asks the theme for `n`. */
  lemma PathRequestStripsSlash(themes: map<string, Theme>, key: string, n: string)
    requires key in themes
    ensures GetAsset(themes, key, "/" + n) == Ok(AssetQuery(themes[key], n))
  {
  }
}
