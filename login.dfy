/**
 The login component: its configuration, the choice of verification driver
 made when it is configured, and the challenge issued at the top of each page
 render.
 */
module LoginComponent {
  import opened Digits
  import opened Captcha
  import opened Themes

  const CaptchaDriverKeyTencent: string := "tencent"
  const CaptchaDriverKeyDefault: string := "digits"
  /** The entry-point name of the compiled page template. */
  const TemplateName: string := "login_theme1"
  const DataUriPrefix: string := "data:image/png;base64,"

  /** Credentials of the remote verification service; a non-empty `id`
      selects remote verification. */
  datatype TencentWaterProofWallData = TencentWaterProofWallData(id: string, appID: string, appSecretKey: string)

  const NoTencent: TencentWaterProofWallData := TencentWaterProofWallData("", "", "")

  datatype Config = Config(tencent: TencentWaterProofWallData, captchaDigits: int, theme: string)

  /** A verification driver as registered: the local digit driver, or the
      remote driver with the application id and secret it sends. */
  datatype Driver = DigitsDriver | TencentDriver(aid: string, appSecret: string)

  /** One call of the driver registry's `Add`. */
  datatype DriverAdd = DriverAdd(key: string, driver: Driver)

  /** The driver registry of the surrounding framework, seen as the sequence
      of `Add` calls it has received. */
  class DriverRegistry {
    var added: seq<DriverAdd>

    constructor ()
      ensures added == []
    {
      added := [];
    }

    method Add(key: string, driver: Driver)
      modifies this
      ensures added == old(added) + [DriverAdd(key, driver)]
    {
      added := added + [DriverAdd(key, driver)];
    }
  }

  /** Local digit challenges are on: digits requested and no remote id. */
  predicate DigitsMode(cfg: seq<Config>) {
    |cfg| > 0 && cfg[0].captchaDigits != 0 && cfg[0].tencent.id == ""
  }

  /** Remote verification is on: a remote id is configured. */
  predicate TencentMode(cfg: seq<Config>) {
    |cfg| > 0 && cfg[0].tencent.id != ""
  }

  /** The settings `Get` gives the component; only the first configuration
      counts. */
  function Settings(cfg: seq<Config>): (s: Config)
    ensures s.theme != ""
    ensures |cfg| == 0 ==> s.captchaDigits == 0 && s.tencent.id == ""
    ensures |cfg| > 0 ==> s.tencent == cfg[0].tencent && s.captchaDigits == cfg[0].captchaDigits
  {
    if |cfg| == 0 then Config(NoTencent, 0, DefaultTheme)
    else cfg[0].(theme := if cfg[0].theme == "" then DefaultTheme else cfg[0].theme)
  }

  /** The `Add` calls `Get` makes, in order. */
  function DriverAdds(cfg: seq<Config>): (adds: seq<DriverAdd>)
    ensures |adds| <= 1
    ensures |adds| == 1 <==> DigitsMode(cfg) || TencentMode(cfg)
    ensures forall a :: a in adds ==> (a.key == CaptchaDriverKeyDefault <==> a.driver.DigitsDriver?)
  {
    (if DigitsMode(cfg) then [DriverAdd(CaptchaDriverKeyDefault, DigitsDriver)] else [])
    + (if TencentMode(cfg) then [DriverAdd(CaptchaDriverKeyTencent, TencentDriver("", ""))] else [])
  }

  /** The component's state: its settings and, once a page has been rendered,
      the current challenge id and its image. */
  class Login {
    var tencent: TencentWaterProofWallData
    var captchaDigits: int
    var captchaID: string
    var captchaImgSrc: string
    var theme: string

    constructor (settings: Config)
      ensures tencent == settings.tencent && captchaDigits == settings.captchaDigits
      ensures theme == settings.theme
      ensures captchaID == "" && captchaImgSrc == ""
    {
      tencent := settings.tencent;
      captchaDigits := settings.captchaDigits;
      theme := settings.theme;
      captchaID := "";
      captchaImgSrc := "";
    }

    /** The challenge provisioning at the top of `GetTemplate`. `id`, `digits`
        and `now` are what the id generator, the digit generator and the clock
        returned; `image` is the base64 text of the rendered challenge image.
        The digit generator yields `CaptchaDigits` bytes, each 0..9.
        Returns the template's entry-point name. */
    method GetTemplate(store: CaptchaData, id: string, digits: seq<byte>, now: int, image: string)
      returns (name: string)
      requires captchaDigits != 0 ==> |digits| == captchaDigits && forall i :: 0 <= i < |digits| ==> digits[i] < 10
      modifies this, store
      ensures name == TemplateName
      ensures tencent == old(tencent) && captchaDigits == old(captchaDigits) && theme == old(theme)
      ensures old(captchaDigits) != 0 ==>
        && store.items == old(store.items)[id := Item(now, DigitsToString(digits), 0)]
        && captchaID == id
        && captchaImgSrc == DataUriPrefix + image
      ensures old(captchaDigits) != 0 ==>
        && |store.items[id].data| == captchaDigits
        && DigitBytes(store.items[id].data) == digits
      ensures old(captchaDigits) == 0 ==>
        && store.items == old(store.items)
        && captchaID == old(captchaID)
        && captchaImgSrc == old(captchaImgSrc)
    {
      if captchaDigits != 0 {
        var data := ByteToStr(digits);
        DigitsToStringOfDigits(digits);
        DigitsRoundTrip(digits);
        store.items := store.items[id := Item(now, data, 0)];
        captchaID := id;
        captchaImgSrc := DataUriPrefix + image;
      }
      name := TemplateName;
    }

    function GetName(): string {
      "login"
    }

    function IsAPage(): bool {
      true
    }
  }

  /** `Get`: sweeps the store and registers the digit driver when local
      challenges are on, registers a blank remote driver when remote
      verification is on, and returns a fresh component with the settings. */
  method Get(cfg: seq<Config>, store: CaptchaData, drivers: DriverRegistry, now: int)
    returns (l: Login)
    modifies store, drivers
    ensures fresh(l)
    ensures l.tencent == Settings(cfg).tencent && l.captchaDigits == Settings(cfg).captchaDigits
    ensures l.theme == Settings(cfg).theme
    ensures l.captchaID == "" && l.captchaImgSrc == ""
    ensures store.items == if DigitsMode(cfg) then Swept(old(store.items), now) else old(store.items)
    ensures drivers.added == old(drivers.added) + DriverAdds(cfg)
  {
    if |cfg| > 0 {
      if cfg[0].captchaDigits != 0 && cfg[0].tencent.id == "" {
        store.Clean(now);
        drivers.Add(CaptchaDriverKeyDefault, DigitsDriver);
      }
      if cfg[0].tencent.id != "" {
        drivers.Add(CaptchaDriverKeyTencent, TencentDriver("", ""));
      }
      var c := cfg[0];
      if c.theme == "" {
        c := c.(theme := DefaultTheme);
      }
      l := new Login(c);
    } else {
      l := new Login(Config(NoTencent, 0, DefaultTheme));
    }
  }

  // ---------------------------------------------------------------------
  // Properties of the configuration

  /** The theme is the configured one, or the built-in theme when there is no
      configuration or its theme is empty; so it is never empty. */
  lemma ThemeDefaults(cfg: seq<Config>)
    ensures Settings(cfg).theme == DefaultTheme <==> |cfg| == 0 || cfg[0].theme == "" || cfg[0].theme == DefaultTheme
    ensures |cfg| > 0 && cfg[0].theme != "" ==> Settings(cfg).theme == cfg[0].theme
    ensures Settings(cfg).theme != ""
  {
  }

  /** Without a configuration, challenges are off and no driver is registered. */
  lemma AbsentConfig(cfg: seq<Config>)
    requires |cfg| == 0
    ensures Settings(cfg).captchaDigits == 0
    ensures Settings(cfg).tencent.id == ""
    ensures DriverAdds(cfg) == []
  {
  }

  /** The digit driver is registered exactly in local mode, the remote driver
      exactly in remote mode; at most one driver is registered. */
  lemma DriverSelection(cfg: seq<Config>)
    ensures DriverAdd(CaptchaDriverKeyDefault, DigitsDriver) in DriverAdds(cfg)
      <==> |cfg| > 0 && cfg[0].captchaDigits != 0 && cfg[0].tencent.id == ""
    ensures (exists a :: a in DriverAdds(cfg) && a.key == CaptchaDriverKeyTencent)
      <==> |cfg| > 0 && cfg[0].tencent.id != ""
    ensures |DriverAdds(cfg)| <= 1
  {
  }

  /** The remote driver is registered blank: the configured application id
      and secret are not copied into it. */
  lemma TencentDriverIsBlank(cfg: seq<Config>)
    ensures forall a :: a in DriverAdds(cfg) && a.driver.TencentDriver? ==> a.driver == TencentDriver("", "")
  {
  }

  /** The credentials do reach the component's own settings. */
  lemma TencentSettingsKept(cfg: seq<Config>)
    requires |cfg| > 0
    ensures Settings(cfg).tencent == cfg[0].tencent
    ensures Settings(cfg).captchaDigits == cfg[0].captchaDigits
  {
  }

  /** Configurations after the first are ignored. */
  lemma OnlyFirstConfigCounts(cfg: seq<Config>)
    requires |cfg| > 0
    ensures Settings(cfg) == Settings(cfg[..1])
    ensures DriverAdds(cfg) == DriverAdds(cfg[..1])
  {
  }

  // ---------------------------------------------------------------------
  // Render, then verify

  /** Rendering with challenges on issues a challenge that the answer built
      from its digits opens exactly once. */
  method RenderThenVerify(settings: Config, id: string, digits: seq<byte>, now: int, image: string)
    returns (first: bool, second: bool)
    requires settings.captchaDigits != 0
    requires |digits| == settings.captchaDigits && forall i :: 0 <= i < |digits| ==> digits[i] < 10
    requires ',' !in id
    ensures first && !second
  {
    var store := new CaptchaData();
    var l := new Login(settings);
    var _ := l.GetTemplate(store, id, digits, now, image);
    var answer := ByteToStr(digits);
    var driver := new DigitsCaptcha(store);
    IssueThenAnswer(map[], id, digits, now);
    first := driver.Validate(Token(answer, l.captchaID));
    second := driver.Validate(Token(answer, l.captchaID));
    SingleUse(map[id := Item(now, answer, 0)], Token(answer, id));
  }

  /** Rendering, then answering wrongly, keeps the challenge pending with one
      recorded attempt. */
  method RenderThenWrongAnswer(settings: Config, id: string, digits: seq<byte>, now: int, image: string, answer: string)
    returns (ok: bool, pending: bool, attempts: int)
    requires settings.captchaDigits != 0
    requires |digits| == settings.captchaDigits && forall i :: 0 <= i < |digits| ==> digits[i] < 10
    requires ',' !in id && ',' !in answer
    requires answer != DigitsToString(digits)
    ensures !ok && pending && attempts == 1
  {
    var store := new CaptchaData();
    var l := new Login(settings);
    var _ := l.GetTemplate(store, id, digits, now, image);
    var driver := new DigitsCaptcha(store);
    IssueThenWrongAnswer(map[], id, digits, now, answer);
    ok := driver.Validate(Token(answer, l.captchaID));
    pending := id in store.items;
    attempts := if pending then store.items[id].num else 0;
  }

  /** Rendering with challenges off issues nothing and embeds no image. */
  method RenderWithoutChallenge(settings: Config, id: string, digits: seq<byte>, now: int, image: string)
    returns (img: string, issued: bool)
    requires settings.captchaDigits == 0
    ensures img == "" && !issued
  {
    var store := new CaptchaData();
    var l := new Login(settings);
    var _ := l.GetTemplate(store, id, digits, now, image);
    img := l.captchaImgSrc;
    issued := id in store.items;
  }
}
