# Login captcha core, modelled in Dafny

This project models the captcha core of a Go login component (`login/login.go`).
The component renders a themed login page and protects it with a short-lived
human-verification challenge. It has four parts:

- **The challenge store** (`captchaData`). It maps a challenge id to an `Item`: the issue time, the expected answer (`Data`) and the count of failed attempts (`Num`).
  - `Clean` sweeps out every entry whose two-minute lifetime (`CaptchaDisableDuration`) has strictly passed.
  - `DigitsCaptcha.Validate` takes a token `"<answer>,<id>"`. A right answer removes the challenge, so a token works once. A wrong answer adds one to the attempt count and leaves the challenge in place.
  - At the top of `GetTemplate`, a page render issues a fresh challenge with attempt count 0. Its answer is the random digits written out by `byteToStr`.
- **The theme registry.** `Register` adds a theme under a key. A key that is already present makes it panic, which halts start-up. The package's `init` registers the built-in theme `"theme1"`.
- **Configuration** (`Get`). `Get` picks the theme, with `"theme1"` as the default. It also decides which verification driver key is registered: `"digits"`, after a sweep of the store, when digit challenges are on and no remote id is set; `"tencent"` when a remote id is set.
- **Asset requests.** `GetAsset` forwards `name[1:]` to the selected theme.

Modules follow these parts:

- `Strings`: Go's `strings.Split` for a one-character separator, with its inverse `Join`.
- `Digits`: `byteToStr` and Go's `%v` decimal formatting of a byte.
- `Captcha`: the store, `Clean` and `DigitsCaptcha.Validate`.
- `Themes`: the registry and `GetAsset`.
- `LoginComponent`: `Config`, `Get`, the driver registrations and `Login.GetTemplate`'s issuance step.

How the model is built:

- State that the source updates in place is a class: `CaptchaData.items`, `ThemeRegistry.themes`, the `Login` fields, and the driver registry's log of `Add` calls.
- Each state-changing method ties its new state to a pure function of the old state: `Swept` for `Clean`, `Check` for `Validate`.
- The lemmas about those functions state the behaviour the source promises.
- Time is an integer count of nanoseconds, the unit of Go's `time.Duration`, so `CaptchaDisableDuration` is `2 * 60 * 10^9`.
- The id generator, the digit generator and the clock become parameters (`id`, `digits`, `now`). So does the base64 text of the rendered challenge image.

Behaviour of the code that the model keeps as written, where a reader might expect otherwise:

- `Validate` does not look at the issue time. An expired challenge can still be answered until a sweep removes it. Sweeps happen only inside `Get`, and only in digit mode (`SweptChallengeRefused` covers the swept case).
- The remote driver is registered as a fresh `TencentCaptcha` with empty `Aid` and `AppSecret`. The configured credentials reach the `Login` value but not the driver (`TencentDriverIsBlank`).
- Issuing under an id that is already present overwrites that entry (Go map assignment). Nothing in the code guarantees the id is new.
- `Num` is counted but never read; nothing limits retries.
- `byteToStr` writes each byte in decimal. Only for bytes 0..9 is that one character per byte (`DigitsToStringOfDigits`). A wider byte makes the answer ambiguous (`WideBytesAreAmbiguous`).

## Model

| member | source | states |
|---|---|---|
| `Strings.Split` | login/login.go:86 | `strings.Split` on `","` always yields at least one piece, and no piece contains the separator |
| `Strings.JoinSplit` | login/login.go:86 | joining the pieces with the separator gives back the token: splitting loses nothing |
| `Strings.SplitJoin` | login/login.go:86 | splitting the join of separator-free pieces gives back exactly those pieces |
| `Strings.SplitHasTwoPieces` | login/login.go:86-88 | the split has at least two pieces if and only if the token contains a comma |
| `Digits.Decimal` | login/login.go:187 | `%v` of a byte is a non-empty string of decimal digit characters, with no leading zero unless the value is 0 |
| `Digits.DigitsToString` | login/login.go:184-190 | the answer string, the decimal texts of the bytes in order, consists of decimal digit characters only (so it never contains the token's comma) |
| `Digits.DecimalRoundTrip` | login/login.go:187 | reading the decimal text of `n` back gives `n` |
| `Digits.ByteToStr` | login/login.go:184-190 | the loop builds exactly the concatenation, in order, of each byte's decimal text |
| `Digits.DigitsToStringOfDigits` | login/login.go:184-190 | for bytes 0..9 the answer has one character per byte, the i-th being the digit of the i-th byte |
| `Digits.DigitsRoundTrip` | login/login.go:184-190 | single-digit bytes can be read back from their answer, so different digit sequences get different answers |
| `Digits.WideBytesAreAmbiguous` | login/login.go:187 | bytes above 9 break that: `[1, 2]` and `[12]` both yield `"12"` |
| `Captcha.CaptchaData.constructor` | login/login.go:81 | the store starts empty |
| `Captcha.Swept` | login/login.go:73-79 | the swept store is a sub-map of the old one: it keeps, with unchanged values, exactly the entries that are not expired at `now` |
| `Captcha.CaptchaData.Clean` | login/login.go:73-79 | after the deleting loop the store is exactly `Swept(old store, now)` |
| `Captcha.SweptKeepsExactly` | login/login.go:73-79 | a sweep keeps exactly the entries with `now <= Time + 2 min`, boundary included, values unchanged; all others are removed |
| `Captcha.SweptLater` | login/login.go:73-79 | sweeping again at the same or a later time gives the same result as a single sweep at the later time |
| `Captcha.SweptChallengeRefused` | login/login.go:73-100 | a token naming an expired challenge is refused after a sweep, and the store is unchanged |
| `Captcha.Check` | login/login.go:85-101 | the verdict never adds an entry and never changes an entry's time or answer; an accepted token removes exactly one entry; a refused one keeps every key |
| `Captcha.DigitsCaptcha.constructor` | login/login.go:83-85 | the digit driver works on the given shared store |
| `Captcha.DigitsCaptcha.Validate` | login/login.go:85-101 | the method's result and new store are exactly `Check` of the old store and the token |
| `Captcha.TokenParts` | login/login.go:86 | `"<answer>,<id>"` splits into `[answer, id]`; further comma-separated text becomes further pieces |
| `Captcha.NoCommaRefused` | login/login.go:86-89 | a token without a comma is refused and the store is unchanged |
| `Captcha.UnknownIdRefused` | login/login.go:90-100 | a token whose id is not in the store is refused and the store is unchanged |
| `Captcha.MatchConsumes` | login/login.go:90-93 | acceptance holds if and only if the id is present and its stored answer equals the submitted one; on acceptance exactly that id is removed |
| `Captcha.MismatchCounts` | login/login.go:94-97 | a wrong answer is refused; the entry stays with `Num` one higher and the same `Time` and `Data`; every other entry is unchanged |
| `Captcha.ExtraPartsIgnored` | login/login.go:86-91 | pieces after the second do not affect the verdict or the new store |
| `Captcha.SingleUse` | login/login.go:90-100 | after a token is accepted, the same token is refused and changes nothing |
| `Captcha.CheckMonotone` | login/login.go:90-98 | validation never adds entries, never changes an entry's time or answer, and never lowers an attempt count |
| `Captcha.IssueThenAnswer` | login/login.go:194-201 | a freshly issued challenge is accepted with the answer built from its digits; afterwards the store is the pre-issue store without that id |
| `Captcha.IssueThenWrongAnswer` | login/login.go:194-201 | a wrong answer to a freshly issued challenge leaves it pending with `Num = 1` |
| `Themes.ThemeRegistry.Init` | login/login.go:25-29 | at start-up the registry holds exactly the built-in theme under `"theme1"` |
| `Themes.ThemeRegistry.Register` | login/login.go:31-36 | a key already present panics with "duplicate login theme" and the registry is unchanged; otherwise exactly that key is added with that theme |
| `Themes.DuplicateThemeIsFatal` | login/login.go:27-36 | after `init`, registering anything under `"theme1"` panics |
| `Themes.RegisterTwice` | login/login.go:31-36 | a second registration under the same key panics and the first theme stays registered |
| `Themes.AssetKey` | login/login.go:232 | `name[1:]` does not panic if and only if the name is non-empty, and then the first character followed by the result is the name |
| `Themes.GetAsset` | login/login.go:232 | the selected theme is asked for the name without its first character; an empty name panics on the slice; an unregistered key panics on the nil theme |
| `Themes.PathRequestStripsSlash` | login/login.go:232 | a request for `"/" + n` asks the theme for `n` |
| `LoginComponent.Login.constructor` | login/login.go:175-181 | a new component carries the given settings and has no challenge id or image yet |
| `LoginComponent.DriverRegistry.Add` | login/login.go:164-168 | each `captcha2.Add` call is recorded, in order, after the earlier ones |
| `LoginComponent.Settings` | login/login.go:171-181 | the component's theme is never empty; without a config the digit count is 0 and there is no remote id; with one, the credentials and the digit count are the first config's |
| `LoginComponent.DriverAdds` | login/login.go:162-169 | `Get` registers at most one driver, one exactly in digit or remote mode, and the `"digits"` key always carries the digit driver |
| `LoginComponent.Login.GetTemplate` | login/login.go:194-207 | given the `CaptchaDigits` random digits 0..9: with digits on, inserts `id -> (now, byteToStr(digits), 0)`, whose answer has exactly `CaptchaDigits` characters and reads back as the digits, sets `CaptchaID` to the id and the image to a PNG data URI, and changes nothing else. With digits off: the store, the id and the image are unchanged |
| `LoginComponent.Get` | login/login.go:159-182 | returns a fresh component with `Settings(cfg)`; sweeps the store only in digit mode; appends exactly `DriverAdds(cfg)` to the driver registrations |
| `LoginComponent.ThemeDefaults` | login/login.go:171-181 | the theme is `"theme1"` when the config is absent or its theme is empty, and otherwise the configured theme; it is never empty |
| `LoginComponent.AbsentConfig` | login/login.go:159-181 | without a config, digits are 0, there is no remote id, and no driver is registered |
| `LoginComponent.DriverSelection` | login/login.go:162-169 | `"digits"` is registered if and only if digits are non-zero and there is no remote id; `"tencent"` if and only if there is a remote id; never both |
| `LoginComponent.TencentDriverIsBlank` | login/login.go:167-169 | the registered remote driver has empty app id and secret |
| `LoginComponent.TencentSettingsKept` | login/login.go:175-179 | the component keeps the configured credentials and digit count |
| `LoginComponent.OnlyFirstConfigCounts` | login/login.go:160-179 | configs after the first affect neither the settings nor the registrations |
| `LoginComponent.RenderThenVerify` | login/login.go:194-201 | render, then submit the right answer: accepted the first time, refused the second |
| `LoginComponent.RenderThenWrongAnswer` | login/login.go:194-201 | render, then submit a wrong answer: refused, and the challenge stays pending with one attempt |
| `LoginComponent.RenderWithoutChallenge` | login/login.go:194-207 | with digits 0, rendering issues no challenge and embeds no image |

## Left out

- `TencentCaptcha.Validate` (login/login.go:114-153) is not modelled. It is an HTTP round trip plus JSON decoding. It returns false on a request, transport, read or decode error, and otherwise true if and only if the decoded `response` field is `"1"`. Its fixed `UserIP` of `127.0.0.1` is a placeholder.
- Both template stages of `GetTemplate` (login/login.go:209-226) and `GetContent` (login/login.go:236-244) are not modelled. They call Go's `text/template` and `html/template` libraries. Errors that a stage returns are only logged, but several cases panic instead:
  - With an unregistered theme key, `themes[l.Theme].GetHTML()` (line 210) calls a method on a nil theme.
  - A failed `Parse` returns a nil template, so `t.Execute` (line 215) and `tmpl.ExecuteTemplate` (line 239) dereference nil.
  - The model keeps only the returned entry-point name `"login_theme1"`.
- `LoginComponent.Login.GetTemplate` requires the digits to be what `captcha.RandomDigits(CaptchaDigits)` returns: `CaptchaDigits` bytes, each 0..9. With a negative `CaptchaDigits` the source panics while making the byte slice (login/login.go:196); the model does not cover that case.
- Rendering the challenge image and base64-encoding it (login/login.go:202-204) are library code. The base64 text is a parameter of `GetTemplate`; the `data:image/png;base64,` prefix is modelled.
- The id generator (`utils.Uuid`), the digit generator (`captcha.RandomDigits`) and the clock (`time.Now`) are parameters.
- The unsynchronised concurrent access to the global store is not modelled. The model is single-threaded.
- The driver registry `captcha2.Add` and `template2.AddLoginComp` (`Init`, login/login.go:155-157) belong to the surrounding framework. Driver registration is modelled as a log of `Add` calls, because what `Add` does with a repeated key is not visible here.
- The `Theme` implementations, `GetAssetList`, and each theme's own asset lookup are opaque. `GetAssetList` only forwards to the theme. The model stops at the query handed to the theme.
- `Get` writes the defaulted theme back into the caller's `cfg[0]`. The model passes configurations by value, so that write, which is visible through the caller's slice, is not modelled.
- `Captcha.DigitsCaptcha.Validate`: `Num` is an unbounded integer, so Go's 64-bit wrap-around after 2^63 failed attempts is not modelled.
- `Captcha.CaptchaData.Clean`: `Time.Add` saturation at the ends of Go's time range and monotonic-clock readings are not modelled. Times are plain integers. The source reads the clock again for every entry (login/login.go:75); the model compares every entry with one instant `now`, so "exactly `Swept(old store, now)`" holds only under that abstraction.
- `Themes.GetAsset`: when the name is empty and the key is unregistered, Go leaves open which of the two panics happens first; the model reports the slice panic.
- `Themes.AssetKey`: Go's `name[1:]` drops the first byte of the UTF-8 name, the model drops the first character. The two differ for names that start with a non-ASCII character.
- `GetName` (`"login"`) and `IsAPage` (`true`) are modelled as constant functions of `Login`, with no contract.
