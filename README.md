# Portfolio site components — a Dafny model

This project models the logic behind five pieces of a React portfolio site:

- **Starfield** (`StarsBackground`, stars_background.dfy).
  - Stars are generated from the canvas size and a stream of `Math.random()` samples.
  - Per frame, each star gets its parallax offsets and is wrapped into a virtual band 1.5 (desktop) or 2.5 (mobile) canvas heights tall.
  - Ghost copies are drawn near the band's seam.
  - The twinkle update is the only change a frame makes to the star list.
  - The component state is a class: canvas size plus an `array<Star>`. The render loop rewrites each twinkling star's opacity in place.
- **Noise texture** (`NoiseTexture`, noise_texture.dfy).
  - The colour components are read from the computed colour string: the first three digit runs, or white when there is no digit.
  - The 256 × 256 RGBA tile is filled in place by a loop over an array, four bytes per sample.
  - The visible canvas is resized and repainted by tiling, without ever touching the tile.
- **Image** (`ImageComponent`, image.dfy).
  - Nothing is rendered without a non-empty file URL.
  - Otherwise the source is the URL followed by `w=…&q=…&format=…`, after a `?` or an `&` as the URL requires.
  - The attributes get their defaults, and spread props override them.
  - The URL is read back by a decoder, and the builder is proved to round-trip through it.
- **Device class** (`MobileDetection`, use_is_mobile.dfy).
  - A device is mobile when the user agent contains one of eight tokens, ignoring case, or the viewport is at most 768 px wide.
  - The hook's state starts out `false`.
- **Experience list** (`ExperienceList`, experience_list.dfy). CMS items map one-to-one to display records with:
  - a `"<start> - <end>"` period, or `"<start> - Present"`;
  - a description fallback;
  - the technology names;
  - a built-in sample record shown exactly when there are no items.

Shared modules:
- `Text` (text.dfy): JavaScript's decimal rendering of integers, `parseInt` on digit runs, and `split` on one character, with their round trips.
- `Sampling` (sampling.dfy): the random-sample stream, and the scaling of a quantity by one sample.

## Modelling choices

- JavaScript numbers are idealised as `real` (positions, opacities, colour bytes) or `int`/`nat` (sizes, widths, years).
- `Math.random()` is a stream `nat -> real` with every value in [0, 1), or a sequence of samples. Generation consumes the samples in the order the source evaluates them:
  - the twinkle test's sample is drawn only when `allStarsTwinkle` is false, because `||` short-circuits;
  - the speed sample is drawn only for a twinkling star.
- `Math.sin(...)` is an input in [-1, 1], one per star.
- JavaScript's `%` is modelled as a truncating remainder (`JsRem`). The wrap `((y % T) + T) % T` is proved to equal the floored modulo, also for negative `y`.
- `Array.from({length: n})` with a negative `n` yields no elements, so the star count is `max(0, floor(area * density))`.
- `parseInt(undefined)` is NaN, which the clamped byte array stores as 0. A colour string with fewer than three digit runs therefore yields 0 for the missing channels.
- `!file?.url` also rejects an empty URL, and `width || ''` treats a zero width like a missing one.
- `item.endDate ? … : "Present"` treats an empty end date like a missing one, and `item.description || …` treats an empty description like a missing one.
- A case-insensitive regular expression without the `u` flag only matches ASCII letters across case against ASCII alternatives. The model therefore folds `a`–`z` to upper case and leaves every other character alone.

## Model

| member | source | states |
|---|---|---|
| Text.NatToString | src/components/Image.tsx:34 | the decimal text `${n}` of a natural number is a non-empty run of digits |
| Text.IntToString | src/components/ExperienceList.tsx:48 | the decimal text `${n}` of an integer is non-empty and all digits, except for a minus sign in first place, which only a negative integer gets |
| Text.ParseDigits | src/components/ui/noise-texture.tsx:45-47 | `parseInt` of a run of k digits is a natural number below 10^k |
| Text.ParseNatToString | src/components/ui/noise-texture.tsx:45-47 | `parseInt` reads the decimal text of a natural number back as that number |
| Text.ParseIntToString | src/components/ExperienceList.tsx:48 | the decimal text of an integer reads back as that integer |
| Sampling.ScaleBySample | src/components/ui/stars-background.tsx:64-65 | a sample in [0,1) times a non-negative size lies in [0, size], strictly below a positive size |
| StarsBackground.StarCount | src/components/ui/stars-background.tsx:59-61 | a positive star count implies a positive canvas width and height |
| StarsBackground.MakeStar | src/components/ui/stars-background.tsx:64-78 | the star literal: position equals initial position inside the canvas, radius in [0.5,0.55), opacity in [0.5,1), parallax factor in [0.2,0.8), twinkle speed (when min ≤ max) in [min, max] and below max when min < max, present iff the star twinkles |
| StarsBackground.GenStar | src/components/ui/stars-background.tsx:61-79 | one callback: consumes at least one sample; the speed is present iff allStarsTwinkle or the first sample is below twinkleProbability; the star is well formed and inside the canvas |
| StarsBackground.GenStarsFrom | src/components/ui/stars-background.tsx:61-79 | n callbacks give exactly n stars |
| StarsBackground.GenStarsFromShape | src/components/ui/stars-background.tsx:61-79 | n callbacks give exactly n stars, all well formed and inside the canvas |
| StarsBackground.GenerateStars | src/components/ui/stars-background.tsx:57-88 | the list has exactly the star count for the canvas and density, and is empty when the width or height is zero |
| StarsBackground.GenerateStarsShape | src/components/ui/stars-background.tsx:57-88 | generateStars returns floor(width·height·density) stars (for a non-negative density), each well formed and spawned inside [0,width)×[0,height) |
| StarsBackground.TwinkleExtremes | src/components/ui/stars-background.tsx:62-63 | with allStarsTwinkle (or probability ≥ 1) every star twinkles; with it off and probability ≤ 0 none does |
| StarsBackground.DefaultStarsTwinkle | src/components/ui/stars-background.tsx:35-38 | with the component's default props every generated star twinkles, at a speed in [0.5, 1) |
| StarsBackground.DefaultDensityExample | src/components/ui/stars-background.tsx:34-61 | the default density 0.00015 puts 311 stars on a 1920×1080 canvas |
| StarsBackground.MouseOffsetX | src/components/ui/stars-background.tsx:237-243 | the horizontal mouse offset is zero on mobile |
| StarsBackground.MouseOffsetY | src/components/ui/stars-background.tsx:237-243 | the vertical mouse offset is zero on mobile |
| StarsBackground.ScrollOffsetY | src/components/ui/stars-background.tsx:245-247 | zero on mobile; on desktop a non-negative scroll moves a star up by between 0 and the full scroll |
| StarsBackground.DampedScroll | src/components/ui/stars-background.tsx:247 | the damping factor 1 − 0.8·parallaxFactor keeps the scroll offset within [−scrollY, 0] |
| StarsBackground.DrawX | src/components/ui/stars-background.tsx:249 | on mobile the star is drawn at its initial x |
| StarsBackground.BaseY | src/components/ui/stars-background.tsx:251 | on mobile the base y is the initial y |
| StarsBackground.TotalHeight | src/components/ui/stars-background.tsx:253 | the band is 2.5 canvas heights on mobile and 1.5 on desktop |
| StarsBackground.JsRem | src/components/ui/stars-background.tsx:255 | the truncating remainder lies in [0, n) for a non-negative dividend and in (−n, 0] for a negative one |
| StarsBackground.RemainderSign | src/components/ui/stars-background.tsx:255 | the truncating remainder takes the sign of the dividend and is smaller than the divisor in magnitude |
| StarsBackground.WrapY | src/components/ui/stars-background.tsx:255 | the wrapped y lies in [0, totalHeight) and equals the floored modulo of the base y, also for a negative base y |
| StarsBackground.WrapYIsFlooredMod | src/components/ui/stars-background.tsx:255 | the double truncating remainder equals y − T·floor(y/T) and lies in [0, T) |
| StarsBackground.WrappedY | src/components/ui/stars-background.tsx:251-255 | the star's wrapped y lies in [0, totalHeight) and is its base y minus a whole number of band heights (the floored modulo) |
| StarsBackground.StarDraws | src/components/ui/stars-background.tsx:257-274 | one or two arcs per star, all at drawX with the star's radius and pre-twinkle opacity; the first is at the wrapped y; a second iff a seam threshold holds, never both, at y − T above the upper threshold and at y + T below the lower one; the ghost lies outside [0, totalHeight) |
| StarsBackground.GhostPlacement | src/components/ui/stars-background.tsx:262-274 | the ghost at y − T is drawn iff y > T − 0.2·h, the one at y + T iff y < 0.2·h, and no ghost lands on the visible canvas [0, h) |
| StarsBackground.FrameDraws | src/components/ui/stars-background.tsx:236-274 | a frame draws between one and two arcs per star |
| StarsBackground.Twinkle | src/components/ui/stars-background.tsx:276-280 | only opacity changes; unchanged for a star without a speed, in [0.5, 1] for one with a speed |
| StarsBackground.Twinkled | src/components/ui/stars-background.tsx:276-280 | the list keeps its length and every star except its opacity; a star without a speed is unchanged, one with a speed ends with opacity in [0.5, 1] |
| StarsBackground.TwinklePreservesWellFormed | src/components/ui/stars-background.tsx:276-280 | a twinkle keeps a star well formed and where it spawned |
| StarsBackground.StarField.constructor | src/components/ui/stars-background.tsx:42-45 | the component mounts with no stars and a zero canvas size |
| StarsBackground.StarField.Regenerate | src/components/ui/stars-background.tsx:104-109 | the canvas takes the new size and the star array becomes generateStars of it, every star well formed and inside the canvas |
| StarsBackground.StarField.InitCanvas | src/components/ui/stars-background.tsx:91-110 | the canvas takes the screen size on mobile and the viewport size otherwise, and the stars are regenerated for it |
| StarsBackground.StarField.HandleResize | src/components/ui/stars-background.tsx:114-128 | on mobile nothing changes; on desktop the canvas takes the viewport size and the stars are regenerated |
| StarsBackground.StarField.HandleOrientationChange | src/components/ui/stars-background.tsx:145-158 | the canvas takes the screen size and the stars are regenerated |
| StarsBackground.StarField.CurrentFrame | src/components/ui/stars-background.tsx:232-253 | the spring x, spring y and scroll values pass unchanged into the one frame every star of the pass sees, together with the parallax intensity, the current canvas size and the device class |
| StarsBackground.StarField.RenderFrame | src/components/ui/stars-background.tsx:229-281 | draws every star in order, then the array holds each star with only its opacity twinkled; the field stays valid; an empty field draws nothing |
| NoiseTexture.LeadingDigits | src/components/ui/noise-texture.tsx:44 | the digit run at the front of a string is a maximal prefix of digits |
| NoiseTexture.DigitRuns | src/components/ui/noise-texture.tsx:44 | `/\d+/g` yields non-empty runs of digits only |
| NoiseTexture.DigitRunsNone | src/components/ui/noise-texture.tsx:44 | the match is null exactly when the string contains no digit |
| NoiseTexture.RunChannel | src/components/ui/noise-texture.tsx:45-47 | a component is NaN exactly when the match has no run at its index |
| NoiseTexture.ExtractRgb | src/components/ui/noise-texture.tsx:44-47 | no digit gives white; otherwise r is a number, g is NaN iff there is one run, b is NaN iff there are one or two runs, and three runs give the three parsed numbers |
| NoiseTexture.RgbStringRuns | src/components/ui/noise-texture.tsx:44 | the digit runs of `rgb(r, g, b)` are the three numerals |
| NoiseTexture.ExtractRgbString | src/components/ui/noise-texture.tsx:44-47 | extraction reads r, g and b back from `rgb(r, g, b)` |
| NoiseTexture.ExtractRgbNoDigits | src/components/ui/noise-texture.tsx:45-47 | a string without digits yields 255 for all three components |
| NoiseTexture.Scale | src/components/ui/noise-texture.tsx:51-53 | a stored channel byte lies in [0, 255] and in [0, component] (below a positive component); it is the exact product when the component is at most 255, saturates at 255 above, and is 0 for a NaN component |
| NoiseTexture.BufferByte | src/components/ui/noise-texture.tsx:50-54 | every fourth byte (alpha) is 255; a colour byte lies in [0, its component], and is 0 for a NaN component |
| NoiseTexture.NoiseBuffer | src/components/ui/noise-texture.tsx:33-34 | the buffer holds four bytes per sample |
| NoiseTexture.NoisePixel | src/components/ui/noise-texture.tsx:49-55 | every pixel has alpha 255 and its three colour bytes scaled by the same sample, each at most its component |
| NoiseTexture.FillNoise | src/components/ui/noise-texture.tsx:49-55 | the loop over i = 0, 4, 8, … writes every byte of the buffer, leaving exactly the noise buffer of the colour and samples |
| NoiseTexture.NoiseCanvas.constructor | src/components/ui/noise-texture.tsx:23-60 | the tile is 256×256×4 bytes, filled from the extracted colour and the samples |
| NoiseTexture.NoiseCanvas.UpdateCanvas | src/components/ui/noise-texture.tsx:63-86 | without a parent nothing changes; otherwise the canvas takes the parent's size; the tile is never changed |
| NoiseTexture.TilePeriodic | src/components/ui/noise-texture.tsx:80-83 | the repainted canvas repeats the tile every 256 pixels in x and in y, and each painted byte is a byte of the noise buffer |
| NoiseTexture.NoiseCanvas.VisibleByte | src/components/ui/noise-texture.tsx:80-83 | every painted pixel of the canvas is opaque: its alpha byte is 255 |
| ImageComponent.FormatName | src/components/Image.tsx:10 | each format's name reads back as that format and contains no `&` |
| ImageComponent.WidthParam | src/components/Image.tsx:34 | the w value is empty iff the width is missing or zero, and never contains `&` |
| ImageComponent.Separator | src/components/Image.tsx:34 | the separator is `&` iff the URL already contains `?`, and `?` iff it does not |
| ImageComponent.QueryTail | src/components/Image.tsx:34 | the query starts with `w=` and reads back as the normalised width, the quality and the format |
| ImageComponent.OptimizedSrc | src/components/Image.tsx:33-34 | the source starts with the URL unchanged; the next character is `&` iff the URL contains `?`, and `?` otherwise |
| ImageComponent.ReadWidthParam | src/components/Image.tsx:34 | the w value reads back as the width, with zero read as absent |
| ImageComponent.ReadQueryTail | src/components/Image.tsx:34 | the query splits into exactly w, q and format in that order, and reads back as the given width, quality and format |
| ImageComponent.OptimizedSrcRoundTrip | src/components/Image.tsx:33-34 | the optimized source decodes to the URL's separator followed by the given parameters |
| ImageComponent.HasUrl | src/components/Image.tsx:29 | true iff the file and its URL are present and the URL is non-empty |
| ImageComponent.Render | src/components/Image.tsx:17-50 | null iff the file or its URL is missing or empty; otherwise the source decodes to the width, quality (default 80) and format (default webp), loading is eager iff priority or eager is given, alt is file.alt or '', and spread src/alt win |
| MobileDetection.Fold | src/hooks/useIsMobile.tsx:18 | lower-case ASCII letters fold to upper case, every other character to itself |
| MobileDetection.SearchFrom | src/hooks/useIsMobile.tsx:18 | the scan finds a case-insensitive occurrence at or after a position iff one exists |
| MobileDetection.ContainsIgnoringCase | src/hooks/useIsMobile.tsx:18 | true iff the token occurs somewhere, ignoring case |
| MobileDetection.AnyToken | src/hooks/useIsMobile.tsx:18 | true iff some token of the list occurs, ignoring case |
| MobileDetection.UserAgentIsMobile | src/hooks/useIsMobile.tsx:18 | the user-agent test holds iff one of the eight tokens occurs, ignoring case |
| MobileDetection.IsMobile | src/hooks/useIsMobile.tsx:17-19 | mobile iff one of the eight tokens occurs in the user agent, ignoring case, or the viewport is at most 768 px wide |
| MobileDetection.ClassificationCases | src/hooks/useIsMobile.tsx:17-21 | a token forces mobile, a narrow viewport forces mobile, and desktop holds exactly when neither does |
| MobileDetection.FoldInvariant | src/hooks/useIsMobile.tsx:18 | changing the case of letters in the user agent never changes whether a token occurs |
| MobileDetection.FirstLetterAbsent | src/hooks/useIsMobile.tsx:18 | a token whose first letter is absent in either case does not occur |
| MobileDetection.IPhoneIsMobile | src/hooks/useIsMobile.tsx:18 | an iPhone user agent is mobile on any viewport |
| MobileDetection.ShoutedAndroidIsMobile | src/hooks/useIsMobile.tsx:18 | an upper-case `ANDROID` still matches |
| MobileDetection.CurlIsDesktop | src/hooks/useIsMobile.tsx:17-19 | a user agent without any token on a wide viewport is a desktop |
| MobileDetection.MobileHook.constructor | src/hooks/useIsMobile.tsx:9 | the hook reports false before the classification runs |
| MobileDetection.MobileHook.CheckMobile | src/hooks/useIsMobile.tsx:16-22 | the state becomes the classification of the current user agent and viewport |
| MobileDetection.MobileHook.Mount | src/hooks/useIsMobile.tsx:11-25 | without a window the state is unchanged; otherwise it is the classification |
| ExperienceList.ApiItems | src/components/ExperienceList.tsx:29 | a missing loader data, block or item list yields no items; otherwise the items as given |
| ExperienceList.EndLabel | src/components/ExperienceList.tsx:36 | an absent or empty end date shows "Present"; otherwise the text parses back to the end year |
| ExperienceList.Period | src/components/ExperienceList.tsx:48 | the period reads back as the start year and the end year, absent for a current job |
| ExperienceList.SplitPeriod | src/components/ExperienceList.tsx:48 | splitting `start - end` on spaces gives its three parts when neither side contains a space |
| ExperienceList.PeriodRoundTrip | src/components/ExperienceList.tsx:36-48 | the start year, `" - "` and the end label read back as the start year and the end date's year, or as "Present" for an absent or empty end date |
| ExperienceList.TechNames | src/components/ExperienceList.tsx:49 | absent exactly when techStack is absent; otherwise the names of the stack, in order |
| ExperienceList.Description | src/components/ExperienceList.tsx:50 | the item's description when present and non-empty, "No description available." otherwise; never empty |
| ExperienceList.GetLogo | src/components/ExperienceList.tsx:43 | the logo markup is the item's logo when present, and empty otherwise |
| ExperienceList.ToExperience | src/components/ExperienceList.tsx:32-52 | a record carries the employer, job title, logo markup (or ""), a period that reads back as its years, the description with its fallback, and the tech names |
| ExperienceList.Transform | src/components/ExperienceList.tsx:32-52 | exactly one record per item, the k-th built from the k-th item |
| ExperienceList.TransformAppend | src/components/ExperienceList.tsx:32 | the mapping keeps order: it distributes over concatenation |
| ExperienceList.FallbackPeriod | src/components/ExperienceList.tsx:55-89 | the sample list holds one record, whose period reads back as 2020 to Present |
| ExperienceList.DisplayExperiences | src/components/ExperienceList.tsx:92 | the list shown is never empty, is the sample list iff there are no items, and otherwise is the transformed items |

## Left out

- Spring smoothing of the mouse and scroll positions (framer-motion `useSpring`): a foreign library with floating-point damping. A frame takes the current spring values as inputs.
- The mouse-move handler that computes the spring targets (stars-background.tsx:177-197) and the scroll handler (199-217). Both only feed the springs.
- Canvas drawing (`clearRect`, `arc`, `fill`, `fillStyle`, `createPattern`, `fillRect`): browser I/O. The starfield returns the list of arcs it would draw, and the noise canvas exposes the tile byte painted at each pixel.
- `requestAnimationFrame` scheduling, the `setTimeout` debouncing (100, 200 and 300 ms), window event listeners and their clean-up functions. These are event plumbing; each handler's effect is a method.
- `Math.random`, `Date.now` and `Math.sin`: inputs constrained to [0, 1) and [-1, 1].
- `getComputedStyle` colour normalisation and the temporary `div`: a browser call. The model starts from the string it returns.
- The rounding of `Uint8ClampedArray`: the buffer holds each byte's value before rounding to an integer. Its saturation at 255 (a component above 255, as in a computed `lch(50 30 300)`) and the storing of NaN as 0 are modelled in `Scale`.
- `Date` parsing and `getFullYear`: years are abstract integers carried with each date. An invalid date's `NaN` year is not modelled.
- IEEE-754 doubles: numbers are exact reals or integers. Widths, heights, quality and years are integers, so the text of a fractional `width` or `quality` is not modelled.
- Canvas sizes are natural numbers. The truncation of a fractional parent size when assigned to `canvas.width` is not modelled.
- The JSX output beyond the modelled attributes: `className`/`cn` and `object-fit` classes, the experience card markup, and the noise canvas's opacity style.
- Image spread props: only `src` and `alt` are followed. A spread prop that is explicitly `undefined` is not distinguished from an absent one.
- StarsBackground.StarDraws: requires a positive canvas height. With a zero height the source divides by a zero band height. That case cannot arise, because stars only exist for a positive canvas size and the render loop starts only when there are stars.
- StarsBackground.MouseOffsetX: states only that the offset is zero on mobile; the desktop value is not bounded.
- StarsBackground.MouseOffsetY: states only that the offset is zero on mobile; the desktop value is not bounded.
- StarsBackground.StarCount: floors the exact product width · height · starDensity. The program floors the rounded double product, which can come out one lower when the exact product is a whole number: 0.00015 is stored slightly below its value, so a 1000×800 canvas gets 119 stars, not 120.
- Text.IntToString: matches `${n}` only for magnitudes below 10^21; from there JavaScript writes exponent notation (`1e+21`). A width, quality or year of that size is outside the model.
- StarsBackground.Twinkle: the sine is an input in [-1, 1]. A star whose twinkle speed is exactly 0 (possible when minTwinkleSpeed ≤ 0 ≤ maxTwinkleSpeed) gets a NaN opacity in the source, because it takes the sine of an infinite argument; the model does not represent that NaN.
- Early exits when a browser object is missing: no canvas or 2-D context (stars-background.tsx:92, 116, 147, 220-225), no canvas or offscreen context (noise-texture.tsx:17-20, 29) and a null pattern (noise-texture.tsx:81). The model assumes these objects exist. The empty-star-list exit at stars-background.tsx:221 is modelled in `RenderFrame`.
- StarsBackground.MakeStar: the twinkle-speed bounds are stated only for min ≤ max; with min > max the speed lies in (max, min], which the model does not state.
