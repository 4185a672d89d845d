# ParkingPanda answer: a Dafny model

This project models the ParkingPanda "Spice" answer plugin. The plugin turns the
ParkingPanda search API's response into the record shape the search page's host
renders. It has three parts, all in `share/spice/parking/parking.js`:

- **The result-set gate.** `ddg_spice_parking` gives up on a response with
  `success` false or `resultsCount` equal to 0. The host is then told
  `Spice.failed('parking')`. Otherwise it hands the host the raw locations, the
  `normalize` function, the metadata (heading, source name, source URL) and a
  fixed template bundle.
- **The price formatter.** `priceFormatter` uses `Intl.NumberFormat` when the
  capability probe allows it. Otherwise it writes a prefix followed by the
  amount with two fraction digits. The prefix is the upper-cased ISO 4217 code,
  except that `USD` becomes `$` and `CAD` becomes `CA$`.
- **The item normaliser.** `normalize` drops a location without a first image.
  Otherwise it overwrites `item.price` with the formatted price and builds the
  flat card/detail record.

Modules:

- `Wrappers`: an `Option` standing for JavaScript's `null`.
- `ToFixed`: `Number.prototype.toFixed(2)` on amounts held as integer cents.
  It also holds `ParseFixedTwo`, the exact inverse of that rendering. No call of
  the plugin computes `ParseFixedTwo`; it exists only to state the round trip.
- `UpperCase`: `String.prototype.toUpperCase`, restricted to ASCII letters.
- `Parking`: the plugin itself.

How the model is set up:

- A location is the class `Parking.Location`. `normalize` writes only its
  `price` field, so that field is the class's one `var`; every other field is a
  `const`.
- `price` is a `PriceField`: either the API's amount in cents or the display
  string that `normalize` writes over it.
- What the environment supplies is an explicit `Runtime` value. It holds the
  probe's verdict, the browser's language list, and `Intl.NumberFormat` as an
  uninterpreted function.
- The two host calls become the `Directive` datatype: `Failed(id)` or
  `Rendered(...)`.
- The source object field `abstract` is named `abstractText`, because
  `abstract` is a Dafny keyword.

`ddg_spice_parking` does not run `normalize` itself. It passes `data` and
`normalize` to the host, which applies `normalize` and discards the `null`s.
`DdgSpiceParking` therefore returns the raw locations. `Outcomes`, `Survivors`
and `HostItems` stand for that host step, so that its order and filtering can
be stated.

## Model

| member | source | states |
|---|---|---|
| `ToFixed.FixedTwo` | share/spice/parking/parking.js:39 | `toFixed(2)` on an exact amount: an optional `-` for negative amounts, a non-empty digit run with no leading zero except a lone `0`, a single `.`, exactly two fraction digits, no grouping separators |
| `ToFixed.FixedTwoRoundTrip` | share/spice/parking/parking.js:39 | reading the rendered amount back with the exact inverse `ParseFixedTwo` gives the amount in cents, so the two-decimal rendering loses nothing |
| `ToFixed.FixedTwoInjective` | share/spice/parking/parking.js:39 | different amounts never render to the same string |
| `UpperCase.ToUpperCase` | share/spice/parking/parking.js:30 | the upper-cased code has the same length, and every character's lower-case ASCII letter is replaced by its capital |
| `UpperCase.ToUpperCaseIdempotent` | share/spice/parking/parking.js:30 | upper-casing an already upper-cased code changes nothing |
| `Parking.CurrencyPrefix` | share/spice/parking/parking.js:30-37 | after the two reassignments the prefix is `$` for a code that upper-cases to `USD`, `CA$` for one that upper-cases to `CAD`, and the upper-cased code otherwise |
| `Parking.PrefixIgnoresCase` | share/spice/parking/parking.js:30-37 | the prefix depends only on the upper-cased code, so `usd` gives the same prefix as `USD` |
| `Parking.PrefixSymbols` | share/spice/parking/parking.js:30-37 | the prefix is `$` exactly when the code upper-cases to `USD` or to `$`, and `CA$` exactly when it upper-cases to `CAD` or to `CA$`: the symbol table is not one-to-one |
| `Parking.PriceFormatter` | share/spice/parking/parking.js:20-41 | with the capability flag set, the result is Intl's formatting of the item's code and amount in the user's languages; without it, the result is the fallback prefix followed by the two-decimal amount |
| `Parking.FallbackFormat` | share/spice/parking/parking.js:29-39 | without Intl, the price string starts with the prefix, and the rest has the `toFixed(2)` shape and parses back to the amount |
| `Parking.FallbackUsdExample` | share/spice/parking/parking.js:29-39 | without Intl, 12.50 in `USD` or `usd` shows as `$12.50` |
| `Parking.FallbackCadExample` | share/spice/parking/parking.js:29-39 | without Intl, 7 in `CAD` shows as `CA$7.00` |
| `Parking.FallbackOtherExample` | share/spice/parking/parking.js:29-39 | without Intl, 3.40 in `EUR` shows as `EUR3.40` |
| `Parking.FirstImage` | share/spice/parking/parking.js:52 | `images[0]` is present exactly when the list is non-empty and its first entry is not null, and then it is that entry |
| `Parking.NormalizeOf` | share/spice/parking/parking.js:50-80 | `normalize` returns null exactly when the location has no first image |
| `Parking.Normalize` | share/spice/parking/parking.js:50-80 | returns what `NormalizeOf` describes. On the null path `item.price` is left as it was. Otherwise `item.price` becomes the formatted price string. No other field can change |
| `Parking.NormalizeProjection` | share/spice/parking/parking.js:59-77 | `title` and `heading` are `displayName`; `url` and `buttonUrl` are `affiliateUrl`; `subtitle` is `distanceString`; `abstractText` is `description`; `image` is the first image's medium path; `img_m` and `img` are its full path |
| `Parking.NormalizedFacetsAgree` | share/spice/parking/parking.js:57-77 | every built record has agreeing facets. The detail `price` is `Starting at ` followed by the formatted price. The card `description` is `subtitle`, then the card separator (space, vertical bar, space), then that same price, then `+` |
| `Parking.DetailPriceShowsAmount` | share/spice/parking/parking.js:39-69 | without Intl, the amount can be read back from the detail price after `Starting at ` and the currency prefix |
| `Parking.Outcomes` | share/spice/parking/parking.js:86-93 | the host gets one `normalize` result per location |
| `Parking.OutcomesAt` | share/spice/parking/parking.js:86-93 | the i-th result is `normalize`'s result for the i-th location, so the results follow location order |
| `Parking.Survivors` | share/spice/parking/parking.js:86-93 | discarding the nulls never lengthens the list |
| `Parking.HostItems` | share/spice/parking/parking.js:86-93 | the host's collected records are never more than the locations |
| `Parking.SurvivorsAppend` | share/spice/parking/parking.js:86-93 | discarding nulls distributes over concatenation, so the relative input order of the kept records is preserved |
| `Parking.SurvivorsMembers` | share/spice/parking/parking.js:86-93 | a value is kept exactly when some result carries it |
| `Parking.SurvivorsOfNone` | share/spice/parking/parking.js:86-93 | a list of null results collects to nothing |
| `Parking.HostItemsMembers` | share/spice/parking/parking.js:52-54 | a record is collected exactly when it is what `normalize` returns for some location that has a first image |
| `Parking.SurvivorsSkipsFirst` | share/spice/parking/parking.js:86-93 | results `[null, y, z]` keep `[y, z]` in that order |
| `Parking.HostItemsOrder` | share/spice/parking/parking.js:52-79 | locations `[A without image, B, C]` collect to `[B', C']` in that order |
| `Parking.DdgSpiceParking` | share/spice/parking/parking.js:43-109 | the outcome is `Failed("parking")` exactly when `success` is false or `resultsCount` is 0; otherwise it is a `parking` directive carrying the raw locations |
| `Parking.RejectionIgnoresPayload` | share/spice/parking/parking.js:46-47 | any two rejected responses give the same `Failed("parking")`, whatever else they hold |
| `Parking.RenderedMeta` | share/spice/parking/parking.js:88-90 | on success the source name is `ParkingPanda.com`. `primaryText` is `Parking Near: ` followed by the display text. `sourceUrl` is the fixed search URL followed by the unescaped query. Both texts can be read back verbatim |
| `Parking.SourceUrlInjective` | share/spice/parking/parking.js:90 | different queries give different source URLs |
| `Parking.RenderedWithoutRecords` | share/spice/parking/parking.js:46-54 | an accepted response whose locations all lack images is still rendered, with no records |
| `Parking.EndToEndRecord` | share/spice/parking/parking.js:50-80 | a 10 USD location with one image, without Intl, normalises to the record whose description is `0.2 mi`, the card separator and `$10.00+`, and whose price is `Starting at $10.00` |
| `Parking.EndToEnd` | share/spice/parking/parking.js:43-93 | the one-location `Downtown` response renders with heading `Parking Near: Downtown`, with the query appended to the source URL, and collects to exactly that record |

## Left out

- The `Intl.NumberFormat` branch (lines 21-28) is the uninterpreted `Runtime.intlFormat`. Nothing is claimed about its output, including that it has two fraction digits.
- Runtime.intlFormat: taken as total. The real `Intl.NumberFormat` throws a RangeError for a currency code that is not three ASCII letters, and a TypeError for an undefined one (lines 22-27). When `canUseIntl` is set, `normalize` then throws on such a location instead of returning a record. `NormalizeOf`, `HostItemsMembers` and the other host lemmas hold only for well-formed ISO 4217 codes, which the comment at line 17 promises.
- The language detection (lines 4-6) is the input `Runtime.userLanguage`, taken as given.
- The capability probe (lines 9-14) is the input `Runtime.canUseIntl`. It inspects the browser environment.
- `parseFloat(item.price)` (line 39) is represented by holding the price as `Amount(cents)`. A price that arrives as text is taken as already parsed. No function of the model stands for `parseFloat`.
- ToFixed.FixedTwo: amounts are exact integer cents. It does not model the binary floating-point rounding of `parseFloat`/`toFixed`. It does not model the exponential notation `toFixed` uses from 1e21 upward. It does not model `NaN` for a price that does not parse.
- UpperCase.ToUpperCase: maps only ASCII `a`-`z`. JavaScript's full Unicode case mapping is not modelled. For example, it also turns `ſ` into `S`, and `ß` into `SS`.
- Parking.Normalize: requires that a location with a first image still holds its unformatted amount, as the comment at line 16 states. Calling `normalize` a second time on a location whose price is already text is not modelled.
- Parking.HostItems: reads every location's price before any is normalised. This matches the host only when each location is a distinct object.
- The host's own work is not part of this model: `Spice.add`, `Spice.failed`, the `buy` and `subtitle_content` hooks taken from `Spice.parking`, and rendering. The directive records the constant template names and option flags. It does not record the two hooks or the `normalize` function passed with the data (`normalize` is modelled on its own).
- JavaScript truthiness and missing fields are not modelled. Fields have their documented types:
  - `success` is a boolean.
  - `resultsCount` is an integer. A negative count, like any non-zero one, is not rejected, and the model keeps that.
  - Every text field is a string. An absent one would be concatenated as `undefined`.
  - `images` is a list whose entries may be null. A location with no `images` at all would throw, and that is not modelled.
- The function wrapper and the `env` global binding (lines 1 and 111) are module plumbing.
