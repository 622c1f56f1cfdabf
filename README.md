# WeatherWise core in Dafny

This project models two parts of the WeatherWise browser dashboard.

**The animated background of the UI manager** (`js/ui-manager.js`). A
profile table maps a weather condition to a particle count, kinds, colors,
a speed, a size range and an opacity range. A condition the table does not
know gets the Clear profile. The empty (falsy) condition is also *renamed*
to Clear. A rebuild throws the old pool away and pushes `count` new
particles. Each particle is a sparkle, a haze blob, a cloud puff, a rain
streak or a snowflake, with the fields that kind needs. Every frame:

- the elapsed time is capped at 100 ms;
- each particle moves by its kind's rule;
- each coordinate wraps toroidally with a 100-pixel margin.

The UI manager also keeps the theme, the unit system and the last five
searched cities.

**The helpers of the weather service** (`js/weather-service.js`):

- the unit conversions, which hand a missing value back unchanged;
- the tips (condition tips plus temperature-band tips);
- the reverse lookup from coordinates to the first city within 2 degrees;
- the fields derived from an API response;
- the 15-minute cache in front of `getWeather`.

Modules:

- `Wrappers` — `Option`, used for JavaScript's `null`/`undefined`.
- `Text` — ASCII lower/upper case, the display-name capitalisation.
- `Particles` — the profile table, particle construction from random draws, pool construction, motion, frame delta, wrap (pure functions and lemmas).
- `Animation` — class `Animator`. It holds the module-level canvas state: context present, canvas size, condition, pool, last timestamp.
- `Preferences` — class `Preferences` (theme, units, history) and the history functions.
- `WeatherService` — conversions, tips, the city table, the response derivation.
- `WeatherCache` — the time-to-live cache as map functions, and class `Service` with `GetFromCache`, `SetToCache` and `GetWeather`.

Things outside the program become parameters:

- every `Math.random()` result is one element of a draw sequence in `[0, 1)`, consumed in the source's call order;
- the sine terms of the sparkle pulse and the snow sway are a per-particle value `waves[i]`;
- `window.innerWidth`/`innerHeight` are natural-number parameters;
- frame timestamps and `Date.now()` are parameters;
- the outcome of the HTTP request is a parameter: `None` stands for a failed request, a non-OK status, a body that does not parse, or a body that parses to `null`.

All arithmetic is exact `real` arithmetic, not IEEE doubles.

Behaviour of the code that may be unexpected, modelled as written:

- An unrecognised condition keeps its own name as the active condition, which still selects the gradient. Only the *profile* falls back to Clear.
- A zero-width or zero-height window is not skipped. The pool is built anyway, with coordinate 0.
- There is no `stop` operation.
- The frame delta is capped from above only. A timestamp that goes backwards gives a negative delta.

JavaScript's `x || d` defaulting is modelled as written: a reading of exactly `0` counts as missing. A temperature of 0 °C therefore becomes the 20 °C default, and a calm wind becomes 3 m/s (`ZeroReadingsTakeDefaults`).

## Model

| member | source | states |
|---|---|---|
| `Text.ToLower` | js/ui-manager.js:406 | same length, every character lower-cased (ASCII) |
| `Text.ToLowerIdempotent` | js/weather-service.js:152 | lower-casing twice equals lower-casing once |
| `Text.Capitalized` | js/weather-service.js:180 | same length, first character upper-cased, rest unchanged, equal to the input ignoring case |
| `Text.CapitalizedIdempotent` | js/weather-service.js:229 | capitalising a capitalised name changes nothing |
| `Particles.EffectiveCondition` | js/ui-manager.js:118 | never empty; a non-empty condition is kept as it is; the empty condition becomes Clear |
| `Particles.ProfileFor` | js/ui-manager.js:121 | the selected profile is well formed: kinds and colors non-empty, size and opacity ranges ordered |
| `Particles.UnknownConditionIsClear` | js/ui-manager.js:121 | a condition outside the table gets the Clear profile: 30 particles of kinds sparkle and haze |
| `Particles.EffectiveConditionSameProfile` | js/ui-manager.js:118-121 | renaming the falsy condition to Clear does not change the profile chosen |
| `Particles.ProfileCounts` | js/ui-manager.js:56-115 | the count of each table entry (18, 85, 60, 100, 15) and 30 for every other condition |
| `Particles.AngleOf` | js/ui-manager.js:170 | the profile's rain angle when it has one, 0 otherwise |
| `Particles.DriftOf` | js/ui-manager.js:178 | a present non-zero drift is kept; a missing or zero (falsy) drift gives 0.2; the result is never 0 |
| `Particles.Index` | js/ui-manager.js:126 | `Math.floor(r * n)` for a draw `r`: a valid index below `n` |
| `Particles.IndexIsFloor` | js/ui-manager.js:126 | the index is the floor of `r * n`: not above it, and more than `r * n - 1` |
| `Particles.DrawBase` | js/ui-manager.js:126-133 | the kind is one the profile lists, the color is one of its colors, `0 <= x < w` and `0 <= y < h` (0 on an empty window), opacity within the profile's range |
| `Particles.MakeSparkle` | js/ui-manager.js:136-145 | radius in the size range, pulse in [0.5, 1], pulse speed in [0.02, 0.05], base fields kept |
| `Particles.MakeHaze` | js/ui-manager.js:146-155 | opacity overridden to half the profile minimum, the fixed haze color, radius in [10, 40], speeds within ±0.015 and ±0.01 |
| `Particles.MakeCloud` | js/ui-manager.js:156-164 | radius in the size range, sub-puff count in {3, 4, 5}, x speed in [speed, speed + 0.02], y speed within ±0.0015 |
| `Particles.MakeRain` | js/ui-manager.js:165-173 | length in the size range, fall speed in [speed, speed + 3], the profile's angle (0 when absent), thickness in [1, 2.2] |
| `Particles.MakeSnow` | js/ui-manager.js:174-183 | radius in the size range, sway in [0, 0.5], phase in [0, 100] |
| `Particles.MakeParticle` | js/ui-manager.js:125-185 | one loop iteration yields a particle that fits its profile and uses 8 to 10 draws |
| `Particles.BuildPool` | js/ui-manager.js:125-185 | the pool built from `n` iterations has exactly `n` particles |
| `Particles.BuildPoolStep` | js/ui-manager.js:125-185 | one loop iteration pushes the particle built from the first draws, and the rest of the pool is built from the remaining draws |
| `Particles.PoolFits` | js/ui-manager.js:125-185 | every particle of a built pool fits its profile: kind, position on the window, opacity, color and kind-specific ranges |
| `Particles.UnknownConditionBuildsClear` | js/ui-manager.js:121 | an unknown condition builds exactly the pool Clear builds from the same draws |
| `Particles.FrameDelta` | js/ui-manager.js:191-192 | the delta is at most 100; it is 0 on the first frame (zero last timestamp); it is the real gap when that is under 100 and exactly 100 otherwise |
| `Particles.Move` | js/ui-manager.js:237-260 | moving changes only the position and, for a pulsing sparkle, the radius (by `wave * 0.05`); kind, opacity, color, speeds, sizes and all other fields are kept |
| `Particles.LongGapMovesOneCappedFrame` | js/ui-manager.js:192 | a gap of 100 ms or more moves a particle as far as a 100 ms frame; rain falls by exactly `speedY * 8` |
| `Particles.WrapCoord` | js/ui-manager.js:262-267 | result within `[-100, extent + 100]`; past the far bound it is exactly -100, below -100 exactly `extent + 100`, inside it is unchanged |
| `Particles.WrapCoordIdempotent` | js/ui-manager.js:262-267 | wrapping a wrapped coordinate leaves it unchanged |
| `Particles.StepParticle` | js/ui-manager.js:237-267 | after a step the particle lies within the margins of the canvas; its coordinates are the wrapped moved ones, and every field other than the position (and a sparkle's radius) is unchanged |
| `Particles.StepKeepsShape` | js/ui-manager.js:237-267 | a frame keeps a non-sparkle particle within the kind-specific ranges of its profile |
| `Particles.StepParticleAtRest` | js/ui-manager.js:237-267 | a non-sparkle, non-snow particle inside the margins and a zero delta is left as it is |
| `Particles.RightEdgeWrapsToMinusMargin` | js/ui-manager.js:264 | a sparkle, haze blob or cloud at `width + 100` moving right lands at exactly -100 |
| `Animation.BuildParticles` | js/ui-manager.js:125-185 | the push loop yields the built pool: `count` particles, each fitting the profile |
| `Animation.Animator.constructor` | js/ui-manager.js:49-53 | no context, empty pool, condition Clear, last timestamp 0 |
| `Animation.Animator.InitParticles` | js/ui-manager.js:117-186 | the condition becomes `condition \|\| 'Clear'`; the pool is replaced entirely by the built pool of that profile, with its count and kinds |
| `Animation.Animator.Setup` | js/ui-manager.js:323-345 | without a canvas nothing changes; with one the canvas takes the window size and the pool is rebuilt for the current condition |
| `Animation.Animator.Resize` | js/ui-manager.js:332-336 | once attached, the canvas takes the new size and the pool is rebuilt for the current condition |
| `Animation.Animator.SetCondition` | js/ui-manager.js:346-350 | once attached, the pool is rebuilt for the given condition (also when it is the same one); the stub does nothing |
| `Animation.Animator.Frame` | js/ui-manager.js:188-267 | without a context nothing changes; otherwise the last timestamp becomes the frame's, each particle is stepped with the clamped delta, and all lie within the wrap margins; pool size and kinds are preserved |
| `Preferences.ToggledTheme` | js/ui-manager.js:372-374 | the result is light or dark, and it is dark exactly when the old theme was light |
| `Preferences.ToggleThemeTwice` | js/ui-manager.js:372-374 | toggling a light or dark theme twice restores it |
| `Preferences.WithoutCity` | js/ui-manager.js:406 | the filtered history is no longer, keeps only entries of the old history, and none equal to the city ignoring case |
| `Preferences.WithoutCityKeepsOrder` | js/ui-manager.js:406 | the filtered history is a subsequence of the old one |
| `Preferences.WithoutCityKeepsOthers` | js/ui-manager.js:406 | every entry that does not match the city survives the filter |
| `Preferences.WithoutCityKeepsCounts` | js/ui-manager.js:406 | every non-matching entry keeps its number of occurrences, duplicates included |
| `Preferences.WithoutCityConcat` | js/ui-manager.js:406 | filtering a concatenation gives the concatenation of the filtered parts |
| `Preferences.WithoutCityNoMatch` | js/ui-manager.js:406 | a history without a match is left as it is |
| `Preferences.AddedToHistory` | js/ui-manager.js:404-408 | the city comes first, at most 5 entries, no other entry matches the city ignoring case, the rest is the filtered history's prefix, and the length is `min(5, 1 + filtered length)` |
| `Preferences.AddedToHistoryKeepsOrder` | js/ui-manager.js:405-408 | the entries after the first appear in the old history in the same relative order |
| `Preferences.AddedToHistoryTwice` | js/ui-manager.js:404-408 | searching for the same city twice leaves the history as after once |
| `Preferences.Preferences.constructor` | js/ui-manager.js:3-4 | metric units, light theme, empty history |
| `Preferences.Preferences.SetTheme` | js/ui-manager.js:359-360 | the current theme becomes the given one |
| `Preferences.Preferences.ToggleTheme` | js/ui-manager.js:372-374 | the current theme becomes its toggled value |
| `Preferences.Preferences.ToggleUnits` | js/ui-manager.js:383-384 | the unit flag is negated |
| `Preferences.Preferences.AddToHistory` | js/ui-manager.js:404-408 | the history becomes the added-to history of the old one |
| `WeatherService.ConvertTemp` | js/weather-service.js:68-74 | a missing input stays missing; without the flag the identity; with it the inverse formula recovers the Celsius value |
| `WeatherService.ConvertSpeed` | js/weather-service.js:76-82 | a missing input stays missing; without the flag the identity; with it the result divided by 2.237 is the input |
| `WeatherService.ConvertVisibility` | js/weather-service.js:84-90 | a missing input stays missing; the result times 1000 (km) or 1609.34 (miles) is the input in meters |
| `WeatherService.ConversionsMonotonic` | js/weather-service.js:68-90 | each conversion preserves the order of two readings |
| `WeatherService.BaseTips` | js/weather-service.js:138 | the three tips of a known condition, the single default tip otherwise |
| `WeatherService.WeatherTips` | js/weather-service.js:137-148 | the base tips come first; then the three hot tips above 30, the three cold tips below 5, nothing in between |
| `WeatherService.WeatherTipsCount` | js/weather-service.js:137-148 | 3 or 6 tips for a known condition, 1 or 4 otherwise |
| `WeatherService.Near` | js/weather-service.js:334 | both coordinates differ by strictly less than 2 degrees |
| `WeatherService.CityFromCoords` | js/weather-service.js:331-339 | the first table city whose latitude and longitude both differ by less than 2, or New York when none does |
| `WeatherService.CoordsOf` | js/weather-service.js:163 | a found entry is in the table under that name; nothing is found only when no entry has that name |
| `WeatherService.FindCity` | js/weather-service.js:163 | a found city is in the list under that name; nothing is found only when no entry has that name |
| `WeatherService.OrNumber` | js/weather-service.js:182 | a present non-zero number is kept; a missing or zero one gives the default |
| `WeatherService.OrString` | js/weather-service.js:213 | a present non-empty string is kept; a missing or empty one gives the default |
| `WeatherService.ConditionKey` | js/weather-service.js:216 | the key is in the condition table: the response's own condition when the table knows it, `Clear` when it is missing or unknown |
| `WeatherService.Enhance` | js/weather-service.js:178-217 | capitalised name; every reading is the response's value or its default in the `\|\|` sense (temperature 20, wind 3, humidity 50, pressure 1013, visibility 10000, sunrise and sunset); `temp_min = temp - 2`, `temp_max = temp + 3`, `gust = speed + 2` from the same defaulted values; tips for the defaulted condition and temperature; the condition entry falls back to Clear |
| `WeatherService.ZeroReadingsTakeDefaults` | js/weather-service.js:182-191 | a reading of exactly 0 is replaced by the default (20 degrees, 3 m/s) |
| `WeatherService.MockReport` | js/weather-service.js:228-268 | capitalised name, the fixed readings 22/18/25 and 3.5/4.2, condition Clear, Clear tips for 22 degrees |
| `WeatherCache.Lookup` | js/weather-service.js:93-97 | a hit exactly when the key is present and younger than 15 minutes, and then the stored data |
| `WeatherCache.AfterLookup` | js/weather-service.js:93-99 | the key stays exactly on a hit; no other key is added, removed or changed |
| `WeatherCache.Stored` | js/weather-service.js:102-107 | the key maps to the data and the store time; no other key changes |
| `WeatherCache.StoreThenLookup` | js/weather-service.js:93-107 | data stored at `t0` is returned by a lookup at `now` with `now - t0 < 15*60*1000`, and the cache is kept |
| `WeatherCache.StoreThenExpire` | js/weather-service.js:93-99 | 15 minutes or more after storing, the lookup returns nothing and removes exactly that key |
| `WeatherCache.StoreKeepsOtherKeys` | js/weather-service.js:102-107 | storing under one key does not change a lookup of another |
| `WeatherCache.CacheKey` | js/weather-service.js:152-153 | `weather_` followed by the lower-cased name |
| `WeatherCache.CacheKeyIgnoresCase` | js/weather-service.js:152-153 | two names share a cache key exactly when they are equal ignoring case |
| `WeatherCache.Fetched` | js/weather-service.js:161-271 | the enhanced response for a listed city whose request succeeded, the mock record otherwise |
| `WeatherCache.Service.constructor` | js/weather-service.js:6 | an empty cache |
| `WeatherCache.Service.GetFromCache` | js/weather-service.js:93-100 | returns the lookup result and leaves the cache as after the lookup |
| `WeatherCache.Service.SetToCache` | js/weather-service.js:102-107 | the cache becomes the stored cache |
| `WeatherCache.Service.GetWeather` | js/weather-service.js:151-273 | a fresh hit is returned with the cache unchanged; otherwise the fetched or mock record is returned and stored under the city's key |

## Left out

- Canvas drawing: clearing, the time-varying gradient, the blur filter, arcs, strokes, shadows. This is pixel output through a host API. The profile's `blur` flag is kept as data only.
- The lightning flash. It is a random draw against 0.002 plus a delayed second flash through `setTimeout`, so it is asynchronous output with no state.
- `requestAnimationFrame`, `cancelAnimationFrame` and the resize listener registration. This is host scheduling. `Frame` and `Resize` model what one callback does.
- Calling `setupCanvas` twice registers two resize listeners. The model has no listeners.
- The pulse and snow-sway sine terms are the parameters `waves[i]`. The model does not bound them to [-1, 1], since no contract depends on it.
- Particles.MakeSparkle: does not bound `speedX` or `speedY`. They are products of draw-dependent reals, and no behaviour depends on their range.
- Particles.MakeSnow: does not bound `speedX` or `speedY`, for the same reason.
- Animation.Animator.Frame: the particle updates are datatype values in a sequence, not objects updated in place. The source array is the only reference to its particles, so no aliasing is lost.
- Local storage: `loadTheme`, `loadUnits`, `loadSearchHistory`, and the writes in `setTheme`, `toggleUnits` and `addToHistory`. This is browser I/O. The history field is the stored list.
- The icon, meta-tag and unit-label DOM updates, `updateHistoryDisplay`, `displayWeather`, `displayForecast`, and the show/hide state functions. These only write the page.
- `window.onUnitsChange` notification after `toggleUnits`. This is an event callback into the app.
- `fetch`, `response.json`, `getForecast` (random mock data), `getCurrentLocation` (geolocation). These are network, device and async glue. The request outcome is a parameter of `GetWeather`.
- `formatTime`, `formatDate` and the `formatted` block of the report. They rely on locale-dependent library formatting.
- Response fields copied through by `...data` other than the ones `RawWeather` lists. The icon and color of the condition entry are left out too: `Report.conditionKey` names the entry.
- Console logging.
- Text.ToLower: maps ASCII letters only. JavaScript's full Unicode case mapping is not modelled.
- Text.Capitalized: upper-cases an ASCII first letter only. JavaScript's `toUpperCase` also maps non-ASCII letters and can lengthen the string (`'ß'` becomes `"SS"`), which the model's same-length promise does not cover.
- WeatherService.OrNumber: does not treat `NaN` as falsy. There are no IEEE special values in `real`.
- Object-prototype keys such as `constructor` are found by `PARTICLE_CONFIG[...]`, `CITY_COORDINATES[...]` and `WEATHER_CONDITIONS[...]` in JavaScript. The tables here are plain maps and sequences, so those keys are unknown.
- WeatherCache.Service.GetWeather: the lookup, the request and the store are one atomic step. In the source, `fetch` and `response.json()` are awaited between `getFromCache` and `setToCache`, and other calls from the app can interleave there. The model does not capture that interleaving.
- `null`/`undefined` as a condition behaves like the empty string, which the model uses.
- js/app.js only wires events, timers and alerts, so it is not part of this model.
