# use-translation, modelled in Dafny

use-translation is a small React localisation library. This project models
its logic in `index.ts`. That logic has two parts:

- **The translate function** that `translateFunctionFactory(dictionary)`
  returns. `t(key, data?)` looks `key` up in a nested translation dictionary
  by its dot-separated path. When a payload is given and its `n` calls for
  it, it uses the `<name>_plural` sibling. Then, only when a payload is
  given, it replaces every `{placeholder}` in the chosen label by
  `data[placeholder] || ""`. A key that is not in the dictionary is its own
  template.
- **The way `TranslationProvider` chooses a dictionary.** The starting
  locale is `props.defaultLocale || options.defaultLocale`. The dictionary is
  `translations[locale]` when there is one, else the default translation,
  and the provider raises an error when there is neither.

Everything is pure: datatypes, functions and lemmas.

| file | module | what it holds |
|---|---|---|
| `wrappers.dfy` | `Wrappers` | `Option` and `Result` |
| `data_values.dfy` | `DataValues` | payload values; JavaScript truthiness, `String(v)`, `ToNumber(v)`; the plural cue `n > 1 \|\| n < 1` |
| `paths.dfy` | `Paths` | dictionaries (`Entry = Leaf(text) \| Node(children)`), the dot split and the path lookup (`getPathInfo`) |
| `interpolation.dfy` | `Interpolation` | the placeholder regex as a token recogniser, the one-pass replace, and templates described as pieces |
| `translator.dfy` | `Translator` | plural-variant choice and the translate function |
| `provider.dfy` | `Provider` | initial locale and dictionary selection, with its error message |
| `examples_from_tests.dfy` | `TestText`, `TestExamples` | `TestText`: the string-literal facts the test lemmas rely on (each test's template and expected output as a concatenation of its pieces); `TestExamples`: each case of `index.test.js` as a lemma, plus a few edge cases of the replace |

How the JavaScript is rendered:

- A payload entry is `Undefined | Null | Bool | Num(int) | Str`. A key that
  is not in the payload map reads as `Undefined`; a payload's inherited
  properties (`constructor`, `toString`, `__proto__`) are not part of the
  map, so they read as `Undefined` too (see "Left out").
- `translations[locale]` with an undefined locale reads the property
  `"undefined"`. `LocaleKey` models this, and the error message prints
  `undefined` the same way.
- The placeholder regex (case-insensitive, global) matches a single `{`,
  then either one or more ASCII digits or an ASCII letter, `$` or `_`
  followed by letters, digits, `$`, `_` or `.`, then `}`. The lazy
  quantifiers cannot stop before a `}`, so the body is the longest run of
  such characters. A match needs a `}` right after that run. `TokenAt`
  recognises exactly this. `Interpolate` scans from left to right and resumes
  after each match, as a global replace does, so replaced text is never
  scanned again.
- Without a payload, `t` returns the selected entry itself. That is a nested
  dictionary (`Node`) when the key names one. With a payload the entry
  becomes text first, and a nested dictionary reads as `"[object Object]"`.

Four facts of the code that the model keeps:

- There is no `_zero` variant. A count of zero selects `_plural`.
- `{{x}}` is not a placeholder: the outer braces stay and only `{x}` is
  replaced.
- The fallback is `||`, not `??`, so the number `0`, `false` and `""` in the
  payload are replaced by the empty string.
- The starting locale also falls back when `props.defaultLocale` is `""`.

## Model

| member | source | states |
|---|---|---|
| `DataValues.NatToDecimal` | index.ts:161 | the decimal text of a natural number is a non-empty run of decimal digits with no leading zero, as `String(n)` prints an integer below 10^21 |
| `DataValues.DecimalRoundTrip` | index.ts:161 | the decimal text of a natural number denotes that number |
| `DataValues.IntRoundTrip` | index.ts:157 | `Number(String(i)) === i` for every integer, so a count given as its decimal text compares like the number |
| `DataValues.Truthy` | index.ts:161 | a payload value is falsy exactly when it is missing, `null`, `false`, `0` or `""` |
| `DataValues.MissingReadsEmpty` | index.ts:161 | `data[key]` of a key the payload does not hold is `undefined`, and its placeholder becomes the empty string |
| `DataValues.LeadingZeroNumber` | index.ts:157 | `Number(s)` of a digit string is unchanged by a leading zero |
| `DataValues.ToNumberOfPrinted` | index.ts:157-161 | converting a value's printed text back to a number gives the value's own number, except for `null` and booleans, which convert to numbers although their texts do not |
| `DataValues.PluralCue` | index.ts:157 | `data.n > 1 \|\| data.n < 1` holds exactly when `n` converts to a number and that number is not one |
| `DataValues.ToStr` | index.ts:161 | a string prints as itself; a number prints as a text that converts back to the same number |
| `DataValues.Substitution` | index.ts:161 | `${v \|\| ""}` is empty exactly when `v` is falsy (missing, `null`, `false`, `0`, `""`), and is `String(v)` otherwise |
| `DataValues.PluralCueOfNumber` | index.ts:157 | `n > 1 \|\| n < 1` holds for a number exactly when it is not one, zero and negatives included |
| `DataValues.PluralCueOfNumericString` | index.ts:157 | a count given as its decimal string cues the plural exactly as the number does |
| `Paths.Split` | index.ts:155 | splitting a key on `.` gives at least one segment, and no segment holds a dot |
| `Paths.SplitJoin` | index.ts:155 | joining the segments with `.` gives back the key |
| `Paths.JoinSplit` | index.ts:155 | dot-free segments joined and split again give back the segments |
| `Paths.Lookup` | index.ts:155 | a single segment is looked up in the dictionary itself, which is the parent: found exactly when it is a key there, with that entry as value; a longer path whose first segment is missing or names a label finds nothing, has no parent and is named by its last segment |
| `Paths.LookupDescend` | index.ts:155 | a longer path whose first segment names a nested dictionary is looked up, minus that segment, in the nested dictionary |
| `Paths.ResolvePath` | index.ts:155 | `getPathInfo`: `exists` exactly when the parent holds `name`, with `value` the entry there, and no value otherwise |
| `Paths.ResolveSimpleKey` | index.ts:155 | a dot-free key is found exactly when it is a key of the dictionary (exact, case-sensitive), with that dictionary as parent |
| `Paths.ResolveDescend` | index.ts:155 | `a.rest` resolves as `rest` does inside the dictionary under `a`; when `a` is missing or a label, nothing is found and there is no parent |
| `Paths.ResolveNested` | index.ts:155 | any dictionary that holds an entry at the end of a path of nested dictionaries (dot-free segments) finds it by that path's dotted key, named by the last segment |
| `Interpolation.BodyRun` | index.ts:152 | the longest prefix of placeholder-body characters |
| `Interpolation.TokenAt` | index.ts:152 | a match is a well-formed placeholder body, in single braces, at the start of the text |
| `Interpolation.TokenAtMatches` | index.ts:152 | conversely, a text that starts with a braced placeholder body is matched as exactly that body |
| `Interpolation.Tokens` | index.ts:152 | every name the scan replaces is a well-formed placeholder body |
| `Interpolation.NoBraceNoTokens` | index.ts:152 | a text with no `{` contains no placeholder |
| `Interpolation.Interpolate` | index.ts:161 | a template in which the scan finds no placeholder comes back unchanged, whatever the payload |
| `Interpolation.InterpolateLiteralPrefix` | index.ts:161 | text before the first `{` is copied through unchanged |
| `Interpolation.InterpolateTokenPrefix` | index.ts:161 | a leading placeholder is replaced by the payload entry under its whole name, dots included, and the scan resumes after its `}`; the substituted text is not scanned again |
| `Interpolation.InterpolateOpenBrace` | index.ts:152 | a `{` followed by another `{` starts no placeholder and is kept |
| `Interpolation.InterpolateDoubleBraces` | index.ts:152 | in `{{x}}` only the inner `{x}` is replaced and the outer braces stay |
| `Interpolation.InterpolateDependsOnTokens` | index.ts:161 | the result depends on the payload only through the entries its placeholders name |
| `Interpolation.InterpolateEcho` | index.ts:161 | when each placeholder's entry is its own braced text, the output is the template: only what a placeholder covers changes |
| `Interpolation.InterpolatePieces` | index.ts:161 | any template made of brace-free text and placeholders renders piece by piece: text kept, each placeholder replaced independently |
| `Translator.PluralKeyInjective` | index.ts:157-158 | `<name>_plural` determines the name, and is never the name itself |
| `Translator.ObjectTextHasNoBrace` | index.ts:161 | the text of a nested dictionary, `"[object Object]"`, holds no `{`, so the replace leaves it alone |
| `Translator.TranslateDictionaryWithData` | index.ts:155-161 | with a payload, a dot-free key that names a nested dictionary, when the plural sibling is not chosen, gives `"[object Object]"` |
| `Translator.SelectVariant` | index.ts:156-160 | a key the lookup did not find is its own template |
| `Translator.Translate` | index.ts:154-162 | with a payload the result is always text |
| `Translator.TranslateUnknownKey` | index.ts:156-161 | an unknown key comes back unchanged without a payload, and interpolated with one |
| `Translator.TranslateMissingSimpleKey` | index.ts:155-160 | a dot-free key the dictionary does not hold (any other capitalisation included) comes back as it is |
| `Translator.TranslateWithoutData` | index.ts:161 | without a payload, the entry found is returned verbatim, braces and all |
| `Translator.TranslateSimpleKey` | index.ts:155-161 | without a payload, a dot-free key the dictionary holds gives its entry |
| `Translator.TranslateSimpleVariant` | index.ts:156-161 | with a payload, the `<key>_plural` label is used exactly when `n` cues the plural and that label exists; otherwise the key's own label is used |
| `Translator.TranslateVariant` | index.ts:156-161 | the same rule for any key that resolves, with the sibling looked for in the dictionary that holds the last segment |
| `Translator.TranslateZeroIsPlural` | index.ts:157-158 | every count other than one, zero included, selects an existing plural sibling |
| `Translator.TranslateSingular` | index.ts:157-159 | a count of one, or no count, keeps the key's own label |
| `Translator.TranslateDescend` | index.ts:155 | a dotted key translates as its rest does in the nested dictionary its first segment names, when the rest is found there |
| `Translator.TranslateNested` | index.ts:155 | in any dictionary, a label stored at the end of a path of nested dictionaries is what its dotted key returns without a payload |
| `Translator.TranslatePlainLabel` | index.ts:161 | a label with no `{` comes back unchanged whatever the payload, when the plural sibling is not chosen |
| `Translator.TranslateSimpleTemplate` | index.ts:155-161 | a dot-free key whose label is a template of text and placeholders translates to that template rendered piece by piece |
| `Provider.InitialLocale` | index.ts:124 | the props locale when it is set and non-empty, else the options locale |
| `Provider.SelectDictionary` | index.ts:127-131 | an error exactly when there is no default and the locale is not a key of `translations`, with the message naming the locale; otherwise `translations[locale]` when present, else the default |
| `Provider.DefaultNeverFails` | index.ts:128-131 | with a default translation the provider never fails, whatever the locale |
| `Provider.SelectedIsSupplied` | index.ts:131 | the dictionary chosen is always one that was supplied: an entry of `translations` or the default |
| `Provider.UndefinedLocale` | index.ts:128-131 | an undefined locale is looked up, and checked, as the key `"undefined"` |
| `Provider.MessageNamesLocale` | index.ts:129 | the error message determines the locale it names: two locales with the same message have the same key |
| `TestExamples.PlainEntries` | index.test.js:5-7 | the test dictionary holds the labels of `foo`, `hotel` and `alpha`, and no `key` or `Foo` |
| `TestExamples.TemplateEntries` | index.test.js:8-11 | the test dictionary holds the templates of `beta`, `gamma`, `delta` and `delta_plural` |
| `TestExamples.NestedEntries` | index.test.js:12-15 | the test dictionary's `nested` dictionary holds `values` and `replacements` |
| `TestExamples.PlainTerm` | index.test.js:21-25 | `t("foo")`, `t("hotel")` and `t("alpha")` give their labels |
| `TestExamples.OneReplacement` | index.test.js:27-29 | `t("beta", {item: "sandwich"})` replaces the one placeholder |
| `TestExamples.SeveralReplacements` | index.test.js:31-33 | `t("gamma", {sender, receiver})` replaces both placeholders, whatever order the payload lists them in |
| `TestExamples.SingularReplacement` | index.test.js:36 | `t("delta", {n: 1})` keeps the singular label and prints the count |
| `TestExamples.PluralReplacement` | index.test.js:37 | `t("delta", {n: 2})` uses `delta_plural` and prints the count |
| `TestExamples.UnknownKeys` | index.test.js:40-43 | `t("key")` and `t("Foo")` give the key back |
| `TestExamples.UnknownKeyReplacement` | index.test.js:45-47 | an unknown key with a payload is interpolated as a template |
| `TestExamples.NestedTerm` | index.test.js:49-51 | `t("nested.values")` reads the nested label |
| `TestExamples.NestedReplacement` | index.test.js:53-55 | `t("nested.replacements", {...})` reads the nested label and replaces its three placeholders |
| `TestExamples.MissingEntry` | index.ts:161 | a placeholder with no payload entry becomes the empty string |
| `TestExamples.ZeroEntry` | index.ts:161 | a payload entry of `0` becomes the empty string |
| `TestExamples.DoubledBraces` | index.ts:152 | `{{x}}` with `x = "A"` gives `{A}` |
| `TestExamples.NoRescan` | index.ts:161 | a substituted value that looks like a placeholder is not replaced again |
| `TestExamples.DottedPlaceholder` | index.ts:152 | `{a.b}` reads the payload under the flat name `a.b`, not a nested entry |
| `TestExamples.NumericPlaceholder` | index.ts:152 | `{0}` reads the payload under `"0"` |
| `TestExamples.PlaceholderCaseKept` | index.ts:152 | matching ignores case, but the payload is read under the name as written |

## Left out

- The React adapter: the context object, `TranslationConsumer`, `useTranslation` and their "used outside a TranslationProvider" errors, and `createElement` rendering (index.ts:112-122, 134-148). None of it computes anything the model needs.
- Locale state: `useState`'s setter (`setLocale`) and `useMemo`'s re-evaluation when the locale changes. `SelectDictionary` is the computation that re-evaluation performs for a given locale; `InitialLocale` is the first value of the state.
- pathval's `getPathInfo` internals. The model splits the key on every `.` and keeps empty segments. pathval does not handle these cases that way: bracket indices (`a[0]`), escaped dots, dropping empty segments, and throwing on a key with no non-dot character (`""`, `"."`, `".."`).
- pathval's `hasProperty` uses `in`, so inherited properties count. `t("toString")` finds `Object.prototype.toString`, and a path through a string label (`"foo.length"`) finds the string's properties. In the model, membership is exact map membership, and a path through a label finds nothing.
- `hasProperty(translations, locale)` sees inherited properties in the same way. `SelectDictionary` uses map membership.
- DataValues.Get: the payload is a map of its own properties. In JavaScript `data[key]` also reads inherited properties, so `{constructor}` or `{toString}` becomes the text of a function and `{__proto__}` becomes `"[object Object]"`. In the model these placeholders read `undefined` and become the empty string.
- DataValues.NatToDecimal: numbers are unbounded integers. JavaScript numbers hold integers exactly only up to 2^53, and `String(n)` switches to exponent notation (`1e+21`) from 10^21 on. So `NatToDecimal`, `IntToDecimal` and the round trips about them match JavaScript only below those bounds.
- Payload values that are objects, arrays, functions or fractional or non-finite numbers. Numbers are integers, so `String` of a fraction and NaN arithmetic are not modelled.
- DataValues.StringToNumber: `Number(s)` is modelled only for `""` and optionally negative decimal digits. Whitespace, `+`, decimal points, exponents and hexadecimal make NaN in the model, unlike in JavaScript. This only affects string counts given as `n`.
- Stringifying a nested dictionary gives `"[object Object]"`. Other JavaScript stringifications (a `toString` override, for example) are not modelled.
- Translator.SelectVariant: states only the unknown-key case; the plural choice it makes is stated by `TranslateVariant` and `TranslateSimpleVariant`.
- Translator.Translate: states only that the result is text when a payload is given; what that text is can be found in `TranslateSimpleVariant`, `TranslateVariant` and the lemmas beside them.
- rollup.config.js is build configuration and is not part of this model. The mocha tests in index.test.js appear only as the lemmas in `TestExamples`.
