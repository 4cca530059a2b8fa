# Dadaal translations: language selection and lookup

This project models the translation component of the Dadaal web application
(`translations.py`) in Dafny and proves properties of that model.

The component has three parts:

- **The table.** A fixed table maps a language code to a key to a display
  string. It holds four languages: Somali `so`, English `en`, Arabic `ar` and
  French `fr`. Each has the same 46 keys.
- **Language selection.** `get_language` answers the language stored in the
  client's session, if there is one, and does not check it. Otherwise it
  answers the `lang` query parameter when that is non-empty and a code of the
  table, and stores it in the session. Otherwise it answers Somali and stores
  nothing. `set_language` stores a code only when the table has it, and
  reports whether it did.
- **Lookup.** `translate(key, lang)` uses `get_language()` when `lang` is
  absent or empty. It then answers the requested language's string for `key`
  if there is one. Failing that it answers the Somali string, and failing
  that the key itself. The helper `t` calls `translate` on the one global
  translator.

Layout:

- `translation_table.dfy`, module `TranslationTable`: the table exactly as the
  translator builds it, with proofs that it has four languages and that they
  share their keys. Each language's table is written as four displays, one
  per section of the site (navigation, account forms, footer links, landing
  page). They are joined with `+` in source order. This gives the same map as
  the single Python dict literal, and it keeps the solver's work per display
  small.
- `translations.dfy`, module `Translations`:
  - The lookup and session logic, stated over an arbitrary table `languages`,
    as the source reads `self.languages`.
  - Pure functions that give the answer and the new session slot of each
    operation from the old slot.
  - The lemmas about them, including lemmas over a client's whole history of
    calls, given as a sequence of `Call` values.
  - The classes:
    - `Session` holds the session's `'language'` slot as an
      `Option<string>` field.
    - `Translator` (the source's class `Translations`) holds the table as a
      constant field. Its methods `GetLanguage`, `SetLanguage` and
      `Translate` update the `Session` they are given in place. Each method
      is proved against the pure functions.
  - The query parameter of the current request is an `Option<string>`
    argument. The optional `lang` argument of `translate` is an
    `Option<string>` too, and Python's `not lang` is `Falsy` (None or `""`).

## Model

| member | source | states |
|---|---|---|
| `TranslationTable.TableOf` | translations.py:7-200 | The table built from four per-language maps has exactly the codes `so`, `en`, `ar`, `fr`, each bound to its own map |
| `TranslationTable.LanguagesAgree` | translations.py:8-199 | English, Arabic and French each have a string for exactly the keys Somali has |
| `TranslationTable.SourceTableShape` | translations.py:7-200 | The translator's table has exactly four languages and binds `so` to the Somali map, and every language has exactly Somali's keys |
| `TranslationTable.EnglishWelcome` | translations.py:58 | The English table maps `welcome` to `Welcome` |
| `TranslationTable.SomaliWelcome` | translations.py:10 | The Somali table maps `welcome` to `Ku soo dhawow` |
| `TranslationTable.SomaliLacksKey` | translations.py:8-55 | The Somali table has no key `missing` |
| `Translations.SourceTableWellFormed` | translations.py:7-200 | The translator's table has the Somali fallback and all its languages share their keys, which is what the methods rely on |
| `Translations.FirstHit` | translations.py:225-232 | Reference definition of a fallback lookup over a list of languages. The result is the string of the first listed language whose table has the key, or the key when none has |
| `Translations.Lookup` | translations.py:225-232 | The requested language's string, else the Somali string, else the key; characterized by LookupRequested, LookupFallsBackToSomali, LookupReturnsKey and LookupFollowsPreference |
| `Translations.LookupFollowsPreference` | translations.py:225-232 | The lookup equals the first hit over the preference list [requested language, Somali] |
| `Translations.LookupRequested` | translations.py:225-226 | If the requested language's table has the key, the result is exactly that string |
| `Translations.LookupFallsBackToSomali` | translations.py:228-230 | If the requested code is unsupported or its table lacks the key, and Somali has it, the result is the Somali string |
| `Translations.LookupReturnsKey` | translations.py:232 | If neither the requested language nor Somali has the key, the result is the key unchanged |
| `Translations.LookupSource` | translations.py:225-232 | Every result is the requested language's string, the Somali string, or the key. No other outcome and no failure, for any key and code |
| `Translations.UnsupportedReadsAsSomali` | translations.py:225-230 | A code not in the table, such as an unchecked session value, gives the same result as Somali |
| `Translations.SupportedNeverFallsBack` | translations.py:225-232 | In a table whose languages share their keys, a supported language gives its own string when Somali knows the key, and the key otherwise. It never falls back to Somali |
| `Translations.ResolveLanguage` | translations.py:202-213 | get_language answers the stored session value unchanged when there is one. With no stored value it answers a code of the table, and an answer other than Somali is the query code |
| `Translations.StoredAfterGet` | translations.py:204-210 | get_language never overwrites a stored value. What it leaves stored is what it answered. It leaves the slot empty only when it answered the Somali default |
| `Translations.StoredAfterSet` | translations.py:215-219 | The slot after set_language: the code when the table has it, else the old slot; characterized by SetStoresIffSupported, SetIdempotent and GetAfterSet |
| `Translations.GetStoresSupportedQuery` | translations.py:207-210 | With no stored value, a non-empty query code of the table is stored and returned |
| `Translations.GetDefaultsToSomali` | translations.py:207-213 | With no stored value and a query that is absent, empty or unsupported, the answer is Somali and the slot stays empty |
| `Translations.GetIdempotent` | translations.py:202-213 | Calling get_language again with the same query answers the same and leaves the slot as the first call left it |
| `Translations.SetStoresIffSupported` | translations.py:215-219 | set_language stores the code when the table has it, and otherwise leaves the slot unchanged |
| `Translations.SetIdempotent` | translations.py:215-219 | Calling set_language twice with the same code leaves the same slot as calling it once |
| `Translations.GetAfterSet` | translations.py:202-219 | After a successful set_language, get_language answers that code whatever the query |
| `Translations.SessionStaysSupported` | translations.py:207-219 | Neither get_language nor set_language stores a code outside the table. From a slot that holds a code or nothing, get_language's answer is always a code of the table |
| `Translations.HistoryStaysSupported` | translations.py:207-219 | After any sequence of get_language, set_language and translate calls, starting from a slot that holds a code of the table or nothing, the slot still holds a code of the table or nothing |
| `Translations.HistoryNeverClears` | translations.py:202-232 | Once the slot holds a value, no sequence of calls empties it |
| `Translations.OnlySetChangesStored` | translations.py:202-223 | Once the slot holds a value, a sequence of calls with no set_language leaves it unchanged, whatever the queries and `lang` arguments |
| `Translations.LastSetWins` | translations.py:215-219 | After a successful set_language followed only by get_language and translate calls, the slot holds that code, whatever came before |
| `Translations.EffectiveLanguage` | translations.py:221-223 | The code translate looks up: the `lang` argument unless it is absent or empty, else get_language's answer; characterized by ExplicitLanguageWins and EmptyLanguageIsAbsent |
| `Translations.StoredAfterTranslate` | translations.py:221-223 | The slot after translate: get_language's effect when `lang` is absent or empty, else unchanged; characterized by ExplicitLanguageWins, EmptyLanguageIsAbsent and OnlySetChangesStored |
| `Translations.ExplicitLanguageWins` | translations.py:221-223 | A non-empty `lang` argument is used as given, and translate leaves the session alone |
| `Translations.EmptyLanguageIsAbsent` | translations.py:222-223 | An empty `lang` argument gives the same language and the same session as an absent one |
| `Translations.Translator.constructor` | translations.py:6-200 | A new translator holds the source table, which satisfies the methods' invariant |
| `Translations.Translator.GetLanguage` | translations.py:202-213 | Returns ResolveLanguage of the old slot and query, and leaves the slot as StoredAfterGet |
| `Translations.Translator.SetLanguage` | translations.py:215-219 | Returns true exactly when the code is in the table, and leaves the slot as StoredAfterSet |
| `Translations.Translator.Translate` | translations.py:221-232 | Returns the lookup in the effective language (the argument, or get_language's answer when it is falsy). Only a falsy argument lets get_language change the slot. It requires nothing beyond the table invariant, so it is total over keys, codes and session values |
| `Translations.T` | translations.py:237-239 | Gives exactly what Translate on the global translator gives, with the same session effect |
| `Translations.ExampleRequestedLanguage` | translations.py:225-226 | `translate("welcome", "en")` is `Welcome` |
| `Translations.ExampleUnsupportedLanguage` | translations.py:228-230 | `translate("welcome", "de")` is the Somali `Ku soo dhawow` |
| `Translations.ExampleUnknownKey` | translations.py:232 | `translate("missing", "en")` is `missing` |

## Left out

- Flask's `session` and `request` objects are not modelled as framework
  objects. Only the session's `'language'` slot is modelled, as a field of
  `Session`, and only the request's `lang` query argument, as a parameter.
  Cookie signing, expiry and storage of the session are outside this model.
- A single global translator shared across concurrent requests is not
  modelled. The global `translator` of the source is the object passed to
  `T`, and each client's session is a separate `Session` object.
- The source's comment mentions browser preference as a source of the
  language. No code reads it, so the model has no such input.
- Lookup requires the table to contain Somali. In the source a table without
  `'so'` would raise `KeyError` at the fallback. The translator's own table
  always has it, so `Translate` itself has no precondition beyond that
  invariant.
- The module `json` is imported by the source but not used.
- Payment signatures, HTTP uploads, the Android WebView, template routes and
  the tests of other files are not part of this model. They are network, file,
  UI or SMTP plumbing, or foreign hashing over floating-point formatting.
