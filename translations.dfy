/** Language selection and translation lookup of the Dadaal web application
    (translations.py). A request's language comes from the client's session,
    else from the `lang` query parameter (which is then remembered in the
    session), else defaults to Somali; a lookup falls back from the requested
    language to Somali and then to the key itself.

    The lookup and session logic is stated over the translator's own table
    `languages`, as the source reads `self.languages`; the facts about the
    concrete table live in module TranslationTable. */
module Translations {
  import TranslationTable

  type Tables = TranslationTable.Tables

  datatype Option<T> = None | Some(value: T)

  /** The language used when neither the session nor the request names one,
      and the one every lookup falls back to. */
  const DefaultLanguage: string := "so"

  /** The table of `lang` has a string for `key`. */
  predicate Has(languages: Tables, lang: string, key: string) {
    lang in languages && key in languages[lang]
  }

  /** Python's `not lang` for the optional `lang` argument: absent (None) or empty. */
  predicate Falsy(lang: Option<string>) {
    lang.None? || lang.value == ""
  }

  /** What the methods rely on of the table: the fallback language is there,
      and every language has a string for exactly the keys it has. */
  predicate WellFormed(languages: Tables) {
    && DefaultLanguage in languages
    && forall lang :: lang in languages ==> languages[lang].Keys == languages[DefaultLanguage].Keys
  }

  /** The session slot holds nothing or a code of the table. */
  predicate SessionSupported(languages: Tables, stored: Option<string>) {
    stored.None? || stored.value in languages
  }

  lemma SourceTableWellFormed()
    ensures WellFormed(TranslationTable.SourceTable)
    ensures TranslationTable.SourceTable.Keys == {"so", "en", "ar", "fr"}
  {
    TranslationTable.SourceTableShape();
  }

  // ---------------------------------------------------------------------------
  // Lookup: the fallback chain of translate (translations.py:225-232)

  /** The order in which tables are consulted for a request in `lang`. */
  function Preference(lang: string): seq<string> {
    [lang, DefaultLanguage]
  }

  /** Reference definition of a fallback lookup: the string of the first
      language in `chain` whose table has `key`, or `key` when none has. */
  function FirstHit(languages: Tables, key: string, chain: seq<string>): (r: string)
    ensures forall i :: 0 <= i < |chain| && Has(languages, chain[i], key) &&
              (forall j :: 0 <= j < i ==> !Has(languages, chain[j], key))
              ==> r == languages[chain[i]][key]
    ensures (forall i :: 0 <= i < |chain| ==> !Has(languages, chain[i], key)) ==> r == key
  {
    if chain == [] then key
    else if Has(languages, chain[0], key) then languages[chain[0]][key]
    else FirstHit(languages, key, chain[1..])
  }

  /** The lookup part of translate once the language code is known. */
  function Lookup(languages: Tables, key: string, lang: string): string
    requires DefaultLanguage in languages
  {
    if lang in languages && key in languages[lang] then languages[lang][key]
    else if key in languages[DefaultLanguage] then languages[DefaultLanguage][key]
    else key
  }

  /** The lookup consults the requested language, then Somali, then gives up. */
  lemma LookupFollowsPreference(languages: Tables, key: string, lang: string)
    requires DefaultLanguage in languages
    ensures Lookup(languages, key, lang) == FirstHit(languages, key, Preference(lang))
  {
  }

  lemma LookupRequested(languages: Tables, key: string, lang: string)
    requires DefaultLanguage in languages
    requires Has(languages, lang, key)
    ensures Lookup(languages, key, lang) == languages[lang][key]
  {
  }

  lemma LookupFallsBackToSomali(languages: Tables, key: string, lang: string)
    requires DefaultLanguage in languages
    requires !Has(languages, lang, key) && key in languages[DefaultLanguage]
    ensures Lookup(languages, key, lang) == languages[DefaultLanguage][key]
  {
  }

  lemma LookupReturnsKey(languages: Tables, key: string, lang: string)
    requires DefaultLanguage in languages
    requires !Has(languages, lang, key) && !Has(languages, DefaultLanguage, key)
    ensures Lookup(languages, key, lang) == key
  {
  }

  /** The answer is a string of the requested language or of Somali, or the key. */
  lemma LookupSource(languages: Tables, key: string, lang: string)
    requires DefaultLanguage in languages
    ensures var r := Lookup(languages, key, lang);
      || (Has(languages, lang, key) && r == languages[lang][key])
      || (Has(languages, DefaultLanguage, key) && r == languages[DefaultLanguage][key])
      || r == key
  {
  }

  /** An unsupported code, for instance one left in the session, reads as Somali. */
  lemma UnsupportedReadsAsSomali(languages: Tables, key: string, lang: string)
    requires DefaultLanguage in languages
    requires lang !in languages
    ensures Lookup(languages, key, lang) == Lookup(languages, key, DefaultLanguage)
  {
  }

  /** In a well-formed table a supported language never falls back: the
      answer is its own string, or the key when no language knows it. */
  lemma SupportedNeverFallsBack(languages: Tables, key: string, lang: string)
    requires WellFormed(languages)
    requires lang in languages
    ensures Lookup(languages, key, lang) ==
      if key in languages[DefaultLanguage] then languages[lang][key] else key
  {
    assert languages[lang].Keys == languages[DefaultLanguage].Keys;
  }

  // ---------------------------------------------------------------------------
  // The session slot as a function of its old value: get_language
  // (translations.py:202-213) and set_language (translations.py:215-219)

  /** `lang and lang in self.languages` for the query parameter. */
  predicate UsableQuery(languages: Tables, query: Option<string>) {
    query.Some? && query.value != "" && query.value in languages
  }

  /** The code get_language returns for session slot `stored` and query parameter `query`. */
  function ResolveLanguage(languages: Tables, stored: Option<string>, query: Option<string>): (r: string)
    requires DefaultLanguage in languages
    ensures stored.Some? ==> r == stored.value
    ensures stored.None? ==> r in languages
    ensures stored.None? && r != DefaultLanguage ==> query == Some(r)
  {
    if stored.Some? then stored.value
    else if UsableQuery(languages, query) then query.value
    else DefaultLanguage
  }

  /** The session slot after get_language. */
  function StoredAfterGet(languages: Tables, stored: Option<string>, query: Option<string>): (r: Option<string>)
    requires DefaultLanguage in languages
    ensures stored.Some? ==> r == stored
    ensures r.Some? ==> r.value == ResolveLanguage(languages, stored, query)
    ensures r.None? ==> stored.None? && ResolveLanguage(languages, stored, query) == DefaultLanguage
  {
    if stored.Some? then stored
    else if UsableQuery(languages, query) then query
    else None
  }

  /** The session slot after set_language(lang). */
  function StoredAfterSet(languages: Tables, stored: Option<string>, lang: string): Option<string> {
    if lang in languages then Some(lang) else stored
  }

  /** With no session language, a supported query code is stored and returned. */
  lemma GetStoresSupportedQuery(languages: Tables, query: string)
    requires DefaultLanguage in languages
    requires query != "" && query in languages
    ensures ResolveLanguage(languages, None, Some(query)) == query
    ensures StoredAfterGet(languages, None, Some(query)) == Some(query)
  {
  }

  /** With no session language and a query code that is absent, empty or not
      in the table, the answer is Somali and the session stays empty. */
  lemma GetDefaultsToSomali(languages: Tables, query: Option<string>)
    requires DefaultLanguage in languages
    requires !UsableQuery(languages, query)
    ensures ResolveLanguage(languages, None, query) == DefaultLanguage
    ensures StoredAfterGet(languages, None, query) == None
  {
  }

  /** A second get_language with the same request answers the same and changes nothing. */
  lemma GetIdempotent(languages: Tables, stored: Option<string>, query: Option<string>)
    requires DefaultLanguage in languages
    ensures var once := StoredAfterGet(languages, stored, query);
      && StoredAfterGet(languages, once, query) == once
      && ResolveLanguage(languages, once, query) == ResolveLanguage(languages, stored, query)
  {
  }

  /** set_language stores `lang` exactly when it is a code of the table. */
  lemma SetStoresIffSupported(languages: Tables, stored: Option<string>, lang: string)
    ensures lang in languages ==> StoredAfterSet(languages, stored, lang) == Some(lang)
    ensures lang !in languages ==> StoredAfterSet(languages, stored, lang) == stored
  {
  }

  lemma SetIdempotent(languages: Tables, stored: Option<string>, lang: string)
    ensures var once := StoredAfterSet(languages, stored, lang);
      StoredAfterSet(languages, once, lang) == once
  {
  }

  /** After a successful set_language, get_language answers that code whatever the query. */
  lemma GetAfterSet(languages: Tables, stored: Option<string>, lang: string, query: Option<string>)
    requires DefaultLanguage in languages
    requires lang in languages
    ensures ResolveLanguage(languages, StoredAfterSet(languages, stored, lang), query) == lang
  {
  }

  /** Neither operation writes an unsupported code into the session, so a
      session that only these operations touch always names a code of the table. */
  lemma SessionStaysSupported(languages: Tables, stored: Option<string>, query: Option<string>, lang: string)
    requires DefaultLanguage in languages
    requires SessionSupported(languages, stored)
    ensures SessionSupported(languages, StoredAfterGet(languages, stored, query))
    ensures SessionSupported(languages, StoredAfterSet(languages, stored, lang))
    ensures ResolveLanguage(languages, stored, query) in languages
  {
  }

  // ---------------------------------------------------------------------------
  // translate (translations.py:221-232) as a function of the old slot

  /** The code translate looks up: the argument unless it is falsy, otherwise
      what get_language answers. */
  function EffectiveLanguage(languages: Tables, stored: Option<string>, lang: Option<string>,
                             query: Option<string>): string
    requires DefaultLanguage in languages
  {
    if Falsy(lang) then ResolveLanguage(languages, stored, query) else lang.value
  }

  /** The session slot after translate: only a falsy `lang` consults get_language. */
  function StoredAfterTranslate(languages: Tables, stored: Option<string>, lang: Option<string>,
                                query: Option<string>): Option<string>
    requires DefaultLanguage in languages
  {
    if Falsy(lang) then StoredAfterGet(languages, stored, query) else stored
  }

  /** A truthy `lang` argument is used as given, without consulting the session. */
  lemma ExplicitLanguageWins(languages: Tables, stored: Option<string>, lang: string, query: Option<string>)
    requires DefaultLanguage in languages
    requires lang != ""
    ensures EffectiveLanguage(languages, stored, Some(lang), query) == lang
    ensures StoredAfterTranslate(languages, stored, Some(lang), query) == stored
  {
  }

  /** An empty `lang` argument behaves exactly like an absent one. */
  lemma EmptyLanguageIsAbsent(languages: Tables, stored: Option<string>, query: Option<string>)
    requires DefaultLanguage in languages
    ensures EffectiveLanguage(languages, stored, Some(""), query) == EffectiveLanguage(languages, stored, None, query)
    ensures StoredAfterTranslate(languages, stored, Some(""), query) == StoredAfterTranslate(languages, stored, None, query)
  {
  }

  // ---------------------------------------------------------------------------
  // A client's history: the calls its requests make, in order

  datatype Call =
    | GetLanguageCall(query: Option<string>)
    | SetLanguageCall(code: string)
    | TranslateCall(key: string, lang: Option<string>, query: Option<string>)

  /** The session slot after one call. */
  function StoredAfterCall(languages: Tables, stored: Option<string>, call: Call): Option<string>
    requires DefaultLanguage in languages
  {
    match call
    case GetLanguageCall(query) => StoredAfterGet(languages, stored, query)
    case SetLanguageCall(lang) => StoredAfterSet(languages, stored, lang)
    case TranslateCall(_, lang, query) => StoredAfterTranslate(languages, stored, lang, query)
  }

  /** The session slot after a sequence of calls, the first call first. */
  function StoredAfterCalls(languages: Tables, stored: Option<string>, calls: seq<Call>): Option<string>
    requires DefaultLanguage in languages
    decreases |calls|
  {
    if calls == [] then stored
    else StoredAfterCalls(languages, StoredAfterCall(languages, stored, calls[0]), calls[1..])
  }

  /** No call of this component writes a code outside the table. */
  lemma {:induction false} HistoryStaysSupported(languages: Tables, stored: Option<string>, calls: seq<Call>)
    requires DefaultLanguage in languages
    requires SessionSupported(languages, stored)
    ensures SessionSupported(languages, StoredAfterCalls(languages, stored, calls))
    decreases |calls|
  {
    if calls != [] {
      match calls[0] {
        case GetLanguageCall(query) => SessionStaysSupported(languages, stored, query, DefaultLanguage);
        case SetLanguageCall(code) => SessionStaysSupported(languages, stored, None, code);
        case TranslateCall(_, _, query) => SessionStaysSupported(languages, stored, query, DefaultLanguage);
      }
      HistoryStaysSupported(languages, StoredAfterCall(languages, stored, calls[0]), calls[1..]);
    }
  }

  /** No call of this component empties the slot once it holds a code. */
  lemma {:induction false} HistoryNeverClears(languages: Tables, stored: Option<string>, calls: seq<Call>)
    requires DefaultLanguage in languages
    requires stored.Some?
    ensures StoredAfterCalls(languages, stored, calls).Some?
    decreases |calls|
  {
    if calls != [] {
      HistoryNeverClears(languages, StoredAfterCall(languages, stored, calls[0]), calls[1..]);
    }
  }

  /** Once the slot holds a code, only set_language changes it. */
  lemma {:induction false} OnlySetChangesStored(languages: Tables, stored: Option<string>, calls: seq<Call>)
    requires DefaultLanguage in languages
    requires stored.Some?
    requires forall i :: 0 <= i < |calls| ==> !calls[i].SetLanguageCall?
    ensures StoredAfterCalls(languages, stored, calls) == stored
    decreases |calls|
  {
    if calls != [] {
      assert !calls[0].SetLanguageCall?;
      OnlySetChangesStored(languages, StoredAfterCall(languages, stored, calls[0]), calls[1..]);
    }
  }

  /** The last successful set_language decides the slot when no other set follows it. */
  lemma {:induction false} LastSetWins(languages: Tables, stored: Option<string>, before: seq<Call>,
                                       lang: string, after: seq<Call>)
    requires DefaultLanguage in languages
    requires lang in languages
    requires forall i :: 0 <= i < |after| ==> !after[i].SetLanguageCall?
    ensures StoredAfterCalls(languages, stored, before + [SetLanguageCall(lang)] + after) == Some(lang)
  {
    StoredAfterCallsAppend(languages, stored, before, [SetLanguageCall(lang)] + after);
    assert before + [SetLanguageCall(lang)] + after == before + ([SetLanguageCall(lang)] + after);
    assert ([SetLanguageCall(lang)] + after)[1..] == after;
    OnlySetChangesStored(languages, Some(lang), after);
  }

  lemma {:induction false} StoredAfterCallsAppend(languages: Tables, stored: Option<string>,
                                                  first: seq<Call>, second: seq<Call>)
    requires DefaultLanguage in languages
    ensures StoredAfterCalls(languages, stored, first + second)
         == StoredAfterCalls(languages, StoredAfterCalls(languages, stored, first), second)
    decreases |first|
  {
    if first == [] {
      assert first + second == second;
    } else {
      assert (first + second)[0] == first[0];
      assert (first + second)[1..] == first[1..] + second;
      StoredAfterCallsAppend(languages, StoredAfterCall(languages, stored, first[0]), first[1..], second);
    }
  }

  // ---------------------------------------------------------------------------
  // The state

  /** The 'language' slot of one client's session. */
  class Session {
    var language: Option<string>

    constructor(language: Option<string>)
      ensures this.language == language
    {
      this.language := language;
    }
  }

  /** The translator object; its table is fixed when it is created. */
  class Translator {
    const languages: Tables

    constructor()
      ensures languages == TranslationTable.SourceTable
      ensures Valid()
    {
      languages := TranslationTable.SourceTable;
      SourceTableWellFormed();
    }

    predicate Valid() {
      WellFormed(languages)
    }

    method GetLanguage(session: Session, query: Option<string>) returns (lang: string)
      requires Valid()
      modifies session
      ensures lang == ResolveLanguage(languages, old(session.language), query)
      ensures session.language == StoredAfterGet(languages, old(session.language), query)
    {
      if session.language.Some? {
        return session.language.value;
      }
      if query.Some? && query.value != "" && query.value in languages {
        session.language := query;
        return query.value;
      }
      return DefaultLanguage;
    }

    method SetLanguage(session: Session, lang: string) returns (ok: bool)
      requires Valid()
      modifies session
      ensures ok <==> lang in languages
      ensures session.language == StoredAfterSet(languages, old(session.language), lang)
    {
      if lang in languages {
        session.language := Some(lang);
        return true;
      }
      return false;
    }

    method Translate(session: Session, key: string, lang: Option<string>, query: Option<string>)
      returns (r: string)
      requires Valid()
      modifies session
      ensures r == Lookup(languages, key, EffectiveLanguage(languages, old(session.language), lang, query))
      ensures session.language == StoredAfterTranslate(languages, old(session.language), lang, query)
    {
      var code: string;
      if lang.None? || lang.value == "" {
        code := GetLanguage(session, query);
      } else {
        code := lang.value;
      }
      if code in languages && key in languages[code] {
        return languages[code][key];
      }
      if key in languages[DefaultLanguage] {
        return languages[DefaultLanguage][key];
      }
      return key;
    }
  }

  /** The helper t: translate through the one global translator. */
  method T(translator: Translator, session: Session, key: string, lang: Option<string>, query: Option<string>)
    returns (r: string)
    requires translator.Valid()
    modifies session
    ensures r == Lookup(translator.languages, key,
                        EffectiveLanguage(translator.languages, old(session.language), lang, query))
    ensures session.language == StoredAfterTranslate(translator.languages, old(session.language), lang, query)
  {
    r := translator.Translate(session, key, lang, query);
  }

  // ---------------------------------------------------------------------------
  // The three outcomes of a lookup on the translator's own table

  lemma GermanUnsupported()
    ensures "de" !in TranslationTable.SourceTable
  {
    TranslationTable.SourceTableShape();
  }

  /** English has its own string for "welcome". */
  lemma ExampleRequestedLanguage()
    ensures Lookup(TranslationTable.SourceTable, "welcome", "en") == "Welcome"
  {
    TranslationTable.SourceTableShape();
    TranslationTable.EnglishWelcome();
  }

  /** An unsupported code gets the Somali string. */
  lemma ExampleUnsupportedLanguage()
    ensures Lookup(TranslationTable.SourceTable, "welcome", "de") == "Ku soo dhawow"
  {
    TranslationTable.SourceTableShape();
    TranslationTable.SomaliWelcome();
    GermanUnsupported();
  }

  /** A key no language has comes back unchanged. */
  lemma ExampleUnknownKey()
    ensures Lookup(TranslationTable.SourceTable, "missing", "en") == "missing"
  {
    TranslationTable.SourceTableShape();
    TranslationTable.SomaliLacksKey();
  }

  /** A client: choosing English, then translating with no explicit language. */
  method ExampleSession() {
    var translator := new Translator();
    var session := new Session(None);
    SourceTableWellFormed();
    GermanUnsupported();
    var ok := translator.SetLanguage(session, "de");
    assert !ok && session.language == None;
    ok := translator.SetLanguage(session, "en");
    assert ok && session.language == Some("en");
    ExampleRequestedLanguage();
    var text := translator.Translate(session, "welcome", None, Some("fr"));
    assert text == "Welcome" && session.language == Some("en");
  }
}

