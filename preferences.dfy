/**
 * The app-private preference store ("NeYapsamPrefs") as a map from key to a
 * structured value. JSON text written with `putString` is held by its parsed
 * structure; text at a JSON key that does not parse is held as plain `Text`.
 */
module Preferences {
  import opened Wrappers

  /** A JSON value, as org.json builds it from text. Numbers are integers. */
  datatype Json =
    | JNull
    | JBool(b: bool)
    | JNumber(n: int)
    | JString(s: string)
    | JArray(items: seq<Json>)
    | JObject(fields: map<string, Json>)

  /** What one preference key holds. */
  datatype Stored =
    | Text(s: string)          // putString of text that is not a JSON document
    | Document(doc: Json)      // putString of the text of a JSON document
    | Flag(b: bool)            // putBoolean
    | TextSet(items: set<string>) // putStringSet

  const THEME_KEY := "theme"
  const CUSTOM_IS_DARK_KEY := "customIsDark"
  const FAVORITES_KEY := "favorites"
  const CATEGORIES_KEY := "categories"
  const SUGGESTION_CATEGORIES_KEY := "suggestionCategories"
  const COUNTS_KEY := "counts"
  const SUGGESTIONS_KEY := "suggestions"

  /** The shared preference store; every screen and manager reads and writes the same one. */
  class Store {
    var entries: map<string, Stored>

    constructor (initial: map<string, Stored>)
      ensures entries == initial
    {
      entries := initial;
    }
  }

  /**
   * `getString(key, …)` only succeeds on a key that holds text (or holds
   * nothing); on a boolean or a string set it throws ClassCastException,
   * which no caller in the app catches.
   */
  predicate HoldsText(entries: map<string, Stored>, key: string) {
    key in entries ==> entries[key].Text? || entries[key].Document?
  }

  /**
   * `getString(key, null)` followed by parsing: the document when the key holds
   * JSON text, `None` when the key is missing or its text does not parse.
   */
  function ParsedAt(entries: map<string, Stored>, key: string): (r: Option<Json>)
    requires HoldsText(entries, key)
    ensures r.Some? <==> key in entries && entries[key].Document?
    ensures r.Some? ==> entries[key] == Document(r.value)
  {
    if key in entries && entries[key].Document? then Some(entries[key].doc) else None
  }

  /** The fields of the JSON object stored at `key`; none when it is missing, unparsable or not an object. */
  function ObjectAt(entries: map<string, Stored>, key: string): (fields: map<string, Json>)
    requires HoldsText(entries, key)
    ensures fields != map[] ==> key in entries && entries[key] == Document(JObject(fields))
  {
    match ParsedAt(entries, key)
    case Some(JObject(f)) => f
    case _ => map[]
  }
}
