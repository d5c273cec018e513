/**
 * The suggestion/category registry of SuggestionManager: the ordered category
 * list, the suggestion -> category-id map, their JSON encodings in the
 * preference store, and the seeding of default suggestions.
 */
module SuggestionRegistry {
  import opened Wrappers
  import opened Categories
  import opened Preferences

  function HasId(id: string): Category -> bool {
    (c: Category) => c.id == id
  }

  function HasName(name: string): Category -> bool {
    (c: Category) => c.name == name
  }

  /**
   * `getCategoryForSuggestion`: no category when the suggestion has no mapping
   * or when no category carries the mapped id; otherwise the first category, in
   * list order, that does.
   */
  function Resolve(cats: seq<Category>, mapping: map<string, string>, s: string): (r: Option<Category>)
    ensures s !in mapping ==> r == None
    ensures s in mapping ==> (r.None? <==> forall j :: 0 <= j < |cats| ==> cats[j].id != mapping[s])
    ensures r.Some? ==> s in mapping && r.value.id == mapping[s]
    ensures r.Some? ==> exists i :: 0 <= i < |cats| && cats[i] == r.value
                                    && forall j :: 0 <= j < i ==> cats[j].id != mapping[s]
  {
    if s !in mapping then None
    else match FindIndex(cats, HasId(mapping[s]))
      case None => None
      case Some(i) => Some(cats[i])
  }

  /** Appending a category keeps every resolved suggestion's category. */
  lemma AppendKeepsResolution(cats: seq<Category>, c: Category, mapping: map<string, string>, s: string)
    ensures Resolve(cats, mapping, s).Some? ==> Resolve(cats + [c], mapping, s) == Resolve(cats, mapping, s)
    ensures Resolve(cats, mapping, s).None? && s in mapping && c.id == mapping[s]
            ==> Resolve(cats + [c], mapping, s) == Some(c)
  {
    if s in mapping {
      FindIndexAppend(cats, c, HasId(mapping[s]));
    }
  }

  /** Re-assigning one suggestion leaves every other suggestion's category alone. */
  lemma ReassignOnlyAffectsItself(cats: seq<Category>, mapping: map<string, string>, s: string, id: string, t: string)
    ensures Resolve(cats, mapping[s := id], s) == match FindIndex(cats, HasId(id))
                                                  case None => None
                                                  case Some(i) => Some(cats[i])
    ensures t != s ==> Resolve(cats, mapping[s := id], t) == Resolve(cats, mapping, t)
  {
  }

  // ---------------------------------------------------------------------------
  // The stored encodings

  /** One category as the JSON object `saveSuggestions` writes. */
  function EncodeCategory(c: Category): Json {
    JObject(map["id" := JString(c.id), "name" := JString(c.name),
                "color" := JNumber(c.color), "emoji" := JString(c.emoji)])
  }

  /**
   * One array element as `loadSuggestions` reads it: it must be an object whose
   * "id", "name" and "emoji" are strings and whose "color" is a number;
   * otherwise `getJSONObject`, `getString` or `getInt` throws.
   */
  function DecodeCategory(j: Json): Option<Category> {
    match j
    case JObject(f) =>
      if && "id" in f && f["id"].JString?
         && "name" in f && f["name"].JString?
         && "color" in f && f["color"].JNumber?
         && "emoji" in f && f["emoji"].JString?
      then Some(Category(f["id"].s, f["name"].s, f["color"].n, f["emoji"].s))
      else None
    case _ => None
  }

  lemma DecodeEncodeCategory(c: Category)
    ensures DecodeCategory(EncodeCategory(c)) == Some(c)
  {
  }

  function EncodeCategories(cats: seq<Category>): (r: seq<Json>)
    ensures |r| == |cats|
    ensures forall i :: 0 <= i < |cats| ==> r[i] == EncodeCategory(cats[i])
  {
    seq(|cats|, i requires 0 <= i < |cats| => EncodeCategory(cats[i]))
  }

  /**
   * The categories `loadSuggestions` reads from a stored array: the loop stops
   * at the first element that does not decode (the exception ends the loop and
   * keeps what was already added), so the result is the longest decodable prefix.
   */
  function DecodeCategories(items: seq<Json>): (r: seq<Category>)
    ensures |r| <= |items|
  {
    if items == [] then []
    else match DecodeCategory(items[0])
      case None => []
      case Some(c) => [c] + DecodeCategories(items[1..])
  }

  /** Every category read comes from the element at its own position, and reading stopped at a bad element. */
  lemma {:induction false} DecodeCategoriesPrefix(items: seq<Json>)
    ensures var r := DecodeCategories(items);
            && (forall i :: 0 <= i < |r| ==> DecodeCategory(items[i]) == Some(r[i]))
            && (|r| < |items| ==> DecodeCategory(items[|r|]).None?)
  {
    if items != [] && DecodeCategory(items[0]).Some? {
      DecodeCategoriesPrefix(items[1..]);
    }
  }

  lemma {:induction false} DecodeEncodeCategories(cats: seq<Category>)
    ensures DecodeCategories(EncodeCategories(cats)) == cats
  {
    if cats != [] {
      DecodeEncodeCategory(cats[0]);
      assert EncodeCategories(cats)[1..] == EncodeCategories(cats[1..]);
      DecodeEncodeCategories(cats[1..]);
    }
  }

  /** The elements of the array stored under "categories"; none when it is missing, unparsable or not an array. */
  function StoredArray(entries: map<string, Stored>): (items: seq<Json>)
    requires HoldsText(entries, CATEGORIES_KEY)
    ensures items != [] ==> CATEGORIES_KEY in entries && entries[CATEGORIES_KEY] == Document(JArray(items))
  {
    match ParsedAt(entries, CATEGORIES_KEY)
    case Some(JArray(items)) => items
    case _ => []
  }

  /** The categories found under the "categories" key, before the default fallback. */
  function StoredCategories(entries: map<string, Stored>): seq<Category>
    requires HoldsText(entries, CATEGORIES_KEY)
  {
    DecodeCategories(StoredArray(entries))
  }

  /**
   * The category list after `loadSuggestions`: what was stored, or the four
   * defaults (with fresh ids `ids`) when nothing could be read.
   */
  function LoadedCategories(entries: map<string, Stored>, ids: seq<string>): (r: seq<Category>)
    requires |ids| == 4 && HoldsText(entries, CATEGORIES_KEY)
    ensures r != []
    ensures CATEGORIES_KEY !in entries ==> r == DefaultCategories(ids)
    ensures CATEGORIES_KEY in entries && entries[CATEGORIES_KEY].Text? ==> r == DefaultCategories(ids)
    ensures StoredCategories(entries) != [] ==> r == StoredCategories(entries)
    ensures StoredCategories(entries) == [] ==> r == DefaultCategories(ids)
  {
    var stored := StoredCategories(entries);
    if stored == [] then DefaultCategories(ids) else stored
  }

  /** Saving a non-empty category list and loading it again gives back the same list. */
  lemma SaveLoadCategories(entries: map<string, Stored>, cats: seq<Category>, ids: seq<string>)
    requires cats != [] && |ids| == 4
    ensures var saved := entries[CATEGORIES_KEY := Document(JArray(EncodeCategories(cats)))];
            HoldsText(saved, CATEGORIES_KEY) && LoadedCategories(saved, ids) == cats
  {
    DecodeEncodeCategories(cats);
  }

  /** The suggestion -> id map as the JSON object `saveSuggestions` writes. */
  function EncodeMapping(mapping: map<string, string>): (fields: map<string, Json>)
    ensures fields.Keys == mapping.Keys
    ensures forall k :: k in mapping ==> fields[k] == JString(mapping[k])
  {
    map k | k in mapping :: JString(mapping[k])
  }

  /** The entries of a stored object that `getString` can read. */
  function StringFields(fields: map<string, Json>): (m: map<string, string>)
    ensures m.Keys <= fields.Keys
    ensures forall k :: k in fields && fields[k].JString? ==> k in m && m[k] == fields[k].s
    ensures forall k :: k in m ==> k in fields && fields[k] == JString(m[k])
  {
    map k | k in fields && fields[k].JString? :: fields[k].s
  }

  predicate AllStrings(fields: map<string, Json>) {
    forall k :: k in fields ==> fields[k].JString?
  }

  /**
   * What reading a stored map into `before` can produce: the stored entries are
   * merged in, never cleared. Keys are visited in no specified order and the
   * first non-string value ends the loop, so in general only some stored
   * entries arrive; when every value is a string, all of them do.
   */
  ghost predicate MergedFrom(before: map<string, string>, after: map<string, string>, fields: map<string, Json>) {
    && before.Keys <= after.Keys
    && (forall k :: k in before && k !in fields ==> after[k] == before[k])
    && (forall k :: k in after ==> (k in fields && fields[k] == JString(after[k])) || (k in before && after[k] == before[k]))
    && (AllStrings(fields) ==> after == before + StringFields(fields))
  }

  /** Saving the map and reading it back into any map overwrites the saved keys and keeps the rest. */
  lemma SaveLoadMapping(before: map<string, string>, after: map<string, string>, saved: map<string, string>)
    requires MergedFrom(before, after, EncodeMapping(saved))
    ensures after == before + saved
    ensures forall k :: k in saved ==> after[k] == saved[k]
  {
    assert StringFields(EncodeMapping(saved)) == saved;
  }

  // ---------------------------------------------------------------------------
  // Default suggestions

  /** The suggestions `addDefaultSuggestions` adds, each tagged with a category name, in order. */
  const DEFAULT_SUGGESTIONS: seq<(string, string)> := [
    ("Film izle", FUN), ("Müzik dinle", FUN),
    ("Bilgisayar oyunu oyna", FUN), ("Bulmaca çöz", FUN),
    ("Yürüyüş yap", HEALTH), ("Meditasyon yap", HEALTH),
    ("Spor yap", HEALTH), ("Sağlıklı bir öğün hazırla", HEALTH),
    ("Kitap oku", PRODUCTIVITY), ("Yeni bir beceri öğren", PRODUCTIVITY),
    ("To-do listeni güncelle", PRODUCTIVITY), ("Çalışma alanını düzenle", PRODUCTIVITY),
    ("Arkadaşını ara", SOCIAL), ("Aile ile vakit geçir", SOCIAL),
    ("Dışarı çık", SOCIAL), ("Sosyal medyada paylaşım yap", SOCIAL)
  ]

  function Suggestions(defs: seq<(string, string)>): (r: seq<string>)
    ensures |r| == |defs| && forall i :: 0 <= i < |defs| ==> r[i] == defs[i].0
  {
    seq(|defs|, i requires 0 <= i < |defs| => defs[i].0)
  }

  predicate DistinctSuggestions(defs: seq<(string, string)>) {
    forall i, j :: 0 <= i < j < |defs| ==> defs[i].0 != defs[j].0
  }

  /** The entry for `entry.0` in `r` is what seeding `entry` into `m` should leave. */
  ghost predicate SeededAs(cats: seq<Category>, m: map<string, string>, r: map<string, string>, entry: (string, string)) {
    match FindIndex(cats, HasName(entry.1))
    case Some(i) => entry.0 in r && r[entry.0] == cats[i].id
    case None => (entry.0 in r <==> entry.0 in m) && (entry.0 in m ==> r[entry.0] == m[entry.0])
  }

  /** `r` and `m` agree about `k`: both lack it or both map it to the same id. */
  ghost predicate SameAt(m: map<string, string>, r: map<string, string>, k: string) {
    (k in r <==> k in m) && (k in m ==> r[k] == m[k])
  }

  /**
   * One step of the seeding loop: the suggestion maps to the first category
   * with the tag name, or is left as it was when no category has that name.
   */
  function AssignOne(cats: seq<Category>, m: map<string, string>, entry: (string, string)): (r: map<string, string>)
    ensures SeededAs(cats, m, r, entry)
    ensures forall k :: k != entry.0 ==> SameAt(m, r, k)
  {
    match FindIndex(cats, HasName(entry.1))
    case None => m
    case Some(i) => m[entry.0 := cats[i].id]
  }

  /** The map after seeding the entries `defs` in order. */
  function AssignDefaults(cats: seq<Category>, m: map<string, string>, defs: seq<(string, string)>): map<string, string>
    decreases |defs|
  {
    if defs == [] then m
    else AssignOne(cats, AssignDefaults(cats, m, defs[..|defs| - 1]), defs[|defs| - 1])
  }

  /** Seeding one more entry is one more `AssignOne` step, and one more suggestion appended. */
  lemma SeedNext(cats: seq<Category>, m: map<string, string>, defs: seq<(string, string)>, i: nat)
    requires i < |defs|
    ensures AssignDefaults(cats, m, defs[..i + 1]) == AssignOne(cats, AssignDefaults(cats, m, defs[..i]), defs[i])
    ensures Suggestions(defs[..i + 1]) == Suggestions(defs[..i]) + [defs[i].0]
  {
    assert defs[..i + 1][..i] == defs[..i];
  }

  /** Seeding leaves every suggestion outside `defs` as it was. */
  lemma {:induction false} AssignDefaultsUntouched(cats: seq<Category>, m: map<string, string>, defs: seq<(string, string)>, k: string)
    requires k !in Suggestions(defs)
    ensures SameAt(m, AssignDefaults(cats, m, defs), k)
    decreases |defs|
  {
    if defs != [] {
      var n := |defs| - 1;
      assert Suggestions(defs)[n] == defs[n].0;
      AssignDefaultsUntouched(cats, m, defs[..n], k);
    }
  }

  /**
   * Seeding distinct suggestions: each one maps to the id of the first category
   * with its tag name, or keeps its old mapping (or absence) when no category
   * has that name.
   */
  lemma {:induction false} AssignDefaultsSeeded(cats: seq<Category>, m: map<string, string>, defs: seq<(string, string)>, i: nat)
    requires DistinctSuggestions(defs) && i < |defs|
    ensures SeededAs(cats, m, AssignDefaults(cats, m, defs), defs[i])
    decreases |defs|
  {
    var n := |defs| - 1;
    var init := defs[..n];
    var before := AssignDefaults(cats, m, init);
    if i == n {
      AssignDefaultsUntouched(cats, m, init, defs[n].0);
    } else {
      assert init[i] == defs[i] && defs[i].0 != defs[n].0;
      AssignDefaultsSeeded(cats, m, init, i);
    }
  }

  lemma DefaultSuggestionsDistinct()
    ensures |DEFAULT_SUGGESTIONS| == 16
    ensures DistinctSuggestions(DEFAULT_SUGGESTIONS)
  {
  }

  /**
   * Seeding over the four default categories (with distinct generated ids):
   * every default suggestion then resolves to the category it is tagged with.
   */
  lemma DefaultsResolveToTheirCategory(ids: seq<string>, m: map<string, string>, i: nat)
    requires |ids| == 4 && forall a, b :: 0 <= a < b < 4 ==> ids[a] != ids[b]
    requires i < |DEFAULT_SUGGESTIONS|
    ensures var cats := DefaultCategories(ids);
            var r := Resolve(cats, AssignDefaults(cats, m, DEFAULT_SUGGESTIONS), DEFAULT_SUGGESTIONS[i].0);
            r.Some? && r.value.name == DEFAULT_SUGGESTIONS[i].1
  {
    var cats := DefaultCategories(ids);
    DefaultSuggestionsDistinct();
    AssignDefaultsSeeded(cats, m, DEFAULT_SUGGESTIONS, i);
    var entry := DEFAULT_SUGGESTIONS[i];
    assert entry.1 in [FUN, HEALTH, PRODUCTIVITY, SOCIAL];
    assert FindIndex(cats, HasName(entry.1)).Some? by {
      DefaultCategoryTable(ids);
      var k :| 0 <= k < 4 && cats[k].name == entry.1;
      assert HasName(entry.1)(cats[k]);
    }
  }

  // ---------------------------------------------------------------------------
  // The manager

  class SuggestionManager {
    var categories: seq<Category>
    var suggestionCategories: map<string, string>
    /** The suggestion list kept by the rest of the manager; the registry only appends to it. */
    var suggestionsList: seq<string>

    constructor ()
      ensures categories == [] && suggestionCategories == map[] && suggestionsList == []
    {
      categories := [];
      suggestionCategories := map[];
      suggestionsList := [];
    }

    /** `getCategories`: the category list itself, in order. */
    function GetCategories(): (r: seq<Category>)
      reads this
      ensures r == categories
    {
      categories
    }

    /** `addCategory`: appends at the end; earlier categories keep their places. */
    method AddCategory(category: Category)
      modifies this`categories
      ensures categories == old(categories) + [category]
      ensures |categories| == |old(categories)| + 1 && categories[..|old(categories)|] == old(categories)
    {
      categories := categories + [category];
    }

    function GetCategoryForSuggestion(suggestion: string): (r: Option<Category>)
      reads this
      ensures r == Resolve(categories, suggestionCategories, suggestion)
    {
      Resolve(categories, suggestionCategories, suggestion)
    }

    /** `setSuggestionCategory`: the suggestion now maps to the id; every other mapping is unchanged. */
    method SetSuggestionCategory(suggestion: string, categoryId: string)
      modifies this`suggestionCategories
      ensures suggestionCategories == old(suggestionCategories)[suggestion := categoryId]
    {
      suggestionCategories := suggestionCategories[suggestion := categoryId];
    }

    /**
     * The category part of `loadSuggestions`. `defaultIds` are the UUIDs that
     * `getDefaultCategories` would generate.
     */
    method LoadSuggestions(store: Store, defaultIds: seq<string>)
      requires |defaultIds| == 4
      requires HoldsText(store.entries, CATEGORIES_KEY) && HoldsText(store.entries, SUGGESTION_CATEGORIES_KEY)
      modifies this`categories, this`suggestionCategories
      ensures categories == LoadedCategories(store.entries, defaultIds)
      ensures MergedFrom(old(suggestionCategories), suggestionCategories,
                         ObjectAt(store.entries, SUGGESTION_CATEGORIES_KEY))
    {
      ReadCategories(store);
      MergeSuggestionCategories(store);
      if categories == [] {
        categories := DefaultCategories(defaultIds);
      }
    }

    /** Clears the category list and refills it from the stored array, up to the first bad element. */
    method ReadCategories(store: Store)
      requires HoldsText(store.entries, CATEGORIES_KEY)
      modifies this`categories
      ensures categories == StoredCategories(store.entries)
    {
      categories := [];
      var items := StoredArray(store.entries);
      var i := 0;
      while i < |items|
        invariant 0 <= i <= |items|
        invariant DecodeCategories(items) == categories + DecodeCategories(items[i..])
      {
        var decoded := DecodeCategory(items[i]);
        assert items[i..][0] == items[i] && items[i..][1..] == items[i + 1..];
        if decoded.None? {
          break;
        }
        categories := categories + [decoded.value];
        i := i + 1;
      }
      assert i == |items| ==> items[i..] == [];
    }

    /** Merges the stored suggestion -> id object into the map, key by key. */
    method MergeSuggestionCategories(store: Store)
      requires HoldsText(store.entries, SUGGESTION_CATEGORIES_KEY)
      modifies this`suggestionCategories
      ensures MergedFrom(old(suggestionCategories), suggestionCategories,
                         ObjectAt(store.entries, SUGGESTION_CATEGORIES_KEY))
    {
      var fields := ObjectAt(store.entries, SUGGESTION_CATEGORIES_KEY);
      var keys := fields.Keys;
      var ok := true;
      while ok && keys != {}
        invariant keys <= fields.Keys
        invariant forall k :: k in fields && k !in keys ==> fields[k].JString?
        invariant suggestionCategories == old(suggestionCategories) + map k | k in fields && k !in keys :: fields[k].s
        invariant !ok ==> !AllStrings(fields)
        decreases keys, ok
      {
        var key :| key in keys;
        match fields[key] {
          case JString(id) =>
            suggestionCategories := suggestionCategories[key := id];
            keys := keys - {key};
          case _ =>
            ok := false;
        }
      }
      if ok {
        assert StringFields(fields) == map k | k in fields && k !in keys :: fields[k].s;
      }
    }

    /** The category part of `saveSuggestions`: both structures are written under their keys. */
    method SaveSuggestions(store: Store)
      modifies store
      ensures store.entries == old(store.entries)
                [CATEGORIES_KEY := Document(JArray(EncodeCategories(categories)))]
                [SUGGESTION_CATEGORIES_KEY := Document(JObject(EncodeMapping(suggestionCategories)))]
    {
      var encoded: seq<Json> := [];
      for i := 0 to |categories|
        invariant |encoded| == i
        invariant forall j :: 0 <= j < i ==> encoded[j] == EncodeCategory(categories[j])
      {
        encoded := encoded + [EncodeCategory(categories[i])];
      }
      assert encoded == EncodeCategories(categories);

      var obj: map<string, Json> := map[];
      var rest := suggestionCategories.Keys;
      while rest != {}
        invariant rest <= suggestionCategories.Keys
        invariant obj == map k | k in suggestionCategories && k !in rest :: JString(suggestionCategories[k])
        decreases rest
      {
        var suggestion :| suggestion in rest;
        obj := obj[suggestion := JString(suggestionCategories[suggestion])];
        rest := rest - {suggestion};
      }
      assert obj == EncodeMapping(suggestionCategories);

      store.entries := store.entries[CATEGORIES_KEY := Document(JArray(encoded))]
                                    [SUGGESTION_CATEGORIES_KEY := Document(JObject(obj))];
    }

    /**
     * `addDefaultSuggestions`: appends the sixteen default suggestions in order
     * and maps each to the first category bearing its tag name, if there is one.
     */
    method AddDefaultSuggestions()
      modifies this`suggestionsList, this`suggestionCategories
      ensures suggestionsList == old(suggestionsList) + Suggestions(DEFAULT_SUGGESTIONS)
      ensures suggestionCategories == AssignDefaults(categories, old(suggestionCategories), DEFAULT_SUGGESTIONS)
    {
      for i := 0 to |DEFAULT_SUGGESTIONS|
        invariant suggestionsList == old(suggestionsList) + Suggestions(DEFAULT_SUGGESTIONS[..i])
        invariant suggestionCategories == AssignDefaults(categories, old(suggestionCategories), DEFAULT_SUGGESTIONS[..i])
      {
        var (suggestion, categoryName) := DEFAULT_SUGGESTIONS[i];
        SeedNext(categories, old(suggestionCategories), DEFAULT_SUGGESTIONS, i);
        suggestionsList := suggestionsList + [suggestion];
        match FindIndex(categories, HasName(categoryName)) {
          case Some(k) =>
            suggestionCategories := suggestionCategories[suggestion := categories[k].id];
          case None =>
        }
      }
      assert DEFAULT_SUGGESTIONS[..|DEFAULT_SUGGESTIONS|] == DEFAULT_SUGGESTIONS;
    }
  }
}
