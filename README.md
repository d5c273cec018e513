# What-should-I-do: a verified model of the state layer

The app ("Ne Yapsam") proposes random activities, grouped into categories,
lets the user mark favourites, counts how often each suggestion was used and
shows usage statistics, in a light, dark, custom or clock-driven theme. This
project models the state behind those screens and proves what it guarantees:

- `categories.dfy` (module `Categories`): the `Category` record, the four
  default categories, and Kotlin's `find` on a category list.
- `suggestion_manager.dfy` (module `SuggestionRegistry`): the ordered
  category list and the suggestion → category-id map of `SuggestionManager`.
  It covers lookups, appending and re-assigning, the JSON encodings written to
  the preference store and read back, and the seeding of the sixteen default
  suggestions.
- `statistics.dfy` (module `Statistics`): `StatisticsActivity`. It reads the
  per-suggestion counts, folds them into per-category usage through the
  registry, orders the category rows, picks the top five suggestions, and
  reads the stored suggestion total.
- `ranking.dfy` (module `Ranking`): `sortedByDescending { it.second }` and
  `take(5)` over (name, count) pairs.
- `themes.dfy` (module `Themes`): `ThemeManager`, its two fields, the
  per-name rule that sets the dark flag, and saving and loading both.
- `main_activity.dfy` (module `MainScreen`): the favourites set of
  `MainActivity`, the star button, persisting the set, the favourites
  dialog's empty guard, and the settings dialog's radio-button ↔ theme
  mapping.
- `preferences.dfy` (module `Preferences`): the shared preference store
  ("NeYapsamPrefs") as a class holding a map from key to structured value.
  - JSON text written with `putString` is held as its parsed structure.
  - Text at a JSON key that does not parse is held as plain text.
- `sums.dfy` (module `Sums`): sums of map values over finite key sets. It
  states what `values.sum()` and the usage fold compute.
- `wrappers.dfy` (module `Wrappers`): `Option`, standing for Kotlin's
  nullable results.

Where the source mutates state (the managers' lists, maps and sets, and the
store), the model is a class whose methods update fields. Each such method's
postcondition ties the new state to a function of the old state and the store.
Those functions carry the properties, proved as lemmas.

Some inputs come from outside the app's code and are parameters:
- The hour of day (read by `Calendar`) is an `hour` parameter in `0..23`.
- The four UUIDs `getDefaultCategories` generates are a parameter `ids` of
  length four. They are required to be distinct only where a property needs
  it.

## Model

| member | source | states |
|---|---|---|
| Categories.OpaqueColor | app/src/main/java/com/materialdesign/whatsouldido/Category.kt:15-18 | `Color.parseColor("#RRGGBB")` is a negative signed 32-bit Int whose alpha byte is 0xFF and whose low 24 bits are the RGB value |
| Categories.DefaultCategories | app/src/main/java/com/materialdesign/whatsouldido/Category.kt:13-20 | exactly four categories, carrying the given ids in order, with pairwise distinct names and opaque (negative) colours |
| Categories.DefaultCategoryTable | app/src/main/java/com/materialdesign/whatsouldido/Category.kt:15-18 | the defaults' names are Eğlence, Sağlık, Üretkenlik, Sosyal in that order, with emoji 🎭 💪 📝 👥 and colours FF5252, 4CAF50, 2196F3, FF9800 |
| Categories.FindIndex | app/src/main/java/com/materialdesign/whatsouldido/SuggestionManager.kt:13 | `find` yields the first matching position, with no earlier match; it yields nothing exactly when no element matches |
| Categories.FindIndexAppend | app/src/main/java/com/materialdesign/whatsouldido/SuggestionManager.kt:7-9 | appending never changes an existing `find` answer; where there was none, the new element is found exactly when it matches |
| SuggestionRegistry.Resolve | app/src/main/java/com/materialdesign/whatsouldido/SuggestionManager.kt:11-14 | no category for an unmapped suggestion; none exactly when no category has the mapped id; otherwise the first category in list order carrying that id |
| SuggestionRegistry.AppendKeepsResolution | app/src/main/java/com/materialdesign/whatsouldido/SuggestionManager.kt:7-9 | adding a category keeps every suggestion's resolved category; a dangling mapping resolves to the new category if it has the mapped id |
| SuggestionRegistry.ReassignOnlyAffectsItself | app/src/main/java/com/materialdesign/whatsouldido/SuggestionManager.kt:16-18 | after re-assigning a suggestion, it resolves to the first category with the new id, and every other suggestion resolves as before |
| SuggestionRegistry.DecodeEncodeCategory | app/src/main/java/com/materialdesign/whatsouldido/SuggestionManager.kt:72-76 | a category written as an object with "id", "name", "color", "emoji" reads back as the same category |
| SuggestionRegistry.EncodeCategories | app/src/main/java/com/materialdesign/whatsouldido/SuggestionManager.kt:70-78 | the saved array has one object per category, at the category's position |
| SuggestionRegistry.DecodeCategoriesPrefix | app/src/main/java/com/materialdesign/whatsouldido/SuggestionManager.kt:31-44 | each category read comes from the array element at its position; reading stops only at an element that does not decode (the exception keeps what was added) |
| SuggestionRegistry.DecodeEncodeCategories | app/src/main/java/com/materialdesign/whatsouldido/SuggestionManager.kt:30-41 | reading a saved category array gives back the list, in order |
| SuggestionRegistry.StoredArray | app/src/main/java/com/materialdesign/whatsouldido/SuggestionManager.kt:25-32 | elements are only read from a "categories" key holding a parsed JSON array |
| SuggestionRegistry.LoadedCategories | app/src/main/java/com/materialdesign/whatsouldido/SuggestionManager.kt:28-63 | the loaded list is never empty; a non-empty stored list is loaded as it is; an empty, missing or unparsable one gives the four defaults |
| SuggestionRegistry.SaveLoadCategories | app/src/main/java/com/materialdesign/whatsouldido/SuggestionManager.kt:70-85 | saving a non-empty category list and loading it back restores the same categories in the same order |
| SuggestionRegistry.EncodeMapping | app/src/main/java/com/materialdesign/whatsouldido/SuggestionManager.kt:80-83 | the saved object has exactly the map's keys, each holding its id as a JSON string |
| SuggestionRegistry.StringFields | app/src/main/java/com/materialdesign/whatsouldido/SuggestionManager.kt:49-54 | exactly the string-valued fields of the stored object can be read into the map: every string field is present with its text, and nothing else is |
| SuggestionRegistry.SaveLoadMapping | app/src/main/java/com/materialdesign/whatsouldido/SuggestionManager.kt:47-58 | reading a saved map into an existing one overwrites the saved keys with their saved ids and keeps every other entry |
| SuggestionRegistry.Suggestions | app/src/main/java/com/materialdesign/whatsouldido/SuggestionManager.kt:118-119 | the suggestions appended are the default pairs' first components, in order |
| SuggestionRegistry.AssignOne | app/src/main/java/com/materialdesign/whatsouldido/SuggestionManager.kt:120-123 | one seeding step maps the suggestion to the id of the first category with its tag name, or leaves it as it was when there is none; no other suggestion changes |
| SuggestionRegistry.AssignDefaultsUntouched | app/src/main/java/com/materialdesign/whatsouldido/SuggestionManager.kt:118-124 | seeding leaves every suggestion outside the default list exactly as it was |
| SuggestionRegistry.AssignDefaultsSeeded | app/src/main/java/com/materialdesign/whatsouldido/SuggestionManager.kt:118-124 | after seeding distinct suggestions, each maps to the first category with its tag name, or keeps its old mapping or absence when none has that name |
| SuggestionRegistry.DefaultSuggestionsDistinct | app/src/main/java/com/materialdesign/whatsouldido/SuggestionManager.kt:92-116 | there are sixteen default suggestions and no two are equal |
| SuggestionRegistry.DefaultsResolveToTheirCategory | app/src/main/java/com/materialdesign/whatsouldido/SuggestionManager.kt:92-124 | seeded over the four defaults with distinct ids, every default suggestion resolves to a category named by its tag |
| SuggestionRegistry.SuggestionManager.constructor | app/src/main/java/com/materialdesign/whatsouldido/SuggestionManager.kt:2-3 | a new manager has no categories, no mappings and no suggestions |
| SuggestionRegistry.SuggestionManager.GetCategories | app/src/main/java/com/materialdesign/whatsouldido/SuggestionManager.kt:5 | returns the category list, in order |
| SuggestionRegistry.SuggestionManager.AddCategory | app/src/main/java/com/materialdesign/whatsouldido/SuggestionManager.kt:7-9 | appends at the end; earlier categories keep their positions and values |
| SuggestionRegistry.SuggestionManager.GetCategoryForSuggestion | app/src/main/java/com/materialdesign/whatsouldido/SuggestionManager.kt:11-14 | the lookup is `Resolve` over the manager's current list and map |
| SuggestionRegistry.SuggestionManager.SetSuggestionCategory | app/src/main/java/com/materialdesign/whatsouldido/SuggestionManager.kt:16-18 | the suggestion now maps to the id; every other entry is unchanged |
| SuggestionRegistry.SuggestionManager.LoadSuggestions | app/src/main/java/com/materialdesign/whatsouldido/SuggestionManager.kt:21-64 | the list becomes `LoadedCategories` of the store; the stored map is merged into the existing one, never cleared |
| SuggestionRegistry.SuggestionManager.ReadCategories | app/src/main/java/com/materialdesign/whatsouldido/SuggestionManager.kt:28-45 | the list is cleared and refilled with the longest decodable prefix of the stored array |
| SuggestionRegistry.SuggestionManager.MergeSuggestionCategories | app/src/main/java/com/materialdesign/whatsouldido/SuggestionManager.kt:47-58 | old keys stay; each entry read comes from the stored object; entries outside it are unchanged; with all-string values, the map becomes old map + stored map |
| SuggestionRegistry.SuggestionManager.SaveSuggestions | app/src/main/java/com/materialdesign/whatsouldido/SuggestionManager.kt:66-88 | the store gets the encoded category array and the encoded map under their keys, and nothing else changes |
| SuggestionRegistry.SuggestionManager.AddDefaultSuggestions | app/src/main/java/com/materialdesign/whatsouldido/SuggestionManager.kt:91-124 | appends the sixteen defaults in order; the map becomes the seeding of the defaults over the current categories |
| Ranking.InsertFacts | app/src/main/java/com/materialdesign/whatsouldido/StatisticsActivity.kt:146 | inserting into a non-increasing list keeps it non-increasing, and adds exactly that entry |
| Ranking.InsertBound | app/src/main/java/com/materialdesign/whatsouldido/StatisticsActivity.kt:146 | inserting an entry no larger than a bound into a list whose counts are all within the bound keeps every count within it |
| Ranking.SortDescending | app/src/main/java/com/materialdesign/whatsouldido/StatisticsActivity.kt:146 | the sorted rows are in non-increasing count order and are a permutation of the input |
| Ranking.TopFive | app/src/main/java/com/materialdesign/whatsouldido/StatisticsActivity.kt:178-180 | min(n, 5) entries, non-increasing, drawn from the input (as a sub-multiset); no omitted entry has a higher count than the last one kept |
| Ranking.TopFiveBound | app/src/main/java/com/materialdesign/whatsouldido/StatisticsActivity.kt:178-180 | every entry of the sorted list beyond the first k has a count no higher than the k-th |
| Statistics.IntFields | app/src/main/java/com/materialdesign/whatsouldido/StatisticsActivity.kt:60-65 | exactly the number-valued fields of the stored counts object can be read: every number field is present with its value, and nothing else is |
| Statistics.NameOf | app/src/main/java/com/materialdesign/whatsouldido/StatisticsActivity.kt:80-82 | a suggestion has a category name exactly when its category resolves, and the name is that category's |
| Statistics.CategoryUsage | app/src/main/java/com/materialdesign/whatsouldido/StatisticsActivity.kt:72-86 | the usage table has an entry for a name exactly when some counted suggestion resolves to it; the entry is the sum of those suggestions' counts |
| Statistics.UsageStep | app/src/main/java/com/materialdesign/whatsouldido/StatisticsActivity.kt:79-85 | counting one more suggestion adds its count to its category's entry (`getOrDefault(name, 0) + count`), or changes nothing if it does not resolve |
| Statistics.UsageEmpty | app/src/main/java/com/materialdesign/whatsouldido/StatisticsActivity.kt:73 | before any suggestion is counted the table is empty |
| Statistics.CountOne | app/src/main/java/com/materialdesign/whatsouldido/StatisticsActivity.kt:79-85 | `UsageStep`, stated for the set of suggestions not yet visited |
| Statistics.UsageIgnoresUnresolved | app/src/main/java/com/materialdesign/whatsouldido/StatisticsActivity.kt:80-81 | a suggestion whose category does not resolve contributes nothing: the table is the same without it |
| Statistics.UsageTotal | app/src/main/java/com/materialdesign/whatsouldido/StatisticsActivity.kt:79-85 | the usage total equals the total count of the suggestions that resolve |
| Statistics.UsageBoundedByTotal | app/src/main/java/com/materialdesign/whatsouldido/StatisticsActivity.kt:246 | with non-negative counts, the category usages add up to at most the total usage count |
| Statistics.SumCountsTotal | app/src/main/java/com/materialdesign/whatsouldido/StatisticsActivity.kt:143 | summing the pairs of a map's `toList()` gives the total of the map's values |
| Statistics.CategorySection | app/src/main/java/com/materialdesign/whatsouldido/StatisticsActivity.kt:112-146 | no section exactly when usage is empty; otherwise rows in non-increasing usage order, a permutation of the usage pairs, and their sum as total |
| Statistics.TopSection | app/src/main/java/com/materialdesign/whatsouldido/StatisticsActivity.kt:174-180 | no section exactly when there are no counts; otherwise 1 to 5 entries in non-increasing order, all taken from the counts; none omitted ranks above the last shown |
| Statistics.TopOfCounts | app/src/main/java/com/materialdesign/whatsouldido/StatisticsActivity.kt:175-180 | over a counts map, every shown suggestion appears with its own count, and every suggestion not shown has a count no higher than the last one shown |
| Statistics.SuggestionTotal | app/src/main/java/com/materialdesign/whatsouldido/StatisticsActivity.kt:251-261 | the length of the "suggestions" array when the stored value is an object holding one; 0 in every other case (missing, unparsable, not an object, no such array) |
| Statistics.StatisticsActivity.constructor | app/src/main/java/com/materialdesign/whatsouldido/StatisticsActivity.kt:27-28 | both maps start empty |
| Statistics.StatisticsActivity.LoadCounts | app/src/main/java/com/materialdesign/whatsouldido/StatisticsActivity.kt:53-70 | the counts are cleared and refilled: every count read is the stored number for its key, and with all-number values the counts are exactly the stored object |
| Statistics.StatisticsActivity.CalculateCategoryUsage | app/src/main/java/com/materialdesign/whatsouldido/StatisticsActivity.kt:72-86 | a fresh registry is loaded from the store, and the table becomes `CategoryUsage` of the counts through that registry |
| Statistics.StatisticsActivity.AccumulateUsage | app/src/main/java/com/materialdesign/whatsouldido/StatisticsActivity.kt:73-85 | the loop leaves exactly `CategoryUsage` of the counts |
| Statistics.AddUsage | app/src/main/java/com/materialdesign/whatsouldido/StatisticsActivity.kt:80-84 | one loop step turns the table for the visited suggestions into the table for them plus the current one |
| Themes.DarkAfter | app/src/main/java/com/materialdesign/whatsouldido/ThemeManager.kt:22-27 | "system" is dark exactly from 18:00; "light" is not dark, "dark" is; any other name keeps the given flag |
| Themes.Applied | app/src/main/java/com/materialdesign/whatsouldido/ThemeManager.kt:43-51 | `setTheme` always takes the name, unknown ones included; light → not dark, dark → dark, system → by hour, custom and unknown names keep the flag |
| Themes.StoredTheme | app/src/main/java/com/materialdesign/whatsouldido/ThemeManager.kt:19 | the stored theme name, or "system" when none is stored |
| Themes.StoredCustomDark | app/src/main/java/com/materialdesign/whatsouldido/ThemeManager.kt:26 | the stored custom flag, or false when none is stored |
| Themes.Loaded | app/src/main/java/com/materialdesign/whatsouldido/ThemeManager.kt:17-28 | with no stored theme: "system" and dark by the hour; otherwise the stored name; "custom" takes the stored flag; every other name follows the `setTheme` rule |
| Themes.Saved | app/src/main/java/com/materialdesign/whatsouldido/ThemeManager.kt:30-36 | the name and the flag are written under "theme" and "customIsDark", and every other key is untouched |
| Themes.ConsistentStates | app/src/main/java/com/materialdesign/whatsouldido/ThemeManager.kt:43-51 | a fresh manager, `setTheme` and `loadThemeSettings` all leave "light" not dark and "dark" dark |
| Themes.SavedIsReadable | app/src/main/java/com/materialdesign/whatsouldido/ThemeManager.kt:30-36 | what is saved can be loaded without an exception and reads back as the saved name and flag |
| Themes.SaveLoadTheme | app/src/main/java/com/materialdesign/whatsouldido/ThemeManager.kt:17-36 | save then load restores the name; for light, dark and custom also the flag; "system" recomputes the flag from the hour; an unknown name keeps the loader's flag |
| Themes.SetThenLoad | app/src/main/java/com/materialdesign/whatsouldido/ThemeManager.kt:43-54 | after `setTheme(t)` for t in light, dark, custom, a later load at any hour and from any state reproduces both fields |
| Themes.ThemeManager.constructor | app/src/main/java/com/materialdesign/whatsouldido/ThemeManager.kt:13-15 | a new manager has theme "system" and is not dark |
| Themes.ThemeManager.CheckDayNightTheme | app/src/main/java/com/materialdesign/whatsouldido/ThemeManager.kt:38-41 | dark exactly when the hour is 18 or later; the theme name is untouched |
| Themes.ThemeManager.LoadThemeSettings | app/src/main/java/com/materialdesign/whatsouldido/ThemeManager.kt:17-28 | the fields become `Loaded` of the store, the hour and the previous fields |
| Themes.ThemeManager.SaveThemeSettings | app/src/main/java/com/materialdesign/whatsouldido/ThemeManager.kt:30-36 | the store becomes `Saved` of the old store and the fields |
| Themes.ThemeManager.SetTheme | app/src/main/java/com/materialdesign/whatsouldido/ThemeManager.kt:43-54 | the fields become `Applied` of the old fields, and the result is saved |
| MainScreen.Toggled | app/src/main/java/com/materialdesign/whatsouldido/MainActivity.kt:80-88 | the empty text and the placeholder change nothing; otherwise the suggestion's membership flips; no other element is affected |
| MainScreen.ToggleTwice | app/src/main/java/com/materialdesign/whatsouldido/MainActivity.kt:83-88 | toggling the same suggestion twice restores the set |
| MainScreen.StoredFavorites | app/src/main/java/com/materialdesign/whatsouldido/MainActivity.kt:114 | no set exactly when nothing is stored under "favorites"; otherwise the stored set |
| MainScreen.SaveLoadFavorites | app/src/main/java/com/materialdesign/whatsouldido/MainActivity.kt:112-126 | what `saveFavorites` writes, `loadFavorites` reads back unchanged |
| MainScreen.SelectedTheme | app/src/main/java/com/materialdesign/whatsouldido/MainActivity.kt:148-155 | the system, light, dark and custom buttons select "system", "light", "dark" and "custom" respectively; any other radio id selects "system" |
| MainScreen.Preselected | app/src/main/java/com/materialdesign/whatsouldido/MainActivity.kt:136-141 | a button is checked on opening exactly for the four known theme names |
| MainScreen.PreselectRoundTrip | app/src/main/java/com/materialdesign/whatsouldido/MainActivity.kt:136-155 | the two mappings are inverse: a known theme's button selects it again, and every real button is preselected for the theme it selects |
| MainScreen.MainActivity.constructor | app/src/main/java/com/materialdesign/whatsouldido/MainActivity.kt:11 | the favourites start empty, beside a fresh theme manager |
| MainScreen.MainActivity.ToggleFavorite | app/src/main/java/com/materialdesign/whatsouldido/MainActivity.kt:80-102 | the set becomes `Toggled`; ignored text neither changes nor saves anything; otherwise the new set is saved under "favorites" |
| MainScreen.MainActivity.StarOn | app/src/main/java/com/materialdesign/whatsouldido/MainActivity.kt:104-110 | the star is on exactly when the suggestion is a favourite |
| MainScreen.MainActivity.LoadFavorites | app/src/main/java/com/materialdesign/whatsouldido/MainActivity.kt:112-119 | the set is replaced by the stored set, or emptied when none is stored |
| MainScreen.MainActivity.SaveFavorites | app/src/main/java/com/materialdesign/whatsouldido/MainActivity.kt:121-126 | the set is stored under "favorites" and no other key changes |
| MainScreen.MainActivity.ShowFavoritesDialog | app/src/main/java/com/materialdesign/whatsouldido/MainActivity.kt:184-191 | no dialog exactly when there are no favourites; otherwise the list shown holds every favourite exactly once |
| MainScreen.MainActivity.ConfirmSettings | app/src/main/java/com/materialdesign/whatsouldido/MainActivity.kt:146-161 | the theme is set, and saved, only when the selection differs from the current theme; otherwise nothing changes |

## Left out

- Views, animations, colours of text and backgrounds (`updateBackground`, `updateTheme`), chips, cards and dialogs are not modelled: they hold no state of the layer.
- The percentage column and the last-usage date of the statistics screen are not modelled: they are float formatting and a locale date call.
- JSON text syntax, `SharedPreferences` I/O and `apply()` are not modelled.
  - The store holds structured values.
  - A JSON key holding text that does not parse stands for any text that `JSONArray`/`JSONObject` reject.
  - Theme names are stored as plain text whatever they contain, since the theme key is never parsed as JSON.
- A JSON document stored under "theme" is excluded by `ThemeReadable`: the app never writes one there.
- A key holding the wrong type of value is excluded by the requires of the readers, because the app never writes another type under these keys. In the app, reading such a key throws an uncaught `ClassCastException` that crashes it. The model does not capture that crash. The requires concerned are:
  - `HoldsText` on the readers of "categories", "suggestionCategories", "counts" and "suggestions" (`getString` on a boolean or a set);
  - the `Text?` and `Flag?` clauses of `ThemeReadable` (`getString("theme")` and `getBoolean("customIsDark")` on another type);
  - the `TextSet?` requires of `MainScreen.MainActivity.LoadFavorites` and `MainScreen.StoredFavorites` (`getStringSet` on text).
- Android's `getString`/`getInt` coercion of other JSON scalars is not modelled: only JSON strings (numbers for counts) are read, and any other value ends the read loop like an exception.
- The order in which `JSONObject.keys()` visits keys is not specified. When a stored value cannot be read, which entries were read before the exception is left open (`MergedFrom`, `CountsReadFrom`).
- Kotlin's 32-bit `Int` is modelled as unbounded `int`:
  - in stored counts and colours;
  - in the additions of `calculateCategoryUsage`;
  - in `values.sum()`.
  Overflow is not modelled.
- Ranking.SortDescending: the model inserts stably, as `sortedByDescending` is, but the contract does not state stability. Ties among equal counts may therefore come out in any order as far as the proofs go.
- SuggestionRegistry.SuggestionManager.GetCategories: returns the list as a value. Aliasing of the returned live list is not modelled.
- MainScreen.MainActivity.SaveFavorites: the set is stored as a value. Aliasing of the live set handed to `putStringSet` is not modelled.
- The rest of `loadSuggestions`/`saveSuggestions` (the suggestion list itself, "Mevcut kodlar") is not part of this model. `suggestionsList` is only appended to by `addDefaultSuggestions`.
- Statistics.StatisticsActivity.CalculateCategoryUsage: returns the registry it loads, so that the contract can speak of it. In the source the registry is a local.
- UUID generation and `Calendar` are parameters (`ids`, `hour`).
- `Color.parseColor` is modelled for the four fixed colour strings only, by integer arithmetic.
- `onCreate` and the other lifecycle and navigation code are not modelled.
- `AnimationManager.kt` and `SuggetionsAdapter.kt` are not part of this model.
