/**
 * StatisticsActivity: the per-suggestion counts read from the store, their
 * aggregation into per-category usage through the registry, and what the
 * statistics screen shows from them.
 */
module Statistics {
  import opened Wrappers
  import opened Categories
  import opened Preferences
  import opened SuggestionRegistry
  import opened Sums
  import opened Ranking

  // ---------------------------------------------------------------------------
  // Reading the counts

  /** The entries of a stored object that `getInt` can read. */
  function IntFields(fields: map<string, Json>): (m: map<string, int>)
    ensures m.Keys <= fields.Keys
    ensures forall k :: k in fields && fields[k].JNumber? ==> k in m && m[k] == fields[k].n
    ensures forall k :: k in m ==> k in fields && fields[k] == JNumber(m[k])
  {
    map k | k in fields && fields[k].JNumber? :: fields[k].n
  }

  predicate AllNumbers(fields: map<string, Json>) {
    forall k :: k in fields ==> fields[k].JNumber?
  }

  /**
   * What `loadCounts` can leave: it starts from an empty map and sets each
   * stored key to its stored number. Keys are visited in no specified order and
   * a non-number ends the loop, so in general only some stored counts arrive;
   * when every value is a number, all of them do.
   */
  ghost predicate CountsReadFrom(counts: map<string, int>, fields: map<string, Json>) {
    && (forall k :: k in counts ==> k in fields && fields[k] == JNumber(counts[k]))
    && (AllNumbers(fields) ==> counts == IntFields(fields))
  }

  // ---------------------------------------------------------------------------
  // Category usage

  /** The name of the category a suggestion resolves to, if it resolves. */
  function NameOf(cats: seq<Category>, mapping: map<string, string>, s: string): (r: Option<string>)
    ensures r.Some? <==> Resolve(cats, mapping, s).Some?
    ensures r.Some? ==> r.value == Resolve(cats, mapping, s).value.name
  {
    match Resolve(cats, mapping, s)
    case None => None
    case Some(c) => Some(c.name)
  }

  /** Category-name lookup through a registry's list and map. */
  function Namer(cats: seq<Category>, mapping: map<string, string>): string -> Option<string> {
    s => NameOf(cats, mapping, s)
  }

  /** The suggestions among `done` whose category resolves to the name `n`. */
  ghost function UsersOf(nameOf: string -> Option<string>, done: set<string>, n: string): set<string> {
    set s | s in done && nameOf(s) == Some(n)
  }

  /** The suggestions among `done` whose category resolves at all. */
  ghost function Resolved(nameOf: string -> Option<string>, done: set<string>): set<string> {
    set s | s in done && nameOf(s).Some?
  }

  /** The usage table after the suggestions in `done` have been counted. */
  ghost function UsageOver(counts: map<string, int>, nameOf: string -> Option<string>, done: set<string>): map<string, int>
    requires done <= counts.Keys
  {
    map n | n in (set s | s in Resolved(nameOf, done) :: nameOf(s).value) :: Sum(UsersOf(nameOf, done, n), counts)
  }

  /**
   * The usage table `calculateCategoryUsage` builds: for each category name
   * that some counted suggestion resolves to, the sum of the counts of the
   * suggestions resolving to that name.
   */
  ghost function CategoryUsage(counts: map<string, int>, nameOf: string -> Option<string>): (usage: map<string, int>)
    ensures forall n :: n in usage <==> exists s :: s in counts && nameOf(s) == Some(n)
  {
    var usage := UsageOver(counts, nameOf, counts.Keys);
    assert forall n :: n in usage <==> exists s :: s in counts && nameOf(s) == Some(n) by {
      forall n | exists s :: s in counts && nameOf(s) == Some(n)
        ensures n in usage
      {
        var s :| s in counts && nameOf(s) == Some(n);
        assert s in Resolved(nameOf, counts.Keys);
      }
    }
    usage
  }

  /** Counting one more suggestion adds its count to its category's entry, or changes nothing if it does not resolve. */
  lemma UsageStep(counts: map<string, int>, nameOf: string -> Option<string>, done: set<string>, s: string)
    requires done <= counts.Keys && s in counts && s !in done
    ensures nameOf(s).None? ==> UsageOver(counts, nameOf, done + {s}) == UsageOver(counts, nameOf, done)
    ensures nameOf(s).Some? ==>
              var u, n := UsageOver(counts, nameOf, done), nameOf(s).value;
              UsageOver(counts, nameOf, done + {s}) == u[n := (if n in u then u[n] else 0) + counts[s]]
  {
    match nameOf(s)
    case None => UsageStepUnresolved(counts, nameOf, done, s);
    case Some(n) => UsageStepResolved(counts, nameOf, done, s, n);
  }

  /** A suggestion without a category leaves the table as it was. */
  lemma UsageStepUnresolved(counts: map<string, int>, nameOf: string -> Option<string>, done: set<string>, s: string)
    requires done <= counts.Keys && s in counts && s !in done && nameOf(s).None?
    ensures UsageOver(counts, nameOf, done + {s}) == UsageOver(counts, nameOf, done)
  {
    assert Resolved(nameOf, done + {s}) == Resolved(nameOf, done);
    forall m
      ensures UsersOf(nameOf, done + {s}, m) == UsersOf(nameOf, done, m)
    {
    }
  }

  /** A suggestion resolving to `n` changes the entry for `n` and no other. */
  lemma UsageStepResolved(counts: map<string, int>, nameOf: string -> Option<string>, done: set<string>, s: string, n: string)
    requires done <= counts.Keys && s in counts && s !in done && nameOf(s) == Some(n)
    ensures var u := UsageOver(counts, nameOf, done);
            UsageOver(counts, nameOf, done + {s}) == u[n := (if n in u then u[n] else 0) + counts[s]]
  {
    var u := UsageOver(counts, nameOf, done);
    var u' := UsageOver(counts, nameOf, done + {s});
    NamedEntry(counts, nameOf, done, s, n);
    forall m | m != n
      ensures UsersOf(nameOf, done + {s}, m) == UsersOf(nameOf, done, m)
      ensures m in u' <==> m in u
    {
      OtherNamesUnchanged(counts, nameOf, done, s, n, m);
    }
    assert u'.Keys == u.Keys + {n};
  }

  /** Counting a suggestion that resolves to `n` adds its count to the entry for `n`. */
  lemma NamedEntry(counts: map<string, int>, nameOf: string -> Option<string>, done: set<string>, s: string, n: string)
    requires done <= counts.Keys && s in counts && s !in done && nameOf(s) == Some(n)
    ensures var u := UsageOver(counts, nameOf, done);
            var u' := UsageOver(counts, nameOf, done + {s});
            n in u' && u'[n] == (if n in u then u[n] else 0) + counts[s]
  {
    var u := UsageOver(counts, nameOf, done);
    var users := UsersOf(nameOf, done + {s}, n);
    assert users - {s} == UsersOf(nameOf, done, n);
    SumRemove(users, counts, s);
    if n !in u {
      assert UsersOf(nameOf, done, n) == {};
    }
    assert s in Resolved(nameOf, done + {s});
  }

  /** Counting a suggestion that resolves to `n` does not touch any other name's entry. */
  lemma OtherNamesUnchanged(counts: map<string, int>, nameOf: string -> Option<string>, done: set<string>, s: string, n: string, m: string)
    requires done <= counts.Keys && s in counts && s !in done && nameOf(s) == Some(n) && m != n
    ensures UsersOf(nameOf, done + {s}, m) == UsersOf(nameOf, done, m)
    ensures m in UsageOver(counts, nameOf, done + {s}) <==> m in UsageOver(counts, nameOf, done)
  {
    if m in UsageOver(counts, nameOf, done + {s}) {
      var t :| t in Resolved(nameOf, done + {s}) && nameOf(t).value == m;
      assert t in Resolved(nameOf, done);
    }
  }

  /** Before any suggestion is counted the table is empty. */
  lemma UsageEmpty(counts: map<string, int>, nameOf: string -> Option<string>)
    ensures UsageOver(counts, nameOf, {}) == map[]
  {
    assert Resolved(nameOf, {}) == {};
  }

  /** `UsageStep` in the shape of a loop over the suggestions not yet counted. */
  lemma CountOne(counts: map<string, int>, nameOf: string -> Option<string>, rest: set<string>, s: string, u: map<string, int>)
    requires rest <= counts.Keys && s in rest
    requires u == UsageOver(counts, nameOf, counts.Keys - rest)
    ensures nameOf(s).None? ==> UsageOver(counts, nameOf, counts.Keys - (rest - {s})) == u
    ensures nameOf(s).Some? ==>
              var n := nameOf(s).value;
              UsageOver(counts, nameOf, counts.Keys - (rest - {s})) == u[n := (if n in u then u[n] else 0) + counts[s]]
  {
    assert counts.Keys - (rest - {s}) == (counts.Keys - rest) + {s};
    UsageStep(counts, nameOf, counts.Keys - rest, s);
  }

  /** A suggestion whose category does not resolve contributes nothing to the usage table. */
  lemma UsageIgnoresUnresolved(counts: map<string, int>, nameOf: string -> Option<string>, s: string)
    requires nameOf(s).None?
    ensures CategoryUsage(counts, nameOf) == CategoryUsage(counts - {s}, nameOf)
  {
    var rest := counts - {s};
    assert Resolved(nameOf, counts.Keys) == Resolved(nameOf, rest.Keys);
    forall n
      ensures UsersOf(nameOf, counts.Keys, n) == UsersOf(nameOf, rest.Keys, n)
      ensures Sum(UsersOf(nameOf, counts.Keys, n), counts) == Sum(UsersOf(nameOf, rest.Keys, n), rest)
    {
      SumAgree(UsersOf(nameOf, rest.Keys, n), counts, rest);
    }
  }

  /** The usage table's total is the total count of the suggestions that resolve. */
  lemma {:induction false} UsageTotal(counts: map<string, int>, nameOf: string -> Option<string>, done: set<string>)
    requires done <= counts.Keys
    ensures Total(UsageOver(counts, nameOf, done)) == Sum(Resolved(nameOf, done), counts)
    decreases done
  {
    if done == {} {
      UsageEmpty(counts, nameOf);
      assert Resolved(nameOf, done) == {};
    } else {
      var x := Pick(done);
      var prior := done - {x};
      UsageTotal(counts, nameOf, prior);
      TotalStep(counts, nameOf, prior, x);
      assert prior + {x} == done;
    }
  }

  /** Counting one suggestion changes the usage total and the resolved total by the same amount. */
  lemma TotalStep(counts: map<string, int>, nameOf: string -> Option<string>, prior: set<string>, x: string)
    requires prior <= counts.Keys && x in counts && x !in prior
    ensures Total(UsageOver(counts, nameOf, prior + {x})) - Total(UsageOver(counts, nameOf, prior))
            == Sum(Resolved(nameOf, prior + {x}), counts) - Sum(Resolved(nameOf, prior), counts)
  {
    UsageTotalStep(counts, nameOf, prior, x);
    ResolvedStep(counts, nameOf, prior, x);
  }

  /** Counting one suggestion adds its count to the usage total if it resolves. */
  lemma UsageTotalStep(counts: map<string, int>, nameOf: string -> Option<string>, prior: set<string>, x: string)
    requires prior <= counts.Keys && x in counts && x !in prior
    ensures Total(UsageOver(counts, nameOf, prior + {x}))
            == Total(UsageOver(counts, nameOf, prior)) + (if nameOf(x).Some? then counts[x] else 0)
  {
    match nameOf(x)
    case None =>
      UsageStepUnresolved(counts, nameOf, prior, x);
    case Some(n) =>
      UsageStepResolved(counts, nameOf, prior, x, n);
      TotalAdd(UsageOver(counts, nameOf, prior), UsageOver(counts, nameOf, prior + {x}), n, counts[x]);
  }

  /** Counting one suggestion adds its count to the resolved total if it resolves. */
  lemma ResolvedStep(counts: map<string, int>, nameOf: string -> Option<string>, prior: set<string>, x: string)
    requires prior <= counts.Keys && x in counts && x !in prior
    ensures Sum(Resolved(nameOf, prior + {x}), counts)
            == Sum(Resolved(nameOf, prior), counts) + (if nameOf(x).Some? then counts[x] else 0)
  {
    var resolved := Resolved(nameOf, prior + {x});
    if nameOf(x).Some? {
      assert resolved - {x} == Resolved(nameOf, prior);
      SumRemove(resolved, counts, x);
    } else {
      assert resolved == Resolved(nameOf, prior);
    }
  }

  /** With non-negative counts, the category totals never exceed the total usage count. */
  lemma UsageBoundedByTotal(counts: map<string, int>, nameOf: string -> Option<string>)
    requires forall s :: s in counts ==> counts[s] >= 0
    ensures Total(CategoryUsage(counts, nameOf)) <= Total(counts)
  {
    UsageTotal(counts, nameOf, counts.Keys);
    SumSubset(Resolved(nameOf, counts.Keys), counts.Keys, counts);
  }

  // ---------------------------------------------------------------------------
  // What the screen shows

  /** `entries` lists the pairs of `m` once each, in some order (`m.toList()`). */
  ghost predicate Enumerates(entries: seq<Entry>, m: map<string, int>) {
    && (forall i :: 0 <= i < |entries| ==> entries[i].0 in m && m[entries[i].0] == entries[i].1)
    && (forall k :: k in m ==> exists i :: 0 <= i < |entries| && entries[i].0 == k)
    && (forall i, j :: 0 <= i < j < |entries| ==> entries[i].0 != entries[j].0)
  }

  /** The sum of the counts in a list of pairs. */
  function SumCounts(entries: seq<Entry>): int {
    if entries == [] then 0 else SumCounts(entries[..|entries| - 1]) + entries[|entries| - 1].1
  }

  /** Summing an enumeration of a map gives the map's total (`values.sum()`). */
  lemma {:induction false} SumCountsTotal(entries: seq<Entry>, m: map<string, int>)
    requires Enumerates(entries, m)
    ensures SumCounts(entries) == Total(m)
  {
    if entries == [] {
      assert m.Keys == {};
    } else {
      var n := |entries| - 1;
      var last := entries[n];
      var rest := m - {last.0};
      assert Enumerates(entries[..n], rest) by {
        forall k | k in rest
          ensures exists i :: 0 <= i < n && entries[..n][i].0 == k
        {
          var i :| 0 <= i < |entries| && entries[i].0 == k;
          assert entries[..n][i].0 == k;
        }
      }
      SumCountsTotal(entries[..n], rest);
      SumRemove(m.Keys, m, last.0);
      SumAgree(m.Keys - {last.0}, m, rest);
      assert rest.Keys == m.Keys - {last.0};
    }
  }

  /** The category table: its rows in non-increasing usage order, and the usage total. */
  datatype CategoryTable = CategoryTable(rows: seq<Entry>, total: int)

  /**
   * `addCategoryStatistics`: no section when the usage table is empty;
   * otherwise one row per usage entry, by non-increasing usage, and their sum.
   */
  function CategorySection(usage: seq<Entry>): (r: Option<CategoryTable>)
    ensures r.None? <==> usage == []
    ensures r.Some? ==> Descending(r.value.rows) && multiset(r.value.rows) == multiset(usage)
    ensures r.Some? ==> r.value.total == SumCounts(usage)
  {
    if usage == [] then None else Some(CategoryTable(SortDescending(usage), SumCounts(usage)))
  }

  /** Every element of a sub-multiset of `s` is an element of `s`. */
  lemma DrawnFrom(r: seq<Entry>, s: seq<Entry>)
    requires multiset(r) <= multiset(s)
    ensures forall x :: x in r ==> x in s
  {
    forall x | x in r
      ensures x in s
    {
      assert x in multiset(r);
    }
  }

  /**
   * `addTopSuggestionsStatistics`: no section when there are no counts;
   * otherwise the five most used suggestions.
   */
  function TopSection(counts: seq<Entry>): (r: Option<seq<Entry>>)
    ensures r.None? <==> counts == []
    ensures r.Some? ==> 0 < |r.value| <= TOP_COUNT && Descending(r.value)
    ensures r.Some? ==> forall x :: x in r.value ==> x in counts
    ensures r.Some? ==> forall x :: x in counts && x !in r.value ==> x.1 <= r.value[|r.value| - 1].1
  {
    if counts == [] then None
    else
      var top := TopFive(counts);
      DrawnFrom(top, counts);
      Some(top)
  }

  /**
   * Over a counts map: every shown suggestion is shown with its own count,
   * and every suggestion not shown is used no more often than the last one shown.
   */
  lemma TopOfCounts(counts: map<string, int>, entries: seq<Entry>)
    requires Enumerates(entries, counts) && entries != []
    ensures var r := TopSection(entries);
            && r.Some?
            && (forall i :: 0 <= i < |r.value| ==> r.value[i].0 in counts && counts[r.value[i].0] == r.value[i].1)
            && (forall k :: k in counts && (forall i :: 0 <= i < |r.value| ==> r.value[i].0 != k)
                  ==> counts[k] <= r.value[|r.value| - 1].1)
  {
    var top := TopSection(entries).value;
    forall i | 0 <= i < |top|
      ensures top[i].0 in counts && counts[top[i].0] == top[i].1
    {
      assert top[i] in top;
      var j :| 0 <= j < |entries| && entries[j] == top[i];
    }
    forall k | k in counts && (forall i :: 0 <= i < |top| ==> top[i].0 != k)
      ensures counts[k] <= top[|top| - 1].1
    {
      var j :| 0 <= j < |entries| && entries[j].0 == k;
      var x := entries[j];
      assert x in entries;
      assert x !in top;
    }
  }

  /** The value under "suggestions" is an object whose "suggestions" field is an array. */
  predicate HoldsSuggestionArray(entries: map<string, Stored>) {
    && SUGGESTIONS_KEY in entries && entries[SUGGESTIONS_KEY].Document?
    && entries[SUGGESTIONS_KEY].doc.JObject?
    && "suggestions" in entries[SUGGESTIONS_KEY].doc.fields
    && entries[SUGGESTIONS_KEY].doc.fields["suggestions"].JArray?
  }

  /**
   * The suggestion total of `addGeneralStatistics`: the length of the
   * "suggestions" array inside the object stored under "suggestions", or 0
   * when the value is missing or cannot be read as such.
   */
  function SuggestionTotal(entries: map<string, Stored>): (n: nat)
    requires HoldsText(entries, SUGGESTIONS_KEY)
    ensures SUGGESTIONS_KEY !in entries ==> n == 0
    ensures SUGGESTIONS_KEY in entries && entries[SUGGESTIONS_KEY].Text? ==> n == 0
    ensures HoldsSuggestionArray(entries) ==> n == |entries[SUGGESTIONS_KEY].doc.fields["suggestions"].items|
    ensures !HoldsSuggestionArray(entries) ==> n == 0
  {
    match ParsedAt(entries, SUGGESTIONS_KEY)
    case Some(JObject(f)) =>
      if "suggestions" in f && f["suggestions"].JArray? then |f["suggestions"].items| else 0
    case _ => 0
  }

  // ---------------------------------------------------------------------------
  // The activity's state

  class StatisticsActivity {
    var suggestionCounts: map<string, int>
    var categoryUsage: map<string, int>

    constructor ()
      ensures suggestionCounts == map[] && categoryUsage == map[]
    {
      suggestionCounts := map[];
      categoryUsage := map[];
    }

    /** `loadCounts`: clears the counts and reads them back from the stored object. */
    method LoadCounts(store: Store)
      requires HoldsText(store.entries, COUNTS_KEY)
      modifies this`suggestionCounts
      ensures CountsReadFrom(suggestionCounts, ObjectAt(store.entries, COUNTS_KEY))
    {
      suggestionCounts := map[];
      var fields := ObjectAt(store.entries, COUNTS_KEY);
      var keys := fields.Keys;
      var ok := true;
      while ok && keys != {}
        invariant keys <= fields.Keys
        invariant forall k :: k in fields && k !in keys ==> fields[k].JNumber?
        invariant suggestionCounts == map k | k in fields && k !in keys :: fields[k].n
        invariant !ok ==> !AllNumbers(fields)
        decreases keys, ok
      {
        var key :| key in keys;
        match fields[key] {
          case JNumber(count) =>
            suggestionCounts := suggestionCounts[key := count];
            keys := keys - {key};
          case _ =>
            ok := false;
        }
      }
      if ok {
        assert IntFields(fields) == suggestionCounts;
      }
    }

    /**
     * `calculateCategoryUsage`: loads a fresh registry from the store (returned
     * here so that the contract can speak of it) and adds each suggestion's
     * count to the entry of the category it resolves to.
     */
    method CalculateCategoryUsage(store: Store, defaultIds: seq<string>) returns (registry: SuggestionManager)
      requires |defaultIds| == 4
      requires HoldsText(store.entries, CATEGORIES_KEY) && HoldsText(store.entries, SUGGESTION_CATEGORIES_KEY)
      modifies this`categoryUsage
      ensures fresh(registry)
      ensures registry.categories == LoadedCategories(store.entries, defaultIds)
      ensures MergedFrom(map[], registry.suggestionCategories, ObjectAt(store.entries, SUGGESTION_CATEGORIES_KEY))
      ensures categoryUsage == CategoryUsage(suggestionCounts, Namer(registry.categories, registry.suggestionCategories))
    {
      registry := new SuggestionManager();
      registry.LoadSuggestions(store, defaultIds);
      AccumulateUsage(registry, Namer(registry.categories, registry.suggestionCategories));
    }

    /** The loop of `calculateCategoryUsage`, from an empty table. */
    method AccumulateUsage(registry: SuggestionManager, ghost nameOf: string -> Option<string>)
      requires forall s {:trigger NameOf(registry.categories, registry.suggestionCategories, s)} ::
                 nameOf(s) == NameOf(registry.categories, registry.suggestionCategories, s)
      modifies this`categoryUsage
      ensures categoryUsage == CategoryUsage(suggestionCounts, nameOf)
    {
      var counts := suggestionCounts;
      var usage := map[];
      var rest := counts.Keys;
      UsageEmpty(counts, nameOf);
      assert counts.Keys - rest == {};
      while rest != {}
        invariant rest <= counts.Keys
        invariant usage == UsageOver(counts, nameOf, counts.Keys - rest)
        decreases rest
      {
        var suggestion :| suggestion in rest;
        usage := AddUsage(registry, nameOf, counts, rest, suggestion, usage);
        rest := rest - {suggestion};
      }
      assert counts.Keys - rest == counts.Keys;
      categoryUsage := usage;
    }
  }

  /** One step of the loop: adds the suggestion's count to its category's entry, if it resolves. */
  method AddUsage(registry: SuggestionManager, ghost nameOf: string -> Option<string>, counts: map<string, int>,
                  ghost rest: set<string>, suggestion: string, usage: map<string, int>) returns (next: map<string, int>)
    requires forall s {:trigger NameOf(registry.categories, registry.suggestionCategories, s)} ::
               nameOf(s) == NameOf(registry.categories, registry.suggestionCategories, s)
    requires rest <= counts.Keys && suggestion in rest
    requires usage == UsageOver(counts, nameOf, counts.Keys - rest)
    ensures next == UsageOver(counts, nameOf, counts.Keys - (rest - {suggestion}))
  {
    CountOne(counts, nameOf, rest, suggestion, usage);
    var category := registry.GetCategoryForSuggestion(suggestion);
    assert nameOf(suggestion) == NameOf(registry.categories, registry.suggestionCategories, suggestion);
    next := usage;
    if category.Some? {
      var name := category.value.name;
      var previous := if name in usage then usage[name] else 0;
      next := usage[name := previous + counts[suggestion]];
    }
  }
}
