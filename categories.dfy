/** The `Category` record, the four default categories and Kotlin's `List.find`. */
module Categories {
  import opened Wrappers

  /**
   * A category: its identifier (a generated UUID string unless one is given),
   * display name, ARGB colour as a signed 32-bit Int, and emoji.
   */
  datatype Category = Category(id: string, name: string, color: int, emoji: string)

  const FUN := "Eğlence"
  const HEALTH := "Sağlık"
  const PRODUCTIVITY := "Üretkenlik"
  const SOCIAL := "Sosyal"

  /**
   * `Color.parseColor("#RRGGBB")`: the alpha byte is forced to 0xFF and the
   * 32-bit ARGB word is read as a signed Int, so the result is negative.
   */
  function OpaqueColor(rgb: int): (c: int)
    requires 0 <= rgb < 0x100_0000
    ensures -0x8000_0000 <= c < 0
    ensures (c + 0x1_0000_0000) % 0x100_0000 == rgb
    ensures (c + 0x1_0000_0000) / 0x100_0000 == 0xFF
  {
    0xFF00_0000 + rgb - 0x1_0000_0000
  }

  /**
   * `Category.getDefaultCategories()`. Each call generates four fresh UUIDs;
   * here they are the parameter `ids`.
   */
  function DefaultCategories(ids: seq<string>): (r: seq<Category>)
    requires |ids| == 4
    ensures |r| == 4
    ensures forall i :: 0 <= i < 4 ==> r[i].id == ids[i]
    ensures forall i, j :: 0 <= i < j < 4 ==> r[i].name != r[j].name
    ensures forall i :: 0 <= i < 4 ==> r[i].color < 0
  {
    [ Category(ids[0], FUN, OpaqueColor(0xFF5252), "🎭"),
      Category(ids[1], HEALTH, OpaqueColor(0x4CAF50), "💪"),
      Category(ids[2], PRODUCTIVITY, OpaqueColor(0x2196F3), "📝"),
      Category(ids[3], SOCIAL, OpaqueColor(0xFF9800), "👥") ]
  }

  /** The names, emoji and RGB colours of the defaults, in list order. */
  lemma DefaultCategoryTable(ids: seq<string>)
    requires |ids| == 4
    ensures var d := DefaultCategories(ids);
      && [d[0].name, d[1].name, d[2].name, d[3].name] == [FUN, HEALTH, PRODUCTIVITY, SOCIAL]
      && [d[0].emoji, d[1].emoji, d[2].emoji, d[3].emoji] == ["🎭", "💪", "📝", "👥"]
      && [d[0].color, d[1].color, d[2].color, d[3].color]
         == [OpaqueColor(0xFF5252), OpaqueColor(0x4CAF50), OpaqueColor(0x2196F3), OpaqueColor(0xFF9800)]
  {
  }

  /**
   * Kotlin's `find`: the index of the first category satisfying `p`, if any.
   */
  function FindIndex(cats: seq<Category>, p: Category -> bool): (r: Option<nat>)
    ensures r.Some? ==> r.value < |cats| && p(cats[r.value])
    ensures r.Some? ==> forall j :: 0 <= j < r.value ==> !p(cats[j])
    ensures r.None? <==> forall j :: 0 <= j < |cats| ==> !p(cats[j])
  {
    if cats == [] then None
    else if p(cats[0]) then Some(0)
    else match FindIndex(cats[1..], p)
      case None => None
      case Some(k) => Some(k + 1)
  }

  /** Appending a category never changes which earlier category `find` returns. */
  lemma {:induction false} FindIndexAppend(cats: seq<Category>, c: Category, p: Category -> bool)
    ensures FindIndex(cats, p).Some? ==> FindIndex(cats + [c], p) == FindIndex(cats, p)
    ensures FindIndex(cats, p).None? ==> FindIndex(cats + [c], p) == if p(c) then Some(|cats|) else None
  {
    if cats != [] {
      assert (cats + [c])[1..] == cats[1..] + [c];
      FindIndexAppend(cats[1..], c, p);
    }
  }
}
