/**
 * The `useColors` hook: two constant lookup tables, Tailwind class strings
 * by pattern and variant (`getClasses`) and inline style objects by colour
 * and variant (`getStyles`). A missing entry gives `''` or `{}`; the
 * variant defaults to `'main'`.
 */
module ColorSchema {
  import opened Wrappers

  /** A table keyed by strings, in the object literal's key order. */
  type Table<V> = seq<(string, V)>

  /** `table[key]` for an own key of an object literal. */
  function Lookup<V>(table: Table<V>, key: string): (r: Option<V>)
    ensures r.Some? ==> exists i :: 0 <= i < |table| && table[i] == (key, r.value)
    ensures r.None? <==> forall i :: 0 <= i < |table| ==> table[i].0 != key
  {
    if table == [] then None
    else if table[0].0 == key then Some(table[0].1)
    else Lookup(table[1..], key)
  }

  /** In a table whose keys are distinct, a key finds its own entry. */
  lemma {:induction false} LookupEntry<V>(table: Table<V>, i: nat)
    requires i < |table|
    requires forall j, k :: 0 <= j < k < |table| ==> table[j].0 != table[k].0
    ensures Lookup(table, table[i].0) == Some(table[i].1)
    decreases i
  {
    if i > 0 {
      assert table[0].0 != table[i].0;
      assert table[1..][i - 1] == table[i];
      LookupEntry(table[1..], i - 1);
    }
  }

  predicate DistinctKeys<V>(table: Table<V>) {
    forall j, k :: 0 <= j < k < |table| ==> table[j].0 != table[k].0
  }

  const DefaultVariant := "main"

  // ---------------------------------------------------------------------------
  // getClasses
  // ---------------------------------------------------------------------------

  const ButtonClasses: Table<string> := [
    ("primary", "bg-[#CB342A] text-white hover:bg-[#A32922] border-[#CB342A]"),
    ("secondary", "bg-[#BCAE9F] text-[#191818] hover:bg-[#9C8E80] border-[#BCAE9F]"),
    ("outline", "bg-transparent text-[#191818] border-[#636060] hover:bg-[#F7F7F7]")
  ]
  const BgClasses: Table<string> := [
    ("primary", "bg-[#CB342A]"), ("secondary", "bg-[#BCAE9F]"),
    ("neutral", "bg-[#FEFDFD]"), ("dark", "bg-[#191818]")
  ]
  const TextClasses: Table<string> := [
    ("primary", "text-[#CB342A]"), ("secondary", "text-[#BCAE9F]"),
    ("neutral", "text-[#191818]"), ("white", "text-[#FEFDFD]")
  ]
  const BorderClasses: Table<string> := [
    ("primary", "border-[#CB342A]"), ("secondary", "border-[#BCAE9F]"), ("neutral", "border-[#636060]")
  ]

  const Classes: Table<Table<string>> := [
    ("button", ButtonClasses), ("bg", BgClasses), ("text", TextClasses), ("border", BorderClasses)
  ]

  /** `classes[type]?.[variant] || ''`. */
  function GetClasses(kind: string, variant: Option<string>): (r: string)
  {
    var v := variant.GetOr(DefaultVariant);
    var row := Lookup(Classes, kind);
    if row.Some? then
      var cell := Lookup(row.value, v);
      if cell.Some? && cell.value != "" then cell.value else ""
    else ""
  }

  /** A known pattern and variant give the table's class string. */
  lemma GetClassesTable(i: nat, j: nat)
    requires i < |Classes| && j < |Classes[i].1|
    ensures GetClasses(Classes[i].0, Some(Classes[i].1[j].0)) == Classes[i].1[j].1
  {
    TablesDistinct();
    LookupEntry(Classes, i);
    LookupEntry(Classes[i].1, j);
    ClassesNonEmpty(i, j);
  }

  /** Any pair the tables do not hold, an unknown pattern included, gives `''`. */
  lemma GetClassesMissing(kind: string, variant: string)
    requires forall i, j :: 0 <= i < |Classes| && 0 <= j < |Classes[i].1| ==>
      Classes[i].0 != kind || Classes[i].1[j].0 != variant
    ensures GetClasses(kind, Some(variant)) == ""
  {
    var row: Option<Table<string>> := Lookup(Classes, kind);
    if row.Some? {
      var i :| 0 <= i < |Classes| && Classes[i] == (kind, row.value);
      assert forall j :: 0 <= j < |row.value| ==> row.value[j].0 != variant;
    }
  }

  lemma TablesDistinct()
    ensures DistinctKeys(Classes)
    ensures forall i :: 0 <= i < |Classes| ==> DistinctKeys(Classes[i].1)
  {
  }

  lemma ClassesNonEmpty(i: nat, j: nat)
    requires i < |Classes| && j < |Classes[i].1|
    ensures Classes[i].1[j].1 != ""
  {
  }

  /** No class table has a `'main'` entry, so the default variant always
      gives `''`. */
  lemma DefaultVariantHasNoClasses(kind: string)
    ensures GetClasses(kind, None) == ""
  {
    var row := Lookup(Classes, kind);
    if row.Some? {
      assert row.value in [ButtonClasses, BgClasses, TextClasses, BorderClasses];
      assert Lookup(row.value, DefaultVariant).None?;
    }
  }

  // ---------------------------------------------------------------------------
  // getStyles
  // ---------------------------------------------------------------------------

  /** An inline style object; an absent property is `None`. */
  datatype Style = Style(backgroundColor: Option<string>, color: Option<string>, borderColor: Option<string>)

  const EmptyStyle := Style(None, None, None)

  function Solid(background: string, color: string): Style {
    Style(Some(background), Some(color), Some(background))
  }

  const PrimaryStyles: Table<Style> := [
    ("main", Solid("#CB342A", "#FEFDFD")), ("light", Solid("#D65F57", "#191818")), ("dark", Solid("#A32922", "#FEFDFD"))
  ]
  const SecondaryStyles: Table<Style> := [
    ("main", Solid("#BCAE9F", "#191818")), ("light", Solid("#CBBEB1", "#191818")), ("dark", Solid("#9C8E80", "#FEFDFD"))
  ]
  const NeutralStyles: Table<Style> := [
    ("background", Style(Some("#FEFDFD"), None, None)),
    ("text", Style(None, Some("#191818"), None)),
    ("border", Style(None, None, Some("#636060")))
  ]

  const Styles: Table<Table<Style>> := [
    ("primary", PrimaryStyles), ("secondary", SecondaryStyles), ("neutral", NeutralStyles)
  ]

  /** `styles[type]?.[variant] || {}` (every entry is an object, so truthy). */
  function GetStyles(kind: string, variant: Option<string>): (r: Style)
    ensures Lookup(Styles, kind).None? ==> r == EmptyStyle
  {
    var v := variant.GetOr(DefaultVariant);
    var row := Lookup(Styles, kind);
    if row.Some? then Lookup(row.value, v).GetOr(EmptyStyle) else EmptyStyle
  }

  /** With the default variant, the two brand colours give their `main`
      style and `neutral` gives `{}`. */
  lemma DefaultVariantStyles()
    ensures GetStyles("primary", None) == Solid("#CB342A", "#FEFDFD")
    ensures GetStyles("secondary", None) == Solid("#BCAE9F", "#191818")
    ensures GetStyles("neutral", None) == EmptyStyle
  {
    GetStylesTable(0, 0);
    GetStylesTable(1, 0);
    LookupEntry(Styles, 2);
    assert Lookup(NeutralStyles, DefaultVariant).None?;
  }

  /** A known colour and variant give the table's style object. */
  lemma GetStylesTable(i: nat, j: nat)
    requires i < |Styles| && j < |Styles[i].1|
    ensures GetStyles(Styles[i].0, Some(Styles[i].1[j].0)) == Styles[i].1[j].1
  {
    assert DistinctKeys(Styles) && DistinctKeys(Styles[i].1);
    LookupEntry(Styles, i);
    LookupEntry(Styles[i].1, j);
  }
}
