/** The merge of built-in and external items in config_loader.py:
    `_generate_item_key`, `_calculate_key_similarity`,
    `_detect_field_conflicts`, `_merge_with_conflict_resolution` and the
    statistics of `merge_with_builtin`. */
module Merge {
  import opened Common
  import opened CsvRows

  // ---------------------------------------------------------------- item keys

  /** The identifying fields, in the order they enter the key. */
  const KeyFieldNames: seq<string> := ["name", "title", "style", "stack", "framework"]

  /** The lower-cased, stripped values of the fields of `names` the item has
      with a non-empty value, in the order of `names`. */
  function KeyParts(fields: Table, names: seq<string>): seq<string>
    decreases |names|
  {
    if names == [] then []
    else
      var v := Get(fields, names[|names| - 1]);
      KeyParts(fields, names[..|names| - 1]) + (if v.Some? && v.value != "" then [Strip(Lower(v.value))] else [])
  }

  /** The `str` values of the item in dict order: its fields, then `_source`
      (`_row` and `_warnings` are not strings). */
  function StringValues(item: Item): seq<string> {
    seq(|item.fields|, i requires 0 <= i < |item.fields| => item.fields[i].1)
    + (if item.meta.Some? then [item.meta.value.source] else [])
  }

  /** A value the key fallback may use: non-empty and not starting with '_'. */
  predicate Plain(v: string) {
    v != "" && !StartsWith(v, "_")
  }

  /** `values[i]` is the first value the key fallback may use. */
  predicate FirstPlainAt(values: seq<string>, i: int) {
    0 <= i < |values| && Plain(values[i]) && forall j :: 0 <= j < i ==> !Plain(values[j])
  }

  /** The first non-empty value that does not start with '_'. */
  function FirstPlain(values: seq<string>): (r: Option<string>)
    ensures r.Some? ==> r.value in values && r.value != "" && !StartsWith(r.value, "_")
    ensures r.None? ==> forall v :: v in values ==> v == "" || StartsWith(v, "_")
    ensures r.Some? ==> exists i :: FirstPlainAt(values, i) && values[i] == r.value
  {
    if values == [] then None
    else if Plain(values[0]) then
      assert FirstPlainAt(values, 0);
      Some(values[0])
    else
      var r := FirstPlain(values[1..]);
      assert r.Some? ==> exists i :: FirstPlainAt(values, i) && values[i] == r.value by {
        if r.Some? {
          var i :| FirstPlainAt(values[1..], i) && values[1..][i] == r.value;
          forall j | 0 <= j < i + 1
            ensures !Plain(values[j])
          {
            if j > 0 {
              assert values[j] == values[1..][j - 1];
            }
          }
          assert FirstPlainAt(values, i + 1);
        }
      }
      r
  }

  /** `_generate_item_key` */
  function ItemKey(item: Item): (k: string)
    ensures KeyParts(item.fields, KeyFieldNames) != [] ==> k == Join(KeyParts(item.fields, KeyFieldNames), "|")
    ensures KeyParts(item.fields, KeyFieldNames) == [] && FirstPlain(StringValues(item)).None? ==> k == "unknown"
    ensures KeyParts(item.fields, KeyFieldNames) == [] ==> |k| <= 50
    ensures KeyParts(item.fields, KeyFieldNames) == [] && FirstPlain(StringValues(item)).Some? ==>
      exists i :: FirstPlainAt(StringValues(item), i) && k == Take(Strip(Lower(StringValues(item)[i])), 50)
  {
    var parts := KeyParts(item.fields, KeyFieldNames);
    if parts != [] then Join(parts, "|")
    else
      var first := FirstPlain(StringValues(item));
      if first.Some? then Take(Strip(Lower(first.value)), 50) else "unknown"
  }

  /** No upper-case ASCII letter. */
  predicate NoUpper(s: string) {
    forall i :: 0 <= i < |s| ==> !('A' <= s[i] <= 'Z')
  }

  lemma LowerNoUpper(s: string)
    ensures NoUpper(Lower(s))
  {
    var l := Lower(s);
    forall i | 0 <= i < |l|
      ensures !('A' <= l[i] <= 'Z')
    {
      assert l[i] == LowerChar(s[i]);
    }
  }

  lemma SliceNoUpper(s: string, lo: nat, hi: nat)
    requires NoUpper(s) && lo <= hi <= |s|
    ensures NoUpper(s[lo..hi])
  {
    forall i | 0 <= i < hi - lo
      ensures !('A' <= s[lo..hi][i] <= 'Z')
    {
      assert s[lo..hi][i] == s[lo + i];
    }
  }

  lemma StripLowerNoUpper(s: string)
    ensures NoUpper(Strip(Lower(s)))
  {
    var l := Lower(s);
    LowerNoUpper(s);
    var a := TrimStart(l);
    SliceNoUpper(l, |l| - |a|, |l|);
    assert a == l[|l| - |a|..|l|];
    var b := TrimEnd(a);
    SliceNoUpper(a, 0, |b|);
    assert b == a[0..|b|];
  }

  lemma {:induction false} JoinNoUpper(parts: seq<string>, sep: string)
    requires NoUpper(sep) && forall p :: p in parts ==> NoUpper(p)
    ensures NoUpper(Join(parts, sep))
    decreases |parts|
  {
    if |parts| > 1 {
      JoinNoUpper(parts[1..], sep);
      var rest := Join(parts[1..], sep);
      assert parts[0] in parts;
      assert Join(parts, sep) == parts[0] + sep + rest;
    }
  }

  lemma {:induction false} KeyPartsNoUpper(fields: Table, names: seq<string>)
    ensures forall p :: p in KeyParts(fields, names) ==> NoUpper(p)
    decreases |names|
  {
    if names != [] {
      KeyPartsNoUpper(fields, names[..|names| - 1]);
      var v := Get(fields, names[|names| - 1]);
      if v.Some? {
        StripLowerNoUpper(v.value);
      }
    }
  }

  /** Keys are case-insensitive: a key never holds an upper-case letter. */
  lemma ItemKeyLowerCase(item: Item)
    ensures NoUpper(ItemKey(item))
  {
    var parts := KeyParts(item.fields, KeyFieldNames);
    if parts != [] {
      KeyPartsNoUpper(item.fields, KeyFieldNames);
      JoinNoUpper(parts, "|");
    } else {
      var first := FirstPlain(StringValues(item));
      if first.Some? {
        var v := Strip(Lower(first.value));
        StripLowerNoUpper(first.value);
        if |v| > 50 {
          SliceNoUpper(v, 0, 50);
          assert Take(v, 50) == v[0..50];
        }
        assert ItemKey(item) == Take(v, 50);
      } else {
        assert ItemKey(item) == "unknown";
      }
    }
  }

  /** An item with an identifying field is keyed by its identifying fields
      alone: the other fields and the loader's metadata do not matter. */
  lemma ItemKeyByIdentity(a: Item, b: Item)
    requires forall f :: f in KeyFieldNames ==> Get(a.fields, f) == Get(b.fields, f)
    requires KeyParts(a.fields, KeyFieldNames) != []
    ensures ItemKey(a) == ItemKey(b)
  {
    SameKeyParts(a.fields, b.fields, KeyFieldNames);
  }

  lemma {:induction false} SameKeyParts(a: Table, b: Table, names: seq<string>)
    requires forall f :: f in names ==> Get(a, f) == Get(b, f)
    ensures KeyParts(a, names) == KeyParts(b, names)
    decreases |names|
  {
    if names != [] {
      var init := names[..|names| - 1];
      assert forall f :: f in init ==> f in names;
      SameKeyParts(a, b, init);
      assert names[|names| - 1] in names;
    }
  }

  // --------------------------------------------------------------- similarity

  /** `set(key.lower().split())` */
  function WordSet(k: string): set<string> {
    set w | w in Split(Lower(k))
  }

  /** `_calculate_key_similarity`: the Jaccard index of the two word sets. */
  function Similarity(k1: string, k2: string): real {
    if k1 == "" || k2 == "" then 0.0
    else
      var w1 := WordSet(k1);
      var w2 := WordSet(k2);
      if w1 == {} || w2 == {} then 0.0
      else (|w1 * w2| as real) / (|w1 + w2| as real)
  }

  lemma CardinalityBounds(a: set<string>, b: set<string>)
    ensures |a * b| <= |a + b|
    ensures |a * b| == |a + b| ==> a == b
  {
    assert |a - b| + |b - a| + |a * b| == |a + b|;
    if |a * b| == |a + b| {
      assert |a - b| == 0 && |b - a| == 0;
      assert a - b == {} && b - a == {};
    }
  }

  lemma EmptyKeyNoWords(k: string)
    requires k == ""
    ensures WordSet(k) == {}
  {
    assert Lower(k) == "";
    assert Split(Lower(k)) == [];
  }

  lemma JaccardBounds(w1: set<string>, w2: set<string>)
    requires w1 != {} && w2 != {}
    ensures 0.0 <= (|w1 * w2| as real) / (|w1 + w2| as real) <= 1.0
    ensures (|w1 * w2| as real) / (|w1 + w2| as real) == 1.0 <==> w1 == w2
  {
    CardinalityBounds(w1, w2);
    var x :| x in w1;
    assert x in w1 + w2;
    var i := |w1 * w2| as real;
    var u := |w1 + w2| as real;
    assert u > 0.0;
    if i / u == 1.0 {
      assert i == u;
    }
    if w1 == w2 {
      assert w1 * w2 == w1 + w2;
    }
  }

  /** The similarity is symmetric, lies in [0, 1], is 0 when either key has
      no words, and is 1 exactly when both keys have the same non-empty set
      of words. */
  lemma SimilaritySpec(k1: string, k2: string)
    ensures Similarity(k1, k2) == Similarity(k2, k1)
    ensures 0.0 <= Similarity(k1, k2) <= 1.0
    ensures WordSet(k1) == {} || WordSet(k2) == {} ==> Similarity(k1, k2) == 0.0
    ensures Similarity(k1, k2) == 1.0 <==> WordSet(k1) != {} && WordSet(k1) == WordSet(k2)
  {
    if k1 == "" {
      EmptyKeyNoWords(k1);
    }
    if k2 == "" {
      EmptyKeyNoWords(k2);
    }
    var w1 := WordSet(k1);
    var w2 := WordSet(k2);
    assert w1 * w2 == w2 * w1 && w1 + w2 == w2 + w1;
    if w1 != {} && w2 != {} {
      JaccardBounds(w1, w2);
    }
  }

  // ------------------------------------------------------------- conflicts

  /** A logged conflict: an external item whose key a built-in item already
      has, or fields that differ between an added external item and a
      similar built-in item. */
  datatype Conflict =
    | Duplicate(dataType: string, key: string, builtinSource: string, externalSource: string)
    | FieldConflict(dataType: string, externalKey: string, builtinKey: string, fields: seq<string>, similarity: real)

  /** `item.get('_source', default)` */
  function Source(item: Item, default: string): string {
    if item.meta.Some? then item.meta.value.source else default
  }

  /** The fields of `ext` (in its order) that `b` also has, that are not
      metadata, and whose values differ. */
  function ConflictingFields(ext: Table, b: Table): (fs: seq<string>)
    ensures forall f :: f in fs ==>
      && !StartsWith(f, "_") && Has(b, f)
      && exists i :: 0 <= i < |ext| && ext[i].0 == f && ext[i].1 != Get(b, f).value
    decreases |ext|
  {
    if ext == [] then []
    else
      var (f, v) := ext[|ext| - 1];
      var prev := ConflictingFields(ext[..|ext| - 1], b);
      var g := Get(b, f);
      prev + (if g.Some? && !StartsWith(f, "_") && v != g.value then [f] else [])
  }

  /** `_detect_field_conflicts` over the first `|builtins|` built-in items. */
  function FieldConflicts(ext: Item, builtins: seq<Item>, dataType: string): seq<Conflict>
    decreases |builtins|
  {
    if builtins == [] then []
    else
      var b := builtins[|builtins| - 1];
      var prev := FieldConflicts(ext, builtins[..|builtins| - 1], dataType);
      var extKey := ItemKey(ext);
      var bKey := ItemKey(b);
      var s := Similarity(extKey, bKey);
      var fs := ConflictingFields(ext.fields, b.fields);
      prev + (if s > 0.7 && fs != [] then [FieldConflict(dataType, extKey, bKey, fs, s)] else [])
  }

  lemma FieldConflictsStep(ext: Item, builtins: seq<Item>, dataType: string, i: nat)
    requires i < |builtins|
    ensures var b := builtins[i];
      var s := Similarity(ItemKey(ext), ItemKey(b));
      var fs := ConflictingFields(ext.fields, b.fields);
      FieldConflicts(ext, builtins[..i + 1], dataType) == FieldConflicts(ext, builtins[..i], dataType)
        + (if s > 0.7 && fs != [] then [FieldConflict(dataType, ItemKey(ext), ItemKey(b), fs, s)] else [])
  {
    assert builtins[..i + 1][..i] == builtins[..i];
  }

  /** Every field conflict reported for `ext` names a built-in item whose key
      is more than 70% similar to the external key and whose fields differ
      from the external item's, and lists those fields. */
  lemma {:induction false} FieldConflictsSpec(ext: Item, builtins: seq<Item>, dataType: string)
    ensures forall c :: c in FieldConflicts(ext, builtins, dataType) ==>
      && c.FieldConflict? && c.dataType == dataType && c.externalKey == ItemKey(ext)
      && c.similarity > 0.7 && c.fields != []
      && exists b :: b in builtins && c.builtinKey == ItemKey(b)
           && c.similarity == Similarity(ItemKey(ext), ItemKey(b))
           && c.fields == ConflictingFields(ext.fields, b.fields)
    decreases |builtins|
  {
    if builtins != [] {
      var init := builtins[..|builtins| - 1];
      var last := builtins[|builtins| - 1];
      FieldConflictsSpec(ext, init, dataType);
      forall c | c in FieldConflicts(ext, builtins, dataType)
        ensures exists b ::
          b in builtins && c.builtinKey == ItemKey(b)
          && c.similarity == Similarity(ItemKey(ext), ItemKey(b))
          && c.fields == ConflictingFields(ext.fields, b.fields)
      {
        if c in FieldConflicts(ext, init, dataType) {
          var b :| b in init && c.builtinKey == ItemKey(b)
            && c.similarity == Similarity(ItemKey(ext), ItemKey(b))
            && c.fields == ConflictingFields(ext.fields, b.fields);
          assert b in builtins;
        } else {
          assert last in builtins;
        }
      }
    }
  }

  // ------------------------------------------------------------------ merge

  /** The keys of the items. */
  function Keys(items: seq<Item>): set<string> {
    set item | item in items :: ItemKey(item)
  }

  /** The first item with the given key. */
  function FirstWithKey(items: seq<Item>, key: string): (r: Item)
    requires key in Keys(items)
    ensures r in items && ItemKey(r) == key
  {
    if ItemKey(items[0]) == key then items[0]
    else
      assert key in Keys(items[1..]) by {
        var item :| item in items && ItemKey(item) == key;
        assert item != items[0];
        assert item in items[1..];
      }
      FirstWithKey(items[1..], key)
  }

  /** `_merge_with_conflict_resolution` after the first `|externals|` external items. */
  function Merged(builtins: seq<Item>, externals: seq<Item>, dataType: string): (seq<Item>, seq<Conflict>)
    decreases |externals|
  {
    if externals == [] then (builtins, [])
    else
      var prev := Merged(builtins, externals[..|externals| - 1], dataType);
      var e := externals[|externals| - 1];
      var k := ItemKey(e);
      if k in Keys(builtins) then
        (prev.0, prev.1 + [Duplicate(dataType, k, Source(FirstWithKey(builtins, k), "built-in"), Source(e, "external"))])
      else (prev.0 + [e], prev.1 + FieldConflicts(e, builtins, dataType))
  }

  /** The external items whose key no built-in item has, in order. */
  function NewItems(builtins: seq<Item>, externals: seq<Item>): (r: seq<Item>)
    ensures |r| <= |externals|
    decreases |externals|
  {
    if externals == [] then []
    else
      var e := externals[|externals| - 1];
      NewItems(builtins, externals[..|externals| - 1]) + (if ItemKey(e) in Keys(builtins) then [] else [e])
  }

  /** The keys of the external items a built-in item shadows, in order. */
  function CollidingKeys(builtins: seq<Item>, externals: seq<Item>): seq<string>
    decreases |externals|
  {
    if externals == [] then []
    else
      var e := externals[|externals| - 1];
      CollidingKeys(builtins, externals[..|externals| - 1]) + (if ItemKey(e) in Keys(builtins) then [ItemKey(e)] else [])
  }

  /** The keys of the `duplicate` entries, in order. */
  function DuplicateKeys(cs: seq<Conflict>): seq<string>
    decreases |cs|
  {
    if cs == [] then []
    else DuplicateKeys(cs[..|cs| - 1]) + (if cs[|cs| - 1].Duplicate? then [cs[|cs| - 1].key] else [])
  }

  lemma {:induction false} DuplicateKeysAppend(a: seq<Conflict>, b: seq<Conflict>)
    ensures DuplicateKeys(a + b) == DuplicateKeys(a) + DuplicateKeys(b)
    decreases |b|
  {
    if b == [] {
      assert a + b == a;
    } else {
      var init := b[..|b| - 1];
      var last := b[|b| - 1];
      DuplicateKeysAppend(a, init);
      assert (a + b)[..|a + b| - 1] == a + init;
      assert (a + b)[|a + b| - 1] == last;
      var tail := if last.Duplicate? then [last.key] else [];
      assert DuplicateKeys(a + b) == DuplicateKeys(a + init) + tail;
      assert DuplicateKeys(b) == DuplicateKeys(init) + tail;
    }
  }

  lemma {:induction false} NoDuplicateKeys(cs: seq<Conflict>)
    requires forall c :: c in cs ==> c.FieldConflict?
    ensures DuplicateKeys(cs) == []
    decreases |cs|
  {
    if cs != [] {
      assert forall c :: c in cs[..|cs| - 1] ==> c in cs;
      NoDuplicateKeys(cs[..|cs| - 1]);
      assert cs[|cs| - 1] in cs;
    }
  }

  /** The merge keeps every built-in item, in order, then adds the external
      items whose key is not a built-in key, in order, unchanged. */
  lemma {:induction false} MergedItems(builtins: seq<Item>, externals: seq<Item>, dataType: string)
    ensures Merged(builtins, externals, dataType).0 == builtins + NewItems(builtins, externals)
    decreases |externals|
  {
    if externals != [] {
      var init := externals[..|externals| - 1];
      var e := externals[|externals| - 1];
      MergedItems(builtins, init, dataType);
      var added: seq<Item> := if ItemKey(e) in Keys(builtins) then [] else [e];
      assert Merged(builtins, externals, dataType).0 == Merged(builtins, init, dataType).0 + added;
      assert NewItems(builtins, externals) == NewItems(builtins, init) + added;
      assert builtins + NewItems(builtins, init) + added == builtins + (NewItems(builtins, init) + added);
    }
  }

  /** Each external item the merge drops yields exactly one `duplicate`
      entry, in order; every other entry is a field conflict. */
  lemma {:induction false} MergedDuplicates(builtins: seq<Item>, externals: seq<Item>, dataType: string)
    ensures DuplicateKeys(Merged(builtins, externals, dataType).1) == CollidingKeys(builtins, externals)
    decreases |externals|
  {
    if externals != [] {
      var init := externals[..|externals| - 1];
      var e := externals[|externals| - 1];
      MergedDuplicates(builtins, init, dataType);
      var prev := Merged(builtins, init, dataType);
      var k := ItemKey(e);
      if k in Keys(builtins) {
        var d := Duplicate(dataType, k, Source(FirstWithKey(builtins, k), "built-in"), Source(e, "external"));
        DuplicateKeysAppend(prev.1, [d]);
        assert DuplicateKeys([d]) == [k] by {
          assert [d][..0] == [];
        }
      } else {
        var fc := FieldConflicts(e, builtins, dataType);
        FieldConflictsSpec(e, builtins, dataType);
        DuplicateKeysAppend(prev.1, fc);
        NoDuplicateKeys(fc);
        assert prev.1 + fc == Merged(builtins, externals, dataType).1;
      }
    }
  }

  /** Every external item is either added or counted as a duplicate. */
  lemma {:induction false} AddedPlusColliding(builtins: seq<Item>, externals: seq<Item>)
    ensures |NewItems(builtins, externals)| + |CollidingKeys(builtins, externals)| == |externals|
    decreases |externals|
  {
    if externals != [] {
      AddedPlusColliding(builtins, externals[..|externals| - 1]);
    }
  }

  /** Every external item is either added or shadowed by a built-in key. */
  lemma {:induction false} AddedOrShadowed(builtins: seq<Item>, externals: seq<Item>)
    ensures forall e :: e in externals ==> e in NewItems(builtins, externals) || ItemKey(e) in Keys(builtins)
    decreases |externals|
  {
    if externals != [] {
      var init := externals[..|externals| - 1];
      AddedOrShadowed(builtins, init);
      assert forall e :: e in externals ==> e in init || e == externals[|externals| - 1];
    }
  }

  lemma {:induction false} AllShadowed(builtins: seq<Item>, externals: seq<Item>)
    requires forall e :: e in externals ==> ItemKey(e) in Keys(builtins)
    ensures NewItems(builtins, externals) == []
    decreases |externals|
  {
    if externals != [] {
      var init := externals[..|externals| - 1];
      assert forall e :: e in init ==> e in externals;
      AllShadowed(builtins, init);
      assert externals[|externals| - 1] in externals;
    }
  }

  /** Merging the result again with the same external items adds nothing. */
  lemma MergeAgain(builtins: seq<Item>, externals: seq<Item>, dataType: string)
    ensures var merged := Merged(builtins, externals, dataType).0;
      Merged(merged, externals, dataType).0 == merged
  {
    MergedItems(builtins, externals, dataType);
    var merged := Merged(builtins, externals, dataType).0;
    AddedOrShadowed(builtins, externals);
    forall e | e in externals
      ensures ItemKey(e) in Keys(merged)
    {
      if e in NewItems(builtins, externals) {
        assert e in merged;
      } else {
        var b :| b in builtins && ItemKey(b) == ItemKey(e);
        assert b in merged;
      }
    }
    AllShadowed(merged, externals);
    MergedItems(merged, externals, dataType);
    assert merged + [] == merged;
  }

  // ------------------------------------------------------------------ methods

  /** The `next(...)` search for the built-in item an external key collides with. */
  method FindFirstWithKey(items: seq<Item>, key: string) returns (r: Item)
    requires key in Keys(items)
    ensures r == FirstWithKey(items, key)
  {
    var i := 0;
    while ItemKey(items[i]) != key
      invariant 0 <= i < |items|
      invariant key in Keys(items[i..])
      invariant FirstWithKey(items[i..], key) == FirstWithKey(items, key)
      decreases |items| - i
    {
      assert items[i..][1..] == items[i + 1..];
      i := i + 1;
    }
    r := items[i];
  }

  /** The field comparison loop of `_detect_field_conflicts`. */
  method FindConflictingFields(ext: Table, b: Table) returns (fs: seq<string>)
    ensures fs == ConflictingFields(ext, b)
  {
    fs := [];
    var i := 0;
    while i < |ext|
      invariant 0 <= i <= |ext|
      invariant fs == ConflictingFields(ext[..i], b)
    {
      var (f, v) := ext[i];
      assert ext[..i + 1][..i] == ext[..i];
      var g := Get(b, f);
      if g.Some? && !StartsWith(f, "_") && v != g.value {
        fs := fs + [f];
      }
      i := i + 1;
    }
    assert ext[..i] == ext;
  }

  /** `_detect_field_conflicts` */
  method DetectFieldConflicts(ext: Item, builtins: seq<Item>, dataType: string) returns (cs: seq<Conflict>)
    ensures cs == FieldConflicts(ext, builtins, dataType)
  {
    cs := [];
    var extKey := ItemKey(ext);
    var i := 0;
    while i < |builtins|
      invariant 0 <= i <= |builtins|
      invariant cs == FieldConflicts(ext, builtins[..i], dataType)
    {
      var b := builtins[i];
      FieldConflictsStep(ext, builtins, dataType, i);
      var bKey := ItemKey(b);
      var s := Similarity(extKey, bKey);
      if s > 0.7 {
        var fs := FindConflictingFields(ext.fields, b.fields);
        if fs != [] {
          cs := cs + [FieldConflict(dataType, extKey, bKey, fs, s)];
        }
      }
      i := i + 1;
    }
    assert builtins[..i] == builtins;
  }

  /** The index loop of `_merge_with_conflict_resolution`. */
  method BuiltinKeys(builtins: seq<Item>) returns (keys: set<string>)
    ensures keys == Keys(builtins)
  {
    keys := {};
    var i := 0;
    while i < |builtins|
      invariant 0 <= i <= |builtins|
      invariant keys == Keys(builtins[..i])
    {
      assert builtins[..i + 1] == builtins[..i] + [builtins[i]];
      keys := keys + {ItemKey(builtins[i])};
      i := i + 1;
    }
    assert builtins[..i] == builtins;
  }

  /** `_merge_with_conflict_resolution` */
  method MergeWithConflictResolution(builtins: seq<Item>, externals: seq<Item>, dataType: string)
    returns (merged: seq<Item>, conflicts: seq<Conflict>)
    ensures (merged, conflicts) == Merged(builtins, externals, dataType)
  {
    merged := builtins;
    conflicts := [];
    var keys := BuiltinKeys(builtins);
    var i := 0;
    while i < |externals|
      invariant 0 <= i <= |externals|
      invariant (merged, conflicts) == Merged(builtins, externals[..i], dataType)
    {
      var e := externals[i];
      assert externals[..i + 1][..i] == externals[..i];
      var k := ItemKey(e);
      if k in keys {
        var b := FindFirstWithKey(builtins, k);
        conflicts := conflicts + [Duplicate(dataType, k, Source(b, "built-in"), Source(e, "external"))];
      } else {
        merged := merged + [e];
        var similar := DetectFieldConflicts(e, builtins, dataType);
        conflicts := conflicts + similar;
      }
      i := i + 1;
    }
    assert externals[..i] == externals;
  }

  // --------------------------------------------------------------- statistics

  /** The `statistics` of `merge_with_builtin`. */
  datatype Statistics = Statistics(
    builtinEntries: nat,
    externalEntries: nat,
    totalEntries: nat,
    conflictsResolved: nat,
    duplicatesFound: nat)

  /** `sum(1 for c in conflicts if c["type"] == "duplicate")` */
  function DuplicateCount(cs: seq<Conflict>): nat
    decreases |cs|
  {
    if cs == [] then 0
    else DuplicateCount(cs[..|cs| - 1]) + (if cs[|cs| - 1].Duplicate? then 1 else 0)
  }

  lemma {:induction false} DuplicateCountKeys(cs: seq<Conflict>)
    ensures DuplicateCount(cs) == |DuplicateKeys(cs)|
    decreases |cs|
  {
    if cs != [] {
      DuplicateCountKeys(cs[..|cs| - 1]);
    }
  }

  function Stats(builtinDomains: seq<Item>, builtinStacks: seq<Item>, externalDomains: seq<Item>,
                 externalStacks: seq<Item>, domains: seq<Item>, stacks: seq<Item>, conflicts: seq<Conflict>): Statistics
  {
    Statistics(|builtinDomains| + |builtinStacks|, |externalDomains| + |externalStacks|,
               |domains| + |stacks|, |conflicts|, DuplicateCount(conflicts))
  }

  /** With the domain and stack merges of `merge_with_builtin`, the total is
      the built-in count plus the external count minus the duplicates, and
      every conflict counts as resolved. */
  lemma StatsSpec(builtinDomains: seq<Item>, builtinStacks: seq<Item>, externalDomains: seq<Item>, externalStacks: seq<Item>)
    ensures var d := Merged(builtinDomains, externalDomains, "domains");
      var s := Merged(builtinStacks, externalStacks, "stacks");
      var st := Stats(builtinDomains, builtinStacks, externalDomains, externalStacks, d.0, s.0, d.1 + s.1);
      && st.totalEntries + st.duplicatesFound == st.builtinEntries + st.externalEntries
      && st.conflictsResolved == |d.1| + |s.1|
  {
    var d := Merged(builtinDomains, externalDomains, "domains");
    var s := Merged(builtinStacks, externalStacks, "stacks");
    MergedDuplicates(builtinDomains, externalDomains, "domains");
    MergedDuplicates(builtinStacks, externalStacks, "stacks");
    AddedPlusColliding(builtinDomains, externalDomains);
    AddedPlusColliding(builtinStacks, externalStacks);
    MergedItems(builtinDomains, externalDomains, "domains");
    MergedItems(builtinStacks, externalStacks, "stacks");
    DuplicateKeysAppend(d.1, s.1);
    DuplicateCountKeys(d.1 + s.1);
  }
}
