/** TOML tables and the right-biased deep merge of crates/pacode-config/src/lib.rs. */
module Toml {
  import opened Common

  /** A TOML value is either a sub-table or anything else, which merging treats as atomic. */
  datatype Value = Leaf(text: string) | Section(entries: Table)

  type Table = map<string, Value>

  function Get(t: Table, key: string): Option<Value> {
    if key in t then Some(t[key]) else None
  }

  /** Two sub-tables merge key by key; on any other pair the overlay wins. */
  function MergeValue(base: Value, overlay: Value): Value
    decreases overlay
  {
    if base.Section? && overlay.Section? then
      Section(map k | k in base.entries.Keys + overlay.entries.Keys ::
        if k !in overlay.entries then base.entries[k]
        else if k !in base.entries then overlay.entries[k]
        else MergeValue(base.entries[k], overlay.entries[k]))
    else
      overlay
  }

  function Merge(base: Table, overlay: Table): Table {
    MergeValue(Section(base), Section(overlay)).entries
  }

  /** Merge of two entries that may each be absent. */
  function MergeEntry(base: Option<Value>, overlay: Option<Value>): Option<Value> {
    if overlay.None? then base
    else if base.None? then overlay
    else Some(MergeValue(base.value, overlay.value))
  }

  /** Looking a key up in a merge merges the two lookups. */
  lemma {:induction false} MergeGet(base: Table, overlay: Table, key: string)
    ensures Get(Merge(base, overlay), key) == MergeEntry(Get(base, key), Get(overlay, key))
  {
  }

  /** Tables are determined by their lookups. */
  lemma {:induction false} TableExtensionality(a: Table, b: Table)
    requires forall k :: Get(a, k) == Get(b, k)
    ensures a == b
  {
    forall k ensures (k in a <==> k in b) && (k in a ==> a[k] == b[k]) {
      assert Get(a, k) == Get(b, k);
    }
    assert a.Keys == b.Keys;
  }

  lemma {:induction false} MergeIdempotent(v: Value)
    ensures MergeValue(v, v) == v
  {
    if v.Section? {
      var m := MergeValue(v, v).entries;
      forall k | k in v.entries ensures m[k] == v.entries[k] {
        MergeIdempotent(v.entries[k]);
      }
      assert m.Keys == v.entries.Keys;
      assert m == v.entries;
    }
  }

  /** Absorption: overlaying a merge on one of its own bases adds nothing. */
  lemma {:induction false} MergeAbsorbs(base: Value, overlay: Value)
    ensures MergeValue(base, MergeValue(base, overlay)) == MergeValue(base, overlay)
    decreases overlay
  {
    if base.Section? && overlay.Section? {
      var once := MergeValue(base, overlay).entries;
      var twice := MergeValue(base, Section(once)).entries;
      forall k | k in once ensures twice[k] == once[k] {
        if k in base.entries && k in overlay.entries {
          MergeAbsorbs(base.entries[k], overlay.entries[k]);
        } else if k in base.entries {
          MergeIdempotent(base.entries[k]);
        }
      }
      assert twice.Keys == once.Keys;
      assert twice == once;
    }
  }

  /** The value at a path of keys. */
  function At(v: Value, path: seq<string>): Option<Value>
    decreases |path|
  {
    if path == [] then Some(v)
    else if v.Section? && path[0] in v.entries then At(v.entries[path[0]], path[1..])
    else None
  }

  /** The value says nothing about the path: the tables along it end before it does. */
  predicate Silent(v: Value, path: seq<string>)
    decreases |path|
  {
    path != [] && v.Section? && (path[0] in v.entries ==> Silent(v.entries[path[0]], path[1..]))
  }

  lemma {:induction false} SilentHasNothing(v: Value, path: seq<string>)
    requires Silent(v, path)
    ensures At(v, path).None?
    decreases |path|
  {
    if path[0] in v.entries { SilentHasNothing(v.entries[path[0]], path[1..]); }
  }

  /** At every path the overlay wins where it holds a plain value, and the base shows through where the
      overlay is silent. */
  lemma {:induction false} OverlayWins(base: Value, overlay: Value, path: seq<string>)
    ensures var shown := At(overlay, path);
      shown.Some? && shown.value.Leaf? ==> At(MergeValue(base, overlay), path) == shown
    ensures Silent(overlay, path) ==> At(MergeValue(base, overlay), path) == At(base, path)
    decreases |path|
  {
    if Silent(overlay, path) { SilentHasNothing(overlay, path); }
    if path != [] && base.Section? && overlay.Section? {
      var k := path[0];
      if k in base.entries && k in overlay.entries { OverlayWins(base.entries[k], overlay.entries[k], path[1..]); }
    }
  }

  /** Merging in place: every overlay entry is folded into the base, in any order. */
  method DeepMerge(base: Table, overlay: Table) returns (merged: Table)
    ensures merged == Merge(base, overlay)
    decreases Section(overlay)
  {
    merged := base;
    var todo := overlay.Keys;
    while todo != {}
      invariant todo <= overlay.Keys
      invariant forall k :: k !in todo ==> Get(merged, k) == MergeEntry(Get(base, k), Get(overlay, k))
      invariant forall k :: k in todo ==> Get(merged, k) == Get(base, k)
      decreases |todo|
    {
      var key :| key in todo;
      var value := MergeInto(Get(merged, key), overlay, key);
      merged := merged[key := value];
      todo := todo - {key};
    }
    forall k ensures Get(merged, k) == Get(Merge(base, overlay), k) {
      MergeGet(base, overlay, k);
    }
    TableExtensionality(merged, Merge(base, overlay));
  }

  /** The loop body of `DeepMerge`: recurse when both sides are tables, else overwrite. */
  method MergeInto(current: Option<Value>, overlay: Table, key: string) returns (value: Value)
    requires key in overlay
    ensures Some(value) == MergeEntry(current, Get(overlay, key))
    decreases Section(overlay), 0
  {
    if current.Some? && current.value.Section? && overlay[key].Section? {
      var inner := DeepMerge(current.value.entries, overlay[key].entries);
      value := Section(inner);
    } else {
      value := overlay[key];
    }
  }
}
