/** The config-split migration of crates/pacode-config/src/lib.rs and its crash points. */
module Migration {
  import opened Common
  import opened Toml

  /** What `read_table` sees: no file, a file that does not parse, or a table. */
  datatype File = Missing | Corrupt | Holds(table: Table)

  /** The config directory. The marker asks the TUI to announce the migration once. */
  datatype Disk = Disk(config: File, providers: File, keybindings: File, backup: File, marker: bool)

  /** The disk after each write of one migration, and whether it returned Ok. */
  datatype Run = Run(states: seq<Disk>, ok: bool)

  const SECTIONS: seq<string> := ["providers", "keys"]

  function Sibling(d: Disk, i: nat): File
    requires i < 2
  {
    if i == 0 then d.providers else d.keybindings
  }

  function SetSibling(d: Disk, i: nat, f: File): Disk
    requires i < 2
  {
    if i == 0 then d.(providers := f) else d.(keybindings := f)
  }

  /** A missing file reads as an empty table. */
  function Contents(f: File): Table
    requires !f.Corrupt?
  {
    if f.Holds? then f.table else map[]
  }

  predicate Readable(d: Disk) {
    !d.config.Corrupt? && !d.providers.Corrupt? && !d.keybindings.Corrupt?
  }

  /** The table `load_from_path` deserializes: config, then providers, then keybindings. */
  function Effective(d: Disk): Option<Table> {
    if !Readable(d) then None
    else Some(Merge(Merge(Contents(d.config), Contents(d.providers)), Contents(d.keybindings)))
  }

  /** The sibling table once the legacy section has been merged in underneath. */
  function Moved(target: Table, section: string, legacy: Value): Table {
    target[section := MergeEntry(Some(legacy), Get(target, section)).value]
  }

  function MoveSections(d: Disk, table: Table, i: nat): Run
    requires i <= 2
    decreases 2 - i
  {
    if i == 2 then
      var written := d.(config := Holds(table));
      Run([written, written.(marker := true)], true)
    else if SECTIONS[i] !in table then
      MoveSections(d, table, i + 1)
    else if Sibling(d, i).Corrupt? then
      Run([], false)
    else
      var moved := Moved(Contents(Sibling(d, i)), SECTIONS[i], table[SECTIONS[i]]);
      var d1 := SetSibling(d, i, Holds(moved));
      var rest := MoveSections(d1, table - {SECTIONS[i]}, i + 1);
      Run([d1] + rest.states, rest.ok)
  }

  function BackedUp(d: Disk): Disk {
    if d.backup.Missing? then d.(backup := d.config) else d
  }

  predicate Legacy(d: Disk) {
    d.config.Holds? && ("providers" in d.config.table || "keys" in d.config.table)
  }

  /** Every disk state one migration writes, in order. */
  function Migrate(d: Disk): Run {
    if !Legacy(d) then
      Run([], !d.config.Corrupt?)
    else
      var saved := BackedUp(d);
      var rest := MoveSections(saved, d.config.table, 0);
      Run((if saved == d then [] else [saved]) + rest.states, rest.ok)
  }

  function Last(d: Disk, states: seq<Disk>): Disk {
    if states == [] then d else states[|states| - 1]
  }

  /** The three config files and the backup; the toast marker is not part of the configuration. */
  predicate SameFiles(a: Disk, b: Disk) {
    a.config == b.config && a.providers == b.providers && a.keybindings == b.keybindings && a.backup == b.backup
  }

  // --- When moving `keys` under keybindings.toml reorders nothing that matters ---

  /** Whether `a` (config.toml) may move over `b` (providers.toml) given `d` (keybindings.toml):
      the two agree wherever keybindings.toml does not already decide. */
  ghost predicate KeysAgree(a: Value, b: Value, d: Option<Value>)
    decreases a
  {
    if d.Some? && d.value.Leaf? then true
    else if a.Section? && b.Section? then
      forall k | k in a.entries && k in b.entries ::
        KeysAgree(a.entries[k], b.entries[k], if d.Some? then Get(d.value.entries, k) else None)
    else if d.None? then a == b
    else a.Leaf? || MergeValue(a, d.value) == d.value
  }

  /** Checked on the files before migrating. */
  ghost predicate MigrationSafe(d: Disk) {
    Legacy(d) && Readable(d) && "keys" in d.config.table && "keys" in Contents(d.providers) ==>
      KeysAgree(d.config.table["keys"], Contents(d.providers)["keys"], Get(Contents(d.keybindings), "keys"))
  }

  ghost predicate Commutes(a: Value, b: Value, d: Option<Value>) {
    MergeEntry(Some(b), MergeEntry(Some(a), d)) == MergeEntry(Some(MergeValue(a, b)), d)
  }

  function SubEntry(d: Option<Value>, k: string): Option<Value>
    requires d.Some? ==> d.value.Section?
  {
    if d.Some? then Get(d.value.entries, k) else None
  }

  /** For three tables, commuting is decided key by key on the keys the first two share. */
  lemma {:induction false} CommutesByKey(a: Value, b: Value, d: Option<Value>)
    requires a.Section? && b.Section? && (d.Some? ==> d.value.Section?)
    ensures Commutes(a, b, d) <==>
      forall k | k in a.entries && k in b.entries :: Commutes(a.entries[k], b.entries[k], SubEntry(d, k))
  {
    var l := MergeEntry(Some(b), MergeEntry(Some(a), d)).value.entries;
    var r := MergeEntry(Some(MergeValue(a, b)), d).value.entries;
    forall k
      ensures Get(l, k) == MergeEntry(Get(b.entries, k), MergeEntry(Get(a.entries, k), SubEntry(d, k)))
      ensures Get(r, k) == MergeEntry(MergeEntry(Get(a.entries, k), Get(b.entries, k)), SubEntry(d, k))
    {
    }
    if forall k | k in a.entries && k in b.entries :: Commutes(a.entries[k], b.entries[k], SubEntry(d, k)) {
      forall k ensures Get(l, k) == Get(r, k) {
        if k in a.entries && k in b.entries {
          assert Commutes(a.entries[k], b.entries[k], SubEntry(d, k));
        }
      }
      TableExtensionality(l, r);
    }
    if Commutes(a, b, d) {
      forall k | k in a.entries && k in b.entries ensures Commutes(a.entries[k], b.entries[k], SubEntry(d, k)) {
        assert Get(l, k) == Get(r, k);
      }
    }
  }

  /** The condition on the files is exactly when the merge order does not matter. */
  lemma {:induction false} KeysAgreeIffCommutes(a: Value, b: Value, d: Option<Value>)
    ensures KeysAgree(a, b, d) <==> Commutes(a, b, d)
    decreases a
  {
    if !(d.Some? && d.value.Leaf?) && a.Section? && b.Section? {
      CommutesByKey(a, b, d);
      forall k | k in a.entries && k in b.entries
        ensures KeysAgree(a.entries[k], b.entries[k], SubEntry(d, k))
           <==> Commutes(a.entries[k], b.entries[k], SubEntry(d, k))
      {
        KeysAgreeIffCommutes(a.entries[k], b.entries[k], SubEntry(d, k));
      }
    }
  }

  /** While both copies of the moved section exist, the extra copy is invisible. */
  lemma {:induction false} AgreeingCopyIsInvisible(a: Value, b: Value, d: Option<Value>)
    requires KeysAgree(a, b, d)
    ensures MergeEntry(Some(MergeValue(a, b)), MergeEntry(Some(a), d)) == MergeEntry(Some(MergeValue(a, b)), d)
    decreases a
  {
    if d.None? && !(a.Section? && b.Section?) {
      MergeIdempotent(a);
    } else if !(d.Some? && d.value.Leaf?) && a.Section? && b.Section? {
      var ab := MergeValue(a, b);
      var l := MergeEntry(Some(ab), MergeEntry(Some(a), d)).value.entries;
      var r := MergeEntry(Some(ab), d).value.entries;
      forall k ensures Get(l, k) == Get(r, k) {
        var ak, bk, dk := Get(a.entries, k), Get(b.entries, k), SubEntry(d, k);
        assert Get(l, k) == MergeEntry(MergeEntry(ak, bk), MergeEntry(ak, dk));
        assert Get(r, k) == MergeEntry(MergeEntry(ak, bk), dk);
        if ak.Some? && bk.Some? {
          AgreeingCopyIsInvisible(ak.value, bk.value, dk);
        } else if ak.Some? {
          EntryAbsorbs(ak, dk);
        }
      }
      TableExtensionality(l, r);
    }
  }

  lemma {:induction false} EntryAbsorbs(base: Option<Value>, overlay: Option<Value>)
    ensures MergeEntry(base, MergeEntry(base, overlay)) == MergeEntry(base, overlay)
  {
    if base.Some? {
      MergeIdempotent(base.value);
      if overlay.Some? { MergeAbsorbs(base.value, overlay.value); }
    }
  }

  // --- One key of the effective table, before and after each write ---

  function EntryOf(d: Disk, k: string): Option<Value>
    requires Readable(d)
  {
    MergeEntry(MergeEntry(Get(Contents(d.config), k), Get(Contents(d.providers), k)), Get(Contents(d.keybindings), k))
  }

  lemma {:induction false} EffectiveByKey(d: Disk, e: Disk)
    requires Readable(d) && Readable(e)
    ensures Effective(d) == Effective(e) <==> forall k :: EntryOf(d, k) == EntryOf(e, k)
  {
    var td, te := Effective(d).value, Effective(e).value;
    forall k ensures Get(td, k) == EntryOf(d, k) && Get(te, k) == EntryOf(e, k) {
      MergeGet(Contents(d.config), Contents(d.providers), k);
      MergeGet(Merge(Contents(d.config), Contents(d.providers)), Contents(d.keybindings), k);
      MergeGet(Contents(e.config), Contents(e.providers), k);
      MergeGet(Merge(Contents(e.config), Contents(e.providers)), Contents(e.keybindings), k);
    }
    if forall k :: EntryOf(d, k) == EntryOf(e, k) {
      forall k ensures Get(td, k) == Get(te, k) {
        assert EntryOf(d, k) == EntryOf(e, k);
      }
      TableExtensionality(td, te);
    }
    if Effective(d) == Effective(e) {
      forall k ensures EntryOf(d, k) == EntryOf(e, k) {
        assert Get(td, k) == Get(te, k);
      }
    }
  }

  /** How a migration in progress may differ from the disk it started from: the siblings of the
      first `i` sections hold them, and config.toml is rewritten only last. */
  ghost predicate Reached(d: Disk, e: Disk, i: nat, done: bool)
    requires Legacy(d) && Readable(d)
  {
    && Readable(e) && i <= 2
    && Contents(e.providers) == AfterMove(d.config.table, Contents(d.providers), "providers", i > 0)
    && Contents(e.keybindings) == AfterMove(d.config.table, Contents(d.keybindings), "keys", i > 1)
    && (if done then i == 2 && e.config == Holds(Stripped(d.config.table, 2)) else e.config == d.config)
  }

  function AfterMove(config: Table, sibling: Table, section: string, moved: bool): Table {
    if moved && section in config then Moved(sibling, section, config[section]) else sibling
  }

  /** config.toml without its first `i` migrated sections. */
  function Stripped(table: Table, i: nat): Table {
    if i == 0 then table else if i == 1 then table - {"providers"} else table - {"providers"} - {"keys"}
  }

  lemma {:induction false} ReachedIsHarmless(d: Disk, e: Disk, i: nat, done: bool)
    requires Legacy(d) && Readable(d) && MigrationSafe(d) && Reached(d, e, i, done)
    ensures Effective(e) == Effective(d)
  {
    var c, p, q := d.config.table, Contents(d.providers), Contents(d.keybindings);
    forall k ensures EntryOf(e, k) == EntryOf(d, k) {
      EntryAbsorbs(Get(c, k), Get(p, k));
      EntryAbsorbs(Get(c, k), Get(q, k));
      if k == "keys" && k in c && k in p {
        AgreeingCopyIsInvisible(c[k], p[k], Get(q, k));
        KeysAgreeIffCommutes(c[k], p[k], Get(q, k));
      }
    }
    EffectiveByKey(d, e);
  }

  /** The final rewrite of config.toml is where a disagreement shows. */
  lemma {:induction false} UnsafeMigrationShows(d: Disk, e: Disk)
    requires Legacy(d) && Readable(d) && !MigrationSafe(d) && Reached(d, e, 2, true)
    ensures Effective(e) != Effective(d)
  {
    var k := "keys";
    var c, p, q := d.config.table, Contents(d.providers), Contents(d.keybindings);
    KeysAgreeIffCommutes(c[k], p[k], Get(q, k));
    assert EntryOf(e, k) == MergeEntry(Some(p[k]), MergeEntry(Some(c[k]), Get(q, k)));
    assert EntryOf(d, k) == MergeEntry(Some(MergeValue(c[k], p[k])), Get(q, k));
    EffectiveByKey(d, e);
  }

  // --- The states of a run ---

  ghost predicate Along(d: Disk, s: Disk)
    requires Legacy(d) && Readable(d)
  {
    exists i: nat, done: bool :: Reached(d, s, i, done)
  }

  lemma {:induction false} MoveSectionsReaches(d: Disk, e: Disk, i: nat)
    requires i <= 2 && Legacy(d) && Readable(d) && Reached(d, e, i, false)
    ensures var r := MoveSections(e, Stripped(d.config.table, i), i);
      && r.ok && |r.states| >= 2
      && (forall s :: s in r.states ==> Along(d, s))
      && Reached(d, Last(e, r.states), 2, true)
    decreases 2 - i
  {
    var table := Stripped(d.config.table, i);
    if i == 2 {
      var written := e.(config := Holds(table));
      assert Reached(d, written, 2, true);
      assert Reached(d, written.(marker := true), 2, true);
    } else {
      var name := SECTIONS[i];
      assert name == if i == 0 then "providers" else "keys";
      assert name in table <==> name in d.config.table;
      if name !in table {
        assert Stripped(d.config.table, i + 1) == table;
        assert Reached(d, e, i + 1, false);
        MoveSectionsReaches(d, e, i + 1);
      } else {
        var d1 := SetSibling(e, i, Holds(Moved(Contents(Sibling(e, i)), name, table[name])));
        assert Reached(d, d1, i + 1, false);
        assert table - {name} == Stripped(d.config.table, i + 1);
        MoveSectionsReaches(d, d1, i + 1);
      }
    }
  }

  lemma {:induction false} MigrateReaches(d: Disk)
    requires Legacy(d) && Readable(d)
    ensures Migrate(d).ok && Migrate(d).states != []
    ensures forall s :: s in Migrate(d).states ==> Along(d, s)
    ensures Reached(d, Last(d, Migrate(d).states), 2, true)
  {
    assert Reached(d, BackedUp(d), 0, false);
    MoveSectionsReaches(d, BackedUp(d), 0);
  }

  lemma {:induction false} MoveSectionsKeepsUnreadable(d: Disk, table: Table, i: nat, s: Disk)
    requires i <= 2 && !d.config.Corrupt? && !Readable(d) && s in MoveSections(d, table, i).states
    ensures !Readable(s)
    decreases 2 - i
  {
    if i < 2 {
      if SECTIONS[i] !in table {
        MoveSectionsKeepsUnreadable(d, table, i + 1, s);
      } else if !Sibling(d, i).Corrupt? {
        var moved := Moved(Contents(Sibling(d, i)), SECTIONS[i], table[SECTIONS[i]]);
        var d1 := SetSibling(d, i, Holds(moved));
        if s != d1 {
          MoveSectionsKeepsUnreadable(d1, table - {SECTIONS[i]}, i + 1, s);
        }
      }
    }
  }

  /** Crash safety: the effective configuration survives every prefix of the migration's writes
      exactly when the two copies of `keys` agree where keybindings.toml does not decide. */
  lemma {:induction false} CrashSafe(d: Disk)
    ensures (forall s :: s in Migrate(d).states ==> Effective(s) == Effective(d)) <==> MigrationSafe(d)
  {
    if Legacy(d) && Readable(d) {
      MigrateReaches(d);
      var last := Last(d, Migrate(d).states);
      assert last in Migrate(d).states;
      if MigrationSafe(d) {
        forall s | s in Migrate(d).states ensures Effective(s) == Effective(d) {
          var i: nat, done: bool :| Reached(d, s, i, done);
          ReachedIsHarmless(d, s, i, done);
        }
      } else {
        UnsafeMigrationShows(d, last);
      }
    } else if Legacy(d) {
      forall s | s in Migrate(d).states ensures Effective(s) == Effective(d) {
        if s != BackedUp(d) {
          MoveSectionsKeepsUnreadable(BackedUp(d), d.config.table, 0, s);
        }
      }
    }
  }

  /** The two files that cannot both be honoured: without keybindings.toml, a key bound
      differently in config.toml and providers.toml changes meaning. */
  lemma {:induction false} CrashUnsafeExample()
    ensures var c := map["keys" := Section(map["quit" := Leaf("q")])];
      var p := map["keys" := Section(map["quit" := Leaf("x")])];
      var d := Disk(Holds(c), Holds(p), Missing, Missing, false);
      !MigrationSafe(d) && exists s :: s in Migrate(d).states && Effective(s) != Effective(d)
  {
    var a, b := map["quit" := Leaf("q")], map["quit" := Leaf("x")];
    assert !KeysAgree(a["quit"], b["quit"], None);
    assert !KeysAgree(Section(a), Section(b), None);
    CrashSafe(Disk(Holds(map["keys" := Section(a)]), Holds(map["keys" := Section(b)]), Missing, Missing, false));
  }

  // --- Restarting after a crash ---

  /** Moving a section a second time into a sibling that already holds it changes nothing. */
  lemma {:induction false} MovedTwice(target: Table, section: string, legacy: Value)
    ensures Moved(Moved(target, section, legacy), section, legacy) == Moved(target, section, legacy)
  {
    EntryAbsorbs(Some(legacy), Get(target, section));
  }

  function Final(d: Disk, table: Table, i: nat): Disk
    requires i <= 2
  {
    Last(d, MoveSections(d, table, i).states)
  }

  /** What a state `s` written by the loop from section `i` on still has to reach. */
  ghost predicate Restarts(d: Disk, table: Table, i: nat, s: Disk)
    requires i <= 2
  {
    && s.backup == d.backup
    && (if s.config == d.config then SameFiles(Final(s, table, i), Final(d, table, i))
        else
          && SameFiles(s, Final(d, table, i)) && s.config.Holds?
          && forall j | i <= j < 2 :: SECTIONS[j] !in s.config.table)
  }

  /** Redoing the move of section `i` from a state that already holds it. */
  lemma {:induction false} RedoMove(d: Disk, table: Table, i: nat, s: Disk)
    requires i < 2 && SECTIONS[i] in table && !Sibling(d, i).Corrupt?
    requires Sibling(s, i) == Holds(Moved(Contents(Sibling(d, i)), SECTIONS[i], table[SECTIONS[i]]))
    ensures Final(s, table, i) == Final(s, table - {SECTIONS[i]}, i + 1)
  {
    MovedTwice(Contents(Sibling(d, i)), SECTIONS[i], table[SECTIONS[i]]);
    assert SetSibling(s, i, Sibling(s, i)) == s;
  }

  /** The loop never touches the siblings of sections it has passed. */
  lemma {:induction false} LoopKeepsPassed(d: Disk, table: Table, i: nat, s: Disk)
    requires i <= 2 && s in [d] + MoveSections(d, table, i).states
    ensures forall j | 0 <= j < i :: Sibling(s, j) == Sibling(d, j)
    ensures s.config != d.config ==> s.config.Holds? && s.config.table.Keys <= table.Keys
    decreases 2 - i
  {
    if i < 2 && s != d {
      if SECTIONS[i] !in table {
        LoopKeepsPassed(d, table, i + 1, s);
      } else if !Sibling(d, i).Corrupt? {
        var d1 := SetSibling(d, i, Holds(Moved(Contents(Sibling(d, i)), SECTIONS[i], table[SECTIONS[i]])));
        LoopKeepsPassed(d1, table - {SECTIONS[i]}, i + 1, s);
      }
    }
  }

  /** From any state of the loop, restarting the loop reaches the same files. */
  lemma {:induction false} LoopRestarts(d: Disk, table: Table, i: nat, s: Disk)
    requires i <= 2 && s in [d] + MoveSections(d, table, i).states
    ensures Restarts(d, table, i, s)
    decreases 2 - i
  {
    LoopKeepsPassed(d, table, i, s);
    if i < 2 && s != d {
      var name := SECTIONS[i];
      if name !in table {
        LoopRestarts(d, table, i + 1, s);
      } else if !Sibling(d, i).Corrupt? {
        var d1 := SetSibling(d, i, Holds(Moved(Contents(Sibling(d, i)), name, table[name])));
        var rest := table - {name};
        assert Final(d, table, i) == Final(d1, rest, i + 1);
        LoopRestarts(d1, rest, i + 1, s);
        LoopKeepsPassed(d1, rest, i + 1, s);
        if s.config == d.config { RedoMove(d, table, i, s); }
      }
    }
  }

  /** Restarting from any crash point ends in the same files, errors included, and the backup is
      the untouched original. */
  lemma {:induction false} RestartConverges(d: Disk, s: Disk)
    requires s in Migrate(d).states
    ensures SameFiles(Last(s, Migrate(s).states), Last(d, Migrate(d).states))
    ensures Last(d, Migrate(d).states).backup == if d.backup.Missing? then d.config else d.backup
  {
    var saved := BackedUp(d);
    LoopKeepsBackup(saved, d.config.table, 0);
    assert Last(d, Migrate(d).states) == Final(saved, d.config.table, 0);
    LoopRestarts(saved, d.config.table, 0, s);
    if s.config == saved.config {
      assert BackedUp(s) == s;
    } else {
      assert SECTIONS[0] == "providers" && SECTIONS[1] == "keys";
      assert !Legacy(s);
    }
  }

  lemma {:induction false} LoopKeepsBackup(d: Disk, table: Table, i: nat)
    requires i <= 2
    ensures Last(d, MoveSections(d, table, i).states).backup == d.backup
    decreases 2 - i
  {
    if i < 2 {
      if SECTIONS[i] !in table {
        LoopKeepsBackup(d, table, i + 1);
      } else if !Sibling(d, i).Corrupt? {
        var d1 := SetSibling(d, i, Holds(Moved(Contents(Sibling(d, i)), SECTIONS[i], table[SECTIONS[i]])));
        LoopKeepsBackup(d1, table - {SECTIONS[i]}, i + 1);
      }
    }
  }

  /** Once it has succeeded the migration is a no-op. */
  lemma {:induction false} MigrateOnce(d: Disk)
    requires Migrate(d).ok
    ensures Migrate(Last(d, Migrate(d).states)) == Run([], true)
  {
    if Legacy(d) {
      LoopStripsSections(BackedUp(d), d.config.table, 0);
    }
  }

  lemma {:induction false} LoopStripsSections(d: Disk, table: Table, i: nat)
    requires i <= 2 && MoveSections(d, table, i).ok
    requires forall j: nat | j < i :: SECTIONS[j] !in table
    ensures var last := Last(d, MoveSections(d, table, i).states);
      last.config.Holds? && !Legacy(last)
    decreases 2 - i
  {
    if i == 2 {
      assert SECTIONS[0] !in table && SECTIONS[1] !in table;
    } else if SECTIONS[i] !in table {
      LoopStripsSections(d, table, i + 1);
    } else {
      var d1 := SetSibling(d, i, Holds(Moved(Contents(Sibling(d, i)), SECTIONS[i], table[SECTIONS[i]])));
      LoopStripsSections(d1, table - {SECTIONS[i]}, i + 1);
    }
  }

  /** The config directory as the program changes it; `writes` records the disk after each write. */
  class ConfigDir {
    var disk: Disk
    ghost const origin: Disk
    ghost var writes: seq<Disk>

    ghost predicate Valid()
      reads this
    {
      disk == Last(origin, writes)
    }

    constructor (initial: Disk)
      ensures Valid() && disk == origin == initial && writes == []
    {
      disk, origin, writes := initial, initial, [];
    }

    method Write(next: Disk)
      modifies this
      ensures Valid() && disk == next && writes == old(writes) + [next]
    {
      disk, writes := next, writes + [next];
    }

    /** Puts the legacy section into the sibling table, whose own entries win. */
    method MergeSection(target: Table, section: string, legacy: Value) returns (moved: Table)
      ensures moved == Moved(target, section, legacy)
    {
      if section in target && legacy.Section? && target[section].Section? {
        var inner := DeepMerge(legacy.entries, target[section].entries);
        moved := target[section := Section(inner)];
      } else if section in target {
        moved := target[section := target[section]];
      } else {
        moved := target[section := legacy];
      }
    }

    method MoveLegacySections(legacy: Table) returns (ok: bool)
      requires Valid()
      modifies this
      ensures Valid()
      ensures ok == MoveSections(old(disk), legacy, 0).ok
      ensures writes == old(writes) + MoveSections(old(disk), legacy, 0).states
    {
      var table := legacy;
      var i := 0;
      ghost var all := MoveSections(disk, legacy, 0);
      while i < 2
        invariant i <= 2 && Valid()
        invariant MoveSections(disk, table, i).ok == all.ok
        invariant writes + MoveSections(disk, table, i).states == old(writes) + all.states
      {
        var section := SECTIONS[i];
        if section in table {
          if Sibling(disk, i).Corrupt? {
            return false;
          }
          var moved := MergeSection(Contents(Sibling(disk, i)), section, table[section]);
          ghost var before, rest := writes, MoveSections(SetSibling(disk, i, Holds(moved)), table - {section}, i + 1);
          Write(SetSibling(disk, i, Holds(moved)));
          assert before + ([disk] + rest.states) == writes + rest.states;
          table := table - {section};
        }
        i := i + 1;
      }
      Write(disk.(config := Holds(table)));
      Write(disk.(marker := true));
      return true;
    }

    /** Splits a legacy config.toml; the writes it makes are exactly those of `Migrate`. */
    method MigrateSplitFiles() returns (ok: bool)
      requires Valid()
      modifies this
      ensures Valid()
      ensures ok == Migrate(old(disk)).ok
      ensures writes == old(writes) + Migrate(old(disk)).states
    {
      if disk.config.Missing? { return true; }
      if disk.config.Corrupt? { return false; }
      var table := disk.config.table;
      if "providers" !in table && "keys" !in table { return true; }
      if disk.backup.Missing? {
        Write(disk.(backup := disk.config));
      }
      ok := MoveLegacySections(table);
    }

    method LoadTable() returns (table: Option<Table>)
      ensures table == Effective(disk)
    {
      if !Readable(disk) { return None; }
      var merged := Contents(disk.config);
      merged := DeepMerge(merged, Contents(disk.providers));
      merged := DeepMerge(merged, Contents(disk.keybindings));
      return Some(merged);
    }
  }
}
