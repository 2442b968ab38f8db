/** What the config-split migration leaves behind (crates/pacode-config/src/lib.rs). */
module MigrationAnswers {
  import opened Common
  import opened Toml
  import opened Migration

  /** A sibling that a section must move to can be read. */
  predicate TargetReadable(d: Disk, table: Table, i: nat)
    requires i < 2
  {
    SECTIONS[i] in table ==> !Sibling(d, i).Corrupt?
  }

  /** What a sibling holds once the section has moved: all that it held under other names, and its own
      entries of the section merged over the legacy ones. A sibling that nothing moves to stays. */
  ghost predicate Received(before: File, after: File, table: Table, section: string) {
    if section !in table then after == before
    else
      && !before.Corrupt? && after.Holds?
      && (forall k | k != section :: Get(after.table, k) == Get(Contents(before), k))
      && Get(after.table, section) == MergeEntry(Some(table[section]), Get(Contents(before), section))
  }

  /** `last` is what the loop from section `i` on leaves of `d`: config.toml without the remaining sections,
      which their siblings have received, and the marker. */
  ghost predicate Leaves(d: Disk, table: Table, i: nat, last: Disk) {
    && last.marker && last.backup == d.backup && last.config.Holds?
    && (forall k :: Get(last.config.table, k) ==
         if (k == "providers" && i == 0) || (k == "keys" && i <= 1) then None else Get(table, k))
    && (if i == 0 then Received(d.providers, last.providers, table, "providers") else last.providers == d.providers)
    && (if i <= 1 then Received(d.keybindings, last.keybindings, table, "keys") else last.keybindings == d.keybindings)
  }

  /** The loop from section `i` on succeeds exactly if every sibling it needs can be read. */
  lemma {:induction false} LoopEnds(d: Disk, table: Table, i: nat)
    requires i <= 2
    ensures MoveSections(d, table, i).ok <==> forall j: nat | i <= j < 2 :: TargetReadable(d, table, j)
    ensures MoveSections(d, table, i).ok ==> Leaves(d, table, i, Final(d, table, i))
    decreases 2 - i
  {
    if i < 2 {
      assert SECTIONS[0] == "providers" && SECTIONS[1] == "keys";
      if SECTIONS[i] !in table {
        LoopEnds(d, table, i + 1);
        assert TargetReadable(d, table, i);
      } else if Sibling(d, i).Corrupt? {
        assert !TargetReadable(d, table, i);
      } else {
        var moved := Moved(Contents(Sibling(d, i)), SECTIONS[i], table[SECTIONS[i]]);
        var d1, rest := SetSibling(d, i, Holds(moved)), table - {SECTIONS[i]};
        LoopEnds(d1, rest, i + 1);
        assert Final(d, table, i) == Final(d1, rest, i + 1);
        forall j: nat | i < j < 2 ensures TargetReadable(d1, rest, j) <==> TargetReadable(d, table, j) {}
        if MoveSections(d, table, i).ok { MoveLeaves(d, table, i, Final(d, table, i)); }
      }
    }
  }

  lemma {:induction false} MoveLeaves(d: Disk, table: Table, i: nat, last: Disk)
    requires i < 2 && SECTIONS[i] in table && !Sibling(d, i).Corrupt?
    requires var moved := Moved(Contents(Sibling(d, i)), SECTIONS[i], table[SECTIONS[i]]);
      Leaves(SetSibling(d, i, Holds(moved)), table - {SECTIONS[i]}, i + 1, last)
    ensures Leaves(d, table, i, last)
  {
    assert SECTIONS[0] == "providers" && SECTIONS[1] == "keys";
  }

  /** Exactly when a migration succeeds: config.toml can be read, and so can every file that one of its
      legacy sections must move to. */
  lemma {:induction false} SucceedsIff(d: Disk)
    ensures Migrate(d).ok <==>
      && !d.config.Corrupt?
      && ("providers" in Contents(d.config) ==> !d.providers.Corrupt?)
      && ("keys" in Contents(d.config) ==> !d.keybindings.Corrupt?)
  {
    if Legacy(d) {
      LoopEnds(BackedUp(d), d.config.table, 0);
      assert SECTIONS[0] == "providers" && SECTIONS[1] == "keys";
      assert TargetReadable(BackedUp(d), d.config.table, 0) <==>
        ("providers" in d.config.table ==> !d.providers.Corrupt?);
      assert TargetReadable(BackedUp(d), d.config.table, 1) <==>
        ("keys" in d.config.table ==> !d.keybindings.Corrupt?);
    }
  }

  /** What a successful migration leaves: config.toml has lost the two sections and nothing else, each
      sibling has received its section, the original is backed up, and the notice is set. */
  lemma {:induction false} MigratedDisk(d: Disk)
    requires Legacy(d) && Migrate(d).ok
    ensures var last := Last(d, Migrate(d).states);
      && last.marker && last.config.Holds?
      && (forall k :: Get(last.config.table, k) == if k in {"providers", "keys"} then None else Get(d.config.table, k))
      && Received(d.providers, last.providers, d.config.table, "providers")
      && Received(d.keybindings, last.keybindings, d.config.table, "keys")
      && last.backup == if d.backup.Missing? then d.config else d.backup
  {
    var saved := BackedUp(d);
    LoopEnds(saved, d.config.table, 0);
    assert SECTIONS[0] == "providers" && SECTIONS[1] == "keys";
    var last := Final(saved, d.config.table, 0);
    assert Last(d, Migrate(d).states) == last by { LoopWrites(saved, d.config.table, 0); }
  }

  lemma {:induction false} LoopWrites(d: Disk, table: Table, i: nat)
    requires i <= 2 && MoveSections(d, table, i).ok
    ensures MoveSections(d, table, i).states != []
    decreases 2 - i
  {
    if i < 2 {
      if SECTIONS[i] !in table {
        LoopWrites(d, table, i + 1);
      }
    }
  }

  lemma {:induction false} LoopKeeps(d: Disk, table: Table, i: nat, s: Disk)
    requires i <= 2 && s in MoveSections(d, table, i).states
    ensures s.backup == d.backup
    ensures !MoveSections(d, table, i).ok ==> s.config == d.config && s.marker == d.marker
    decreases 2 - i
  {
    if i < 2 {
      if SECTIONS[i] !in table {
        LoopKeeps(d, table, i + 1, s);
      } else if !Sibling(d, i).Corrupt? {
        var d1 := SetSibling(d, i, Holds(Moved(Contents(Sibling(d, i)), SECTIONS[i], table[SECTIONS[i]])));
        if s != d1 { LoopKeeps(d1, table - {SECTIONS[i]}, i + 1, s); }
      }
    }
  }

  /** The backup is written first: every state the migration writes holds it, so nothing is lost at any
      crash point. A migration that fails leaves config.toml as it was and announces nothing. */
  lemma {:induction false} BackupFirst(d: Disk, s: Disk)
    requires s in Migrate(d).states
    ensures s.backup == if d.backup.Missing? then d.config else d.backup
    ensures !Migrate(d).ok ==> s.config == d.config && s.marker == d.marker
  {
    if s != BackedUp(d) { LoopKeeps(BackedUp(d), d.config.table, 0, s); }
  }
}
