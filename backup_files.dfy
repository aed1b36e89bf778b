/**
 * The backup file table: a sequence of rows whose (folderId, uriString) keys are
 * unique, the repository writes on it (insert-or-replace, state update, delete)
 * and per-folder counts by state.
 */
module BackupFiles {
  import opened Wrappers
  import opened Links
  import opened BackupEntities

  /** The first row with key `k`, if any. */
  function Lookup(rows: seq<BackupFile>, k: FileKey): Option<BackupFile> {
    if rows == [] then None
    else if KeyOf(rows[0]) == k then Some(rows[0])
    else Lookup(rows[1..], k)
  }

  /** No two rows share a key (the table's primary key). */
  predicate UniqueKeys(rows: seq<BackupFile>) {
    rows == [] || (Lookup(rows[1..], KeyOf(rows[0])) == None && UniqueKeys(rows[1..]))
  }

  /** Insert-or-replace one row: the row with `f`'s key becomes `f`, or `f` is appended. */
  function Upsert(rows: seq<BackupFile>, f: BackupFile): seq<BackupFile> {
    if rows == [] then [f]
    else if KeyOf(rows[0]) == KeyOf(f) then [f] + rows[1..]
    else [rows[0]] + Upsert(rows[1..], f)
  }

  /** Insert-or-replace a list of rows, in list order. */
  function UpsertAll(rows: seq<BackupFile>, list: seq<BackupFile>): seq<BackupFile>
    decreases |list|
  {
    if list == [] then rows else UpsertAll(Upsert(rows, list[0]), list[1..])
  }

  /** The last file in `list` with key `k`: the one an in-order insert-or-replace keeps. */
  function LastWithKey(list: seq<BackupFile>, k: FileKey): Option<BackupFile> {
    if list == [] then None
    else
      var later := LastWithKey(list[1..], k);
      if later.Some? then later
      else if KeyOf(list[0]) == k then Some(list[0])
      else None
  }

  /** Update the state of the row with key `k` (no row changes when there is none). */
  function SetState(rows: seq<BackupFile>, k: FileKey, s: BackupFileState): seq<BackupFile> {
    if rows == [] then []
    else [if KeyOf(rows[0]) == k then rows[0].(state := s) else rows[0]] + SetState(rows[1..], k, s)
  }

  /** Delete the row with key `k` (no row changes when there is none). */
  function RemoveKey(rows: seq<BackupFile>, k: FileKey): seq<BackupFile> {
    if rows == [] then []
    else if KeyOf(rows[0]) == k then RemoveKey(rows[1..], k)
    else [rows[0]] + RemoveKey(rows[1..], k)
  }

  /** Number of rows of folder `id` whose state is in `states`. */
  function CountWhere(rows: seq<BackupFile>, id: FolderId, states: set<BackupFileState>): nat {
    if rows == [] then 0
    else (if rows[0].folderId == id && rows[0].state in states then 1 else 0) + CountWhere(rows[1..], id, states)
  }

  const AllStates: set<BackupFileState> := {IDLE, ENQUEUED, READY, DUPLICATE, FAILED, COMPLETED}
  const PendingStates: set<BackupFileState> := {IDLE, ENQUEUED, READY}

  lemma AllStatesComplete(s: BackupFileState)
    ensures s in AllStates
    ensures s in PendingStates <==> IsPending(s)
  {
  }

  // ---------------------------------------------------------------------------
  // Insert-or-replace

  /** After an upsert, `f` is found under its key and every other key reads as before. */
  lemma {:induction false} UpsertLookup(rows: seq<BackupFile>, f: BackupFile, k: FileKey)
    ensures Lookup(Upsert(rows, f), k) == if k == KeyOf(f) then Some(f) else Lookup(rows, k)
  {
    if rows != [] && KeyOf(rows[0]) != KeyOf(f) {
      UpsertLookup(rows[1..], f, k);
      assert Upsert(rows, f)[1..] == Upsert(rows[1..], f);
    } else if rows != [] {
      assert ([f] + rows[1..])[1..] == rows[1..];
    }
  }

  /** An upsert keeps the primary key unique. */
  lemma {:induction false} UpsertUnique(rows: seq<BackupFile>, f: BackupFile)
    requires UniqueKeys(rows)
    ensures UniqueKeys(Upsert(rows, f))
  {
    if rows == [] {
      assert Upsert(rows, f)[1..] == [];
    } else if KeyOf(rows[0]) == KeyOf(f) {
      assert Upsert(rows, f)[1..] == rows[1..];
    } else {
      var r := Upsert(rows, f);
      assert r[0] == rows[0] && r[1..] == Upsert(rows[1..], f);
      UpsertUnique(rows[1..], f);
      UpsertLookup(rows[1..], f, KeyOf(rows[0]));
    }
  }

  /** Inserting a list: a key listed reads as its last listed file, any other key as before. */
  lemma {:induction false} UpsertAllLookup(rows: seq<BackupFile>, list: seq<BackupFile>, k: FileKey)
    ensures Lookup(UpsertAll(rows, list), k)
         == if LastWithKey(list, k).Some? then LastWithKey(list, k) else Lookup(rows, k)
    decreases |list|
  {
    if list != [] {
      UpsertAllLookup(Upsert(rows, list[0]), list[1..], k);
      UpsertLookup(rows, list[0], k);
    }
  }

  lemma {:induction false} UpsertAllUnique(rows: seq<BackupFile>, list: seq<BackupFile>)
    requires UniqueKeys(rows)
    ensures UniqueKeys(UpsertAll(rows, list))
    decreases |list|
  {
    if list != [] {
      UpsertUnique(rows, list[0]);
      UpsertAllUnique(Upsert(rows, list[0]), list[1..]);
    }
  }

  /** Upserting a file whose key is new adds one row, counted by its own folder and state. */
  lemma {:induction false} UpsertNewCount(rows: seq<BackupFile>, f: BackupFile, id: FolderId, states: set<BackupFileState>)
    requires Lookup(rows, KeyOf(f)) == None
    ensures CountWhere(Upsert(rows, f), id, states)
         == CountWhere(rows, id, states) + (if f.folderId == id && f.state in states then 1 else 0)
  {
    if rows != [] {
      var r := Upsert(rows, f);
      assert r[0] == rows[0] && r[1..] == Upsert(rows[1..], f);
      UpsertNewCount(rows[1..], f, id, states);
    } else {
      assert Upsert(rows, f)[1..] == [];
    }
  }

  // ---------------------------------------------------------------------------
  // State update

  /** Marking a row changes only that row's state; every other key reads as before. */
  lemma {:induction false} SetStateLookup(rows: seq<BackupFile>, k: FileKey, s: BackupFileState, k': FileKey)
    ensures Lookup(SetState(rows, k, s), k')
         == if k' == k && Lookup(rows, k).Some? then Some(Lookup(rows, k).value.(state := s))
            else Lookup(rows, k')
  {
    if rows != [] {
      var r := SetState(rows, k, s);
      assert r[1..] == SetState(rows[1..], k, s);
      assert KeyOf(r[0]) == KeyOf(rows[0]);
      SetStateLookup(rows[1..], k, s, k');
    }
  }

  /** A state update keeps every row's key, so the primary key stays unique. */
  lemma {:induction false} SetStateUnique(rows: seq<BackupFile>, k: FileKey, s: BackupFileState)
    requires UniqueKeys(rows)
    ensures |SetState(rows, k, s)| == |rows|
    ensures UniqueKeys(SetState(rows, k, s))
  {
    if rows != [] {
      var r := SetState(rows, k, s);
      assert r[1..] == SetState(rows[1..], k, s);
      SetStateUnique(rows[1..], k, s);
      SetStateLookup(rows[1..], k, s, KeyOf(rows[0]));
    }
  }

  /**
   * Marking the existing row `f` as state `s` moves one row of its folder from
   * `f.state` to `s` in every count; other folders' counts do not change.
   */
  lemma {:induction false} SetStateCount(rows: seq<BackupFile>, f: BackupFile, s: BackupFileState, id: FolderId, states: set<BackupFileState>)
    requires UniqueKeys(rows)
    requires Lookup(rows, KeyOf(f)) == Some(f)
    ensures CountWhere(SetState(rows, KeyOf(f), s), id, states)
         == CountWhere(rows, id, states)
            - (if f.folderId == id && f.state in states then 1 else 0)
            + (if f.folderId == id && s in states then 1 else 0)
  {
    var r := SetState(rows, KeyOf(f), s);
    assert r[1..] == SetState(rows[1..], KeyOf(f), s);
    if KeyOf(rows[0]) == KeyOf(f) {
      SetStateAbsent(rows[1..], KeyOf(f), s);
    } else {
      SetStateCount(rows[1..], f, s, id, states);
    }
  }

  /** Updating a key that no row has leaves the table as it is. */
  lemma {:induction false} SetStateAbsent(rows: seq<BackupFile>, k: FileKey, s: BackupFileState)
    requires Lookup(rows, k) == None
    ensures SetState(rows, k, s) == rows
  {
    if rows != [] {
      SetStateAbsent(rows[1..], k, s);
      assert rows == [rows[0]] + rows[1..];
    }
  }

  // ---------------------------------------------------------------------------
  // Delete

  /** After deleting key `k` nothing is found under it, and every other key reads as before. */
  lemma {:induction false} RemoveKeyLookup(rows: seq<BackupFile>, k: FileKey, k': FileKey)
    ensures Lookup(RemoveKey(rows, k), k') == if k' == k then None else Lookup(rows, k')
  {
    if rows != [] {
      RemoveKeyLookup(rows[1..], k, k');
      if KeyOf(rows[0]) != k {
        assert RemoveKey(rows, k)[1..] == RemoveKey(rows[1..], k);
      }
    }
  }

  lemma {:induction false} RemoveKeyUnique(rows: seq<BackupFile>, k: FileKey)
    requires UniqueKeys(rows)
    ensures UniqueKeys(RemoveKey(rows, k))
  {
    if rows != [] {
      RemoveKeyUnique(rows[1..], k);
      if KeyOf(rows[0]) != k {
        var r := RemoveKey(rows, k);
        assert r[0] == rows[0] && r[1..] == RemoveKey(rows[1..], k);
        RemoveKeyLookup(rows[1..], k, KeyOf(rows[0]));
      }
    }
  }

  // ---------------------------------------------------------------------------
  // Counts

  /** Counts over disjoint state sets add up to the count over their union. */
  lemma {:induction false} CountSplit(rows: seq<BackupFile>, id: FolderId, a: set<BackupFileState>, b: set<BackupFileState>)
    requires a !! b
    ensures CountWhere(rows, id, a + b) == CountWhere(rows, id, a) + CountWhere(rows, id, b)
  {
    if rows != [] {
      CountSplit(rows[1..], id, a, b);
    }
  }

  /** A count over fewer states is never larger. */
  lemma {:induction false} CountMonotone(rows: seq<BackupFile>, id: FolderId, a: set<BackupFileState>, b: set<BackupFileState>)
    requires a <= b
    ensures CountWhere(rows, id, a) <= CountWhere(rows, id, b)
  {
    if rows != [] {
      CountMonotone(rows[1..], id, a, b);
    }
  }

  /** Every file of a folder is pending, failed, completed or a duplicate, and exactly one of them. */
  lemma CountPartition(rows: seq<BackupFile>, id: FolderId)
    ensures CountWhere(rows, id, AllStates)
         == CountWhere(rows, id, PendingStates) + CountWhere(rows, id, {FAILED})
            + CountWhere(rows, id, {COMPLETED}) + CountWhere(rows, id, {DUPLICATE})
  {
    CountSplit(rows, id, PendingStates, {FAILED});
    CountSplit(rows, id, PendingStates + {FAILED}, {COMPLETED});
    CountSplit(rows, id, PendingStates + {FAILED} + {COMPLETED}, {DUPLICATE});
    assert PendingStates + {FAILED} + {COMPLETED} + {DUPLICATE} == AllStates;
  }
}
