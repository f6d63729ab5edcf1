/**
 The `HealthRecordDao` over its one table, as an in-memory table of rows.
 Keys follow the entity's `autoGenerate = true` primary key: a record
 inserted with key 0 receives a fresh key one past the largest key the
 table has ever issued (the counter survives `deleteAll`); a record with a
 non-zero key keeps it, and the insert aborts if that key is taken.
 */
module Store {
  import opened Records

  /** The keys held by a list of rows. */
  function Keys(rows: seq<HealthRecord>): set<int> {
    set k | 0 <= k < |rows| :: rows[k].id
  }

  /** No two rows share a key. */
  predicate DistinctKeys(rows: seq<HealthRecord>) {
    forall i, j :: 0 <= i < j < |rows| ==> rows[i].id != rows[j].id
  }

  function Max(a: int, b: int): int { if a < b then b else a }

  class HealthRecordStore {
    /** The rows of the table, in the order they were inserted. */
    var rows: seq<HealthRecord>
    /** The key the next auto-generated insert receives. */
    var nextId: int

    ghost predicate Valid()
      reads this
    {
      nextId >= 1 &&
      DistinctKeys(rows) &&
      forall k :: 0 <= k < |rows| ==> rows[k].id != AutoGenerateId && rows[k].id < nextId
    }

    /** A newly created, empty table. */
    constructor ()
      ensures Valid()
      ensures rows == [] && nextId == 1
    {
      rows := [];
      nextId := 1;
    }

    /** `insert(record)`. With key 0 the record is appended under a fresh
        key; with any other key it is appended as it is, unless a row already
        holds that key, in which case nothing changes and `ok` is false. */
    method Insert(record: HealthRecord) returns (ok: bool)
      requires Valid()
      modifies this
      ensures Valid()
      ensures record.id == AutoGenerateId ==>
                ok && old(nextId) !in Keys(old(rows)) &&
                rows == old(rows) + [record.(id := old(nextId))] &&
                nextId == old(nextId) + 1
      ensures record.id != AutoGenerateId ==>
                ok == (record.id !in Keys(old(rows))) &&
                (ok ==> rows == old(rows) + [record] && nextId == Max(old(nextId), record.id + 1)) &&
                (!ok ==> rows == old(rows) && nextId == old(nextId))
    {
      if record.id == AutoGenerateId {
        AutoInsertAddsOneFreshRow(rows, nextId, record);
        rows := rows + [record.(id := nextId)];
        nextId := nextId + 1;
        ok := true;
      } else if record.id in Keys(rows) {
        ok := false;
      } else {
        rows := rows + [record];
        nextId := Max(nextId, record.id + 1);
        ok := true;
      }
    }

    /** `deleteAll()`: every row goes; the key counter stays. */
    method DeleteAll()
      requires Valid()
      modifies this
      ensures Valid()
      ensures rows == [] && nextId == old(nextId)
    {
      rows := [];
    }

    /** `getAllRecords()`: every row exactly once. The query has no
        `ORDER BY`, so no order is promised. */
    method GetAllRecords() returns (records: seq<HealthRecord>)
      ensures multiset(records) == multiset(rows)
    {
      records := rows;
    }
  }

  /** Inserting with the default key adds exactly one row, under a key no
      earlier row holds, so after any number of such inserts all keys are
      distinct; the other rows are left as they were. */
  lemma AutoInsertAddsOneFreshRow(rows: seq<HealthRecord>, nextId: int, record: HealthRecord)
    requires DistinctKeys(rows)
    requires forall k :: 0 <= k < |rows| ==> rows[k].id < nextId
    ensures var rows' := rows + [record.(id := nextId)];
            |rows'| == |rows| + 1 && rows'[..|rows|] == rows &&
            nextId !in Keys(rows) && DistinctKeys(rows') &&
            multiset(rows') == multiset(rows) + multiset{record.(id := nextId)}
  {
  }
}
