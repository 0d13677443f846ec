/** The case files of utils/json_store.py, kept as an in-memory map from
    (folder, case id) to the record last written there. */
module JsonStore {
  import opened Values

  /** data/{folder}/{id}.json */
  datatype CaseKey = CaseKey(folder: string, id: string)

  type StoreMap = map<CaseKey, Record>

  /** The folder create_case writes to and the default of the other two operations. */
  const Cases := "cases"

  /** Reading a case file: its record, or NotFound when it was never written. */
  function Load(m: StoreMap, key: CaseKey): (r: Result<Record>)
    ensures r.Ok? <==> key in m
    ensures r.Ok? ==> r.value == m[key]
    ensures r.Err? ==> r.error == NotFound
  {
    if key in m then Ok(m[key]) else Err(NotFound)
  }

  /** Writing a case file: the record replaces whatever was there. */
  function Save(m: StoreMap, key: CaseKey, rec: Record): (m': StoreMap)
    ensures m'.Keys == m.Keys + {key}
    ensures m'[key] == rec
    ensures forall k | k in m && k != key :: m'[k] == m[k]
  {
    m[key := rec]
  }

  /** Loading what was just saved gives it back. */
  lemma LoadAfterSave(m: StoreMap, key: CaseKey, rec: Record)
    ensures Load(Save(m, key, rec), key) == Ok(rec)
  {
  }

  /** A save affects no other file, in the same folder or another. */
  lemma SaveLeavesOthers(m: StoreMap, key: CaseKey, other: CaseKey, rec: Record)
    requires other != key
    ensures Load(Save(m, key, rec), other) == Load(m, other)
  {
  }

  /** A save replaces the whole record: nothing of an earlier save survives. */
  lemma SaveReplaces(m: StoreMap, key: CaseKey, r1: Record, r2: Record)
    ensures Save(Save(m, key, r1), key, r2) == Save(m, key, r2)
  {
  }

  /** The record create_case writes; `now` is the clock reading. */
  function InitialRecord(id: string, userInput: string, now: int): (r: Record)
    ensures "case_id" in r && r["case_id"] == Str(id)
    ensures "status" in r && r["status"] == Str("active")
    ensures "conversation" in r && r["conversation"] == Arr([Str(userInput)])
    ensures r.Keys == {"case_id", "created_at", "status", "conversation"}
  {
    map[
      "case_id" := Str(id),
      "created_at" := Int(now),
      "status" := Str("active"),
      "conversation" := Arr([Str(userInput)])
    ]
  }

  /** The store of case files. */
  class CaseStore {
    var records: StoreMap

    constructor()
      ensures records == map[]
    {
      records := map[];
    }

    /** A case id no stored file uses, standing for str(uuid.uuid4()): a run of
        zeros longer than every id in the store. */
    method NewCaseId() returns (id: string)
      ensures id != []
      ensures forall k | k in records :: k.id != id
    {
      var longest: nat := 0;
      var pending := records.Keys;
      while pending != {}
        invariant pending <= records.Keys
        invariant forall k | k in records && k !in pending :: |k.id| <= longest
        decreases |pending|
      {
        var k :| k in pending;
        if |k.id| > longest {
          longest := |k.id|;
        }
        pending := pending - {k};
      }
      id := seq(longest + 1, _ => '0');
      assert |id| == longest + 1;
    }

    /** create_case(user_input): a fresh id whose file holds the initial record;
        every existing file is unchanged. */
    method CreateCase(userInput: string, now: int) returns (id: string)
      modifies this
      ensures id != [] && CaseKey(Cases, id) !in old(records)
      ensures records == Save(old(records), CaseKey(Cases, id), InitialRecord(id, userInput, now))
    {
      id := NewCaseId();
      records := Save(records, CaseKey(Cases, id), InitialRecord(id, userInput, now));
    }

    /** update_case(case_id, new_data, folder): overwrite the whole file. */
    method UpdateCase(id: string, rec: Record, folder: string)
      modifies this
      ensures records == Save(old(records), CaseKey(folder, id), rec)
    {
      records := Save(records, CaseKey(folder, id), rec);
    }

    /** load_case(case_id, folder) */
    method LoadCase(id: string, folder: string) returns (r: Result<Record>)
      ensures r == Load(records, CaseKey(folder, id))
    {
      if CaseKey(folder, id) in records {
        r := Ok(records[CaseKey(folder, id)]);
      } else {
        r := Err(NotFound);
      }
    }
  }
}
