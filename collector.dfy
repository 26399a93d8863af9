/**
 * The collector: an ordered, append-only list of records mirrored to a backing store that is
 * fully rewritten after every addition.
 */
module Collector {
  import opened Wrappers
  import opened Json
  import opened Records

  /** The storage path used when the caller gives none. */
  const DefaultStoragePath: string := "collected_data.json"

  /** What reading the storage path finds. */
  datatype Store =
    | Absent                 // nothing exists at the storage path
    | Undecodable            // the bytes are not valid UTF-8, so reading the text raises
    | Unparsable             // the text is not valid JSON
    | Parsed(doc: JsonValue) // the content parses to this JSON value

  /** Why loading fails; the source lets these propagate out of the constructor. */
  datatype LoadError =
    | DecodeError                            // reading the store as UTF-8 text fails
    | NotIterable                            // the top-level value cannot be iterated (number, bool, null)
    | RecordError(cause: ConstructionError)  // an element could not be built into a record

  /** Why saving fails (an I/O error from writing the store). */
  datatype StorageError = WriteFailed

  /**
   * How the file system answers a write. Opening for writing truncates the file before anything
   * is written, so a failure after the open leaves an empty or partial array. Such content does not
   * parse; when the cut falls inside a multi-byte character it does not even decode as UTF-8.
   */
  datatype WriteOutcome =
    | Written                        // the whole text is written
    | Refused                        // opening the file fails; its content is untouched
    | Truncated(midCharacter: bool)  // the write fails after the file was truncated

  /**
   * The list comprehension over the parsed elements: one record per element, in order, and the
   * first element that cannot be built aborts the whole load.
   */
  function FromItems(items: seq<JsonValue>): (r: Result<seq<Record>, ConstructionError>)
    ensures r.Success? <==> forall i :: 0 <= i < |items| ==> FromValue(items[i]).Success?
    ensures r.Success? ==> |r.value| == |items|
    ensures r.Success? ==> forall i :: 0 <= i < |items| ==> FromValue(items[i]) == Success(r.value[i])
  {
    if items == [] then Success([])
    else
      match FromValue(items[0])
      case Failure(e) => Failure(e)
      case Success(first) =>
        match FromItems(items[1..])
        case Failure(e) => Failure(e)
        case Success(rest) => Success([first] + rest)
  }

  /**
   * Iterating the parsed top-level value. An array yields its elements; an object yields its keys
   * and a string its characters, which are strings and so not mappings; other values cannot be
   * iterated.
   */
  function FromDocument(doc: JsonValue): (r: Result<seq<Record>, LoadError>)
    ensures doc.JArray? ==> (r.Success? <==> FromItems(doc.elems).Success?)
    ensures doc.JArray? && r.Success? ==> r.value == FromItems(doc.elems).value
    ensures doc.JArray? && r.Failure? ==> r.error == RecordError(FromItems(doc.elems).error)
    ensures doc.JObject? ==> r == if doc.fields == map[] then Success([]) else Failure(RecordError(NotAMapping))
    ensures doc.JString? ==> r == if doc.s == "" then Success([]) else Failure(RecordError(NotAMapping))
    ensures doc.JNumber? || doc.JBool? || doc.JNull? ==> r == Failure(NotIterable)
  {
    match doc
    case JArray(items) =>
      (match FromItems(items)
       case Success(rs) => Success(rs)
       case Failure(e) => Failure(RecordError(e)))
    case JObject(fields) =>
      if |fields| == 0 then Success([]) else Failure(RecordError(NotAMapping))
    case JString(s) =>
      if |s| == 0 then Success([]) else Failure(RecordError(NotAMapping))
    case _ => Failure(NotIterable)
  }

  /** `_load`: a missing or unparsable store gives no records; parsed content is built element by element. */
  function Load(store: Store): (r: Result<seq<Record>, LoadError>)
    ensures store.Absent? || store.Unparsable? ==> r == Success([])
    ensures store.Undecodable? ==> r == Failure(DecodeError)
    ensures store.Parsed? && store.doc.JArray? && r.Success? ==> |r.value| == |store.doc.elems|
  {
    match store
    case Absent => Success([])
    case Undecodable => Failure(DecodeError)
    case Unparsable => Success([])
    case Parsed(doc) => FromDocument(doc)
  }

  /** What `_save` writes: an array holding each record's field mapping, in order. */
  function Serialize(rs: seq<Record>): (doc: JsonValue)
    ensures doc.JArray? && |doc.elems| == |rs|
    ensures forall i :: 0 <= i < |rs| ==> doc.elems[i].JObject? && doc.elems[i].fields.Keys == FieldNames
  {
    JArray(seq(|rs|, i requires 0 <= i < |rs| => JObject(ToMapping(rs[i]))))
  }

  /** Round trip: loading what `_save` wrote reproduces the records field for field and in order. */
  lemma SaveThenLoad(rs: seq<Record>)
    ensures Load(Parsed(Serialize(rs))) == Success(rs)
  {
    var items := Serialize(rs).elems;
    forall i | 0 <= i < |items|
      ensures FromValue(items[i]) == Success(rs[i])
    {
      MappingRoundTrip(rs[i]);
    }
    var r := FromItems(items);
    assert r.value == rs;
  }

  /** Saving the records loaded from an array document writes that same document back. */
  lemma LoadThenSave(items: seq<JsonValue>)
    requires Load(Parsed(JArray(items))).Success?
    ensures Serialize(Load(Parsed(JArray(items))).value) == JArray(items)
  {
  }

  /**
   * Shape mismatch is fatal: one element whose keys are not exactly the six field names makes the
   * whole load fail, rather than yield an empty or partial list.
   */
  lemma MismatchedElementFailsLoad(items: seq<JsonValue>, k: nat)
    requires k < |items| && items[k].JObject? && items[k].fields.Keys != FieldNames
    ensures Load(Parsed(JArray(items))).Failure?
    ensures Load(Parsed(JArray(items))).error.RecordError?
  {
  }

  /** The error a failed load reports is that of the first element that cannot be built. */
  lemma {:induction false} FirstBadElementDecides(items: seq<JsonValue>)
    requires FromItems(items).Failure?
    ensures exists k :: 0 <= k < |items| && FromValue(items[k]) == Failure(FromItems(items).error)
                        && forall j :: 0 <= j < k ==> FromValue(items[j]).Success?
  {
    if FromValue(items[0]).Failure? {
      assert FromValue(items[0]) == Failure(FromItems(items).error);
    } else {
      FirstBadElementDecides(items[1..]);
      var k :| 0 <= k < |items[1..]| && FromValue(items[1..][k]) == Failure(FromItems(items[1..]).error)
               && forall j :: 0 <= j < k ==> FromValue(items[1..][j]).Success?;
      assert FromValue(items[k + 1]) == Failure(FromItems(items).error);
      forall j | 0 <= j < k + 1 ensures FromValue(items[j]).Success? {
        if j > 0 { assert items[j] == items[1..][j - 1]; }
      }
    }
  }

  /** A store holding `[{"name": "x"}]` fails to load, reporting the five missing fields. */
  lemma NameOnlyElementFails()
    ensures Load(Parsed(JArray([JObject(map["name" := JString("x")])])))
            == Failure(RecordError(MissingFields({"age", "email", "phone", "notes", "timestamp"})))
  {
    var m := map["name" := JString("x")];
    assert m.Keys - FieldNames == {};
    assert FieldNames - m.Keys == {"age", "email", "phone", "notes", "timestamp"};
  }

  class DataCollector {
    /** Identifier of the backing file. */
    var storagePath: string
    /** The records in collection order, which is also the persisted order. */
    var records: seq<Record>
    /** The current contents of the backing file. */
    var store: Store

    /** The store, reloaded, gives exactly the in-memory records. */
    ghost predicate InSync()
      reads this
    {
      Load(store) == Success(records)
    }

    constructor FromLoaded(storagePath: string, store: Store, records: seq<Record>)
      ensures this.storagePath == storagePath && this.store == store && this.records == records
    {
      this.storagePath := storagePath;
      this.store := store;
      this.records := records;
    }

    /**
     * `DataCollector(storage_path)`: loads the records from the store and writes nothing. A missing
     * or unparsable store gives no records; a load error propagates.
     */
    static method Open(store: Store, storagePath: string := DefaultStoragePath) returns (r: Result<DataCollector, LoadError>)
      ensures (store.Absent? || store.Unparsable?) ==> r.Success? && r.value.records == []
      ensures store.Undecodable? ==> r == Failure(DecodeError)
      ensures r.Success? <==> Load(store).Success?
      ensures r.Failure? ==> r.error == Load(store).error
      ensures r.Success? ==> fresh(r.value) && r.value.InSync()
      ensures r.Success? ==> r.value.storagePath == storagePath && r.value.store == store
      ensures r.Success? ==> r.value.records == Load(store).value
    {
      var loaded := Load(store);
      if loaded.Failure? {
        r := Failure(loaded.error);
      } else {
        var c := new DataCollector.FromLoaded(storagePath, store, loaded.value);
        r := Success(c);
      }
    }

    /**
     * `_save`: overwrites the store with the serialisation of all records. A failed write raises:
     * a refused open leaves the store as it was; a failure after truncation leaves content that
     * reloads as no records when the cut falls on a character boundary, and that fails to decode
     * when it falls inside a character.
     */
    method Save(io: WriteOutcome) returns (o: Outcome<StorageError>)
      modifies this`store
      ensures o.Pass? <==> io.Written?
      ensures o.Pass? ==> store == Parsed(Serialize(records)) && InSync()
      ensures io.Refused? ==> store == old(store)
      ensures io.Truncated? && !io.midCharacter ==> store == Unparsable && Load(store) == Success([])
      ensures io.Truncated? && io.midCharacter ==> store == Undecodable && Load(store) == Failure(DecodeError)
    {
      match io
      case Written =>
        store := Parsed(Serialize(records));
        SaveThenLoad(records);
        o := Pass;
      case Refused =>
        o := Fail(WriteFailed);
      case Truncated(midCharacter) =>
        store := if midCharacter then Undecodable else Unparsable;
        o := Fail(WriteFailed);
    }

    /**
     * `add_record`: appends a record of the given values stamped with `timestamp`, then saves.
     * The record is appended before saving, so it stays in memory even when the save fails.
     */
    method AddRecord(name: string, age: int, email: string, phone: string, notes: string,
                     timestamp: string, io: WriteOutcome)
      returns (r: Result<Record, StorageError>)
      modifies this`records, this`store
      ensures |records| == |old(records)| + 1 && records[..|old(records)|] == old(records)
      ensures records[|records| - 1] == Make(name, age, email, phone, notes, timestamp)
      ensures storagePath == old(storagePath)
      ensures r.Success? <==> io.Written?
      ensures r.Success? ==> r.value == records[|records| - 1]
      ensures r.Success? ==> store == Parsed(Serialize(records)) && InSync()
      ensures io.Refused? ==> store == old(store)
      ensures io.Truncated? && !io.midCharacter ==> store == Unparsable && Load(store) == Success([])
      ensures io.Truncated? && io.midCharacter ==> store == Undecodable && Load(store) == Failure(DecodeError)
    {
      var record := Make(name, age, email, phone, notes, timestamp);
      records := records + [record];
      var saved := Save(io);
      match saved
      case Pass => r := Success(record);
      case Fail(e) => r := Failure(e);
    }
  }

  /** Reopening the storage path of a collector whose store is in sync reproduces its records. */
  method Reopen(c: DataCollector) returns (d: Result<DataCollector, LoadError>)
    requires c.InSync()
    ensures d.Success? && fresh(d.value)
    ensures d.Success? ==> d.value.records == c.records && d.value.storagePath == c.storagePath
  {
    d := DataCollector.Open(c.store, c.storagePath);
  }
}
