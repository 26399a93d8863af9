# Contact collector: a Dafny model of `DataCollector`

The program collects contact records (name, age, email, phone, notes, plus a creation
timestamp) and keeps them as a JSON array in a single file. Its only component with logic is
`DataCollector` in `collector.py`: it loads the records once at construction, appends one record
per `add_record` call, and rewrites the whole file after every addition.

This project models that component:

- `json.dfy` (module `Json`): the JSON values the codec produces, as a datatype. The text form
  (indentation, `ensure_ascii=False`, UTF-8) is abstracted away.
- `records.dfy` (module `Records`): `Record` with its six fields, `asdict` (`ToMapping`) and keyword
  construction `Record(**item)` (`FromMapping`, `FromValue`), which succeeds only when the key set
  is exactly the six field names. Field values are generic JSON values, because a dataclass does
  not check its annotations when loading.
- `collector.dfy` (module `Collector`): the store as `Absent | Undecodable | Unparsable | Parsed(doc)`, the load
  rule (`Load`, `FromDocument`, `FromItems`), what a save writes (`Serialize`), and the class
  `DataCollector` with fields `storagePath`, `records` and `store`. The constructor can raise, so it
  is the static method `Open` returning a `Result`. `add_record` and `_save` are methods that
  update `records` and `store` in place.
- `wrappers.dfy` (module `Wrappers`): `Result` and `Outcome`, standing for raised exceptions.

The clock and the file system become parameters. `AddRecord` takes the timestamp that
`datetime.now().isoformat(timespec="seconds")` would produce. `Open` takes what reading the
storage path finds. `Save` and `AddRecord` take the file system's answer to the write:
written, refused at open (the file is untouched), or failed after the open truncated the file.
What such a failure leaves is an empty or partial array. When the cut falls on a character
boundary the text decodes but does not parse; when it falls inside a multi-byte UTF-8 character
(non-ASCII text is written unescaped) reading the text raises a decode error.

The central invariant is `DataCollector.InSync()`: reloading the store gives exactly the in-memory
records. `Open` establishes it. A successful `AddRecord` restores it, by the round trip
`SaveThenLoad`. A failed write breaks it. The source appends the record before saving, so after a
failed save the new record is in memory but not in the file. After a failure that truncated the
file on a character boundary, the next load silently finds no records at all; after one that cut
a character in two, the next construction raises the decode error, which the source does not catch.

Loading a top-level value that is not an array follows Python iteration. An empty object or an
empty string gives no records. A non-empty object yields its keys and a non-empty string its
characters; both are strings, so `Record(**key)` raises. A number, boolean or null cannot be
iterated.

## Model

| member | source | states |
|---|---|---|
| Records.ToMapping | collector.py:59-61 | the mapping `asdict` gives for a record has exactly the six declared field names as keys |
| Records.FromMapping | collector.py:18-27 | keyword construction succeeds iff the key set is exactly the six field names; on success the record's own mapping is the input mapping; any extra key is reported before missing fields, as all extra keys; a mapping that only lacks fields fails naming every missing field; never "not a mapping" |
| Records.Make | collector.py:47-54 | the record `add_record` builds maps the five fields to the given values and `timestamp` to the supplied timestamp |
| Records.FromValue | collector.py:44 | `Record(**item)` succeeds iff the item is a JSON object with exactly the six keys, and then the item is that record's mapping |
| Records.MappingRoundTrip | collector.py:18-27 | building a record from its own `asdict` mapping gives the same record back |
| Collector.FromItems | collector.py:44 | the comprehension succeeds iff every element builds a record; then it yields one record per element, in the same order |
| Collector.FromDocument | collector.py:41-44 | a parsed array loads iff all its elements build records, giving the comprehension's records, and otherwise fails with the first bad element's construction error; an empty object or string loads as no records; a non-empty object or string fails as not a mapping; a number, boolean or null fails as not iterable |
| Collector.Load | collector.py:37-44 | a missing or unparsable store gives an empty record list without error; content that is not valid UTF-8 fails with a decode error, which is not caught; a parsed array that loads gives exactly one record per element |
| Collector.Serialize | collector.py:59-61 | the saved document is an array with one object per record, each with exactly the six field names as keys |
| Collector.SaveThenLoad | collector.py:37-63 | loading the document `_save` writes reproduces the records field for field and in order |
| Collector.LoadThenSave | collector.py:44-61 | saving the records loaded from an array document writes that same document back |
| Collector.MismatchedElementFailsLoad | collector.py:44 | one element whose key set is not exactly the six field names makes the whole load fail with a record-construction error, not an empty or partial list |
| Collector.FirstBadElementDecides | collector.py:44 | a failed load reports the error of the first element that cannot be built, all earlier elements being valid |
| Collector.NameOnlyElementFails | collector.py:44 | a store holding `[{"name": "x"}]` fails to load, naming the five missing fields |
| Collector.DataCollector.FromLoaded | collector.py:33-35 | the new collector holds the given path, store and records |
| Collector.DataCollector.Open | collector.py:33-44 | a missing or unparsable store gives an empty record list; an undecodable one makes construction raise the decode error; otherwise construction fails exactly when loading fails, with the same error; it writes nothing, and the new collector is in sync with its store |
| Collector.DataCollector.Save | collector.py:59-63 | a successful save replaces the store with the serialisation of all records, which then reloads to those records; a failed write raises; a refused open leaves the store as it was; a failure after truncation leaves a store that reloads as no records when cut on a character boundary and fails to decode when cut inside a character |
| Collector.DataCollector.AddRecord | collector.py:46-57 | records grow by exactly one; earlier records and the storage path are unchanged; the new last record carries the five values and the timestamp and is the one returned; on success the store holds all records and reloads to them; a failed write raises after the append, leaving the store untouched when the open was refused, and after truncation a store that reloads as no records or, when a character was cut, fails to decode |
| Collector.Reopen | collector.py:33-44 | reopening the storage path of an in-sync collector yields a collector with the same records |

## Left out

- `_prompt` and `run_cli` (collector.py:66-98): interactive input and console output only.
- The JSON text format (indentation, non-ASCII output, key order in objects) and UTF-8 encoding: objects are maps, so key order and duplicate keys in a file are not modelled.
- Non-integral JSON numbers, NaN and infinities: `JNumber` holds integers only.
- The wall clock: the timestamp is a parameter of `AddRecord`.
- Real file-system behaviour: existence checks, reading and writing are abstracted as the `Store` value and a `WriteOutcome`. A write that fails after truncation is modelled by what its remains do on the next load (no parse, or no decode), not by the exact bytes left behind.
- Integer literals longer than the interpreter's integer string-conversion limit (4300 digits by default): parsing them raises a ValueError that is not a JSON decode error, so construction raises; the model parses them as ordinary `JNumber` values and loads them. The same limit makes serialising a record whose `age` is that long raise a ValueError before the file is opened; the model expresses that only when the caller passes the `Refused` outcome, since `Serialize` itself never fails.
- Nesting depth: parsing a deeply nested document raises a RecursionError, which is not a JSON decode error, so construction raises; the model can only hold such content as `Parsed(doc)` and loads it when the nesting sits inside a field value. Converting a record to a mapping and encoding it with indentation also recurse once per level, so saving a record holding a deeply nested value raises before the file is opened, possibly at depths the parser still accepted, which makes every later `add_record` raise. The model expresses that only when the caller passes the `Refused` outcome; `AddRecord` with `Written` models such a call as a success.
- Strings holding lone surrogates (from escapes such as `"\ud800"`): the JSON decoder accepts them, but a Dafny `string` cannot hold them, and writing them back fails with an encoding error after the file was truncated (only the `Truncated` outcome covers that write).
- Records.FromMapping: an unexpected-key error carries the whole set of extra keys, whereas the raised TypeError names only the first one in the mapping's order, which a map does not keep.
- Concurrent or external writers to the store: the source assumes one sequential process.
