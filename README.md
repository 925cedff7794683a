# civicPulse complaint data-access layer, modelled in Dafny

The model covers `handlers.py` of civicPulse, a small civic-complaint tracker.
That file is a data-access layer over a MongoDB collection of complaints. It
has two parts:

- **Validator** (module `Validation`, `validation.dfy`). A schema of ten
  required fields, checked in declaration order. Nine fields must be `str`.
  `urgency_score` must be `int`, and a `bool` passes because Python's `bool`
  is a subclass of `int`. The first missing field raises a missing-field error
  naming it. The first present field of the wrong type raises a type error
  naming it and the expected type. Keys outside the schema are ignored. The
  loop is the method `Validate`, proved against the recursive specification
  `FirstError`, and the lemmas state the validator's promises about `FirstError`.
- **Repository** (module `Repository`, `repository.dfy`). The collection
  becomes the class `ComplaintStore`:
  - `table` maps each native key to its document;
  - `order` lists the keys in insertion order;
  - `nextKey` is a counter that makes each inserted key fresh;
  - `now` is the latest clock reading.

  `Create`, `Update` and `Delete` are methods that change the store. `Update`
  and `Create` also write into the caller's dictionary, a `Values.Dict`
  object, because the source writes the timestamps into the caller's
  dictionary in place. `Get` and `ListAll` are functions that read the store.
  The invariant `Valid()` says four things:
  - printing a key and parsing it back gives the same key;
  - every stored key is below `nextKey`;
  - `order` lists every stored key exactly once;
  - every stored document has an `updated_at` timestamp no later than `now`.

Substitutions for what the model cannot see:

- `ObjectId(s)` becomes the store's `parse: string -> Option<Key>`. It returns
  `None` where the real coercion raises, and `ValidId(s)` is `parse(s).Some?`.
  `str(inserted_id)` becomes `show`. Both are fixed when the store is built.
  The only thing assumed about them is that a key printed and parsed back is
  the same key.
- `datetime.utcnow()` becomes the clock readings passed to each operation.
  A reading counts whole milliseconds, the precision a BSON date stores.
  Each reading must be no earlier than the latest one the store has seen: the
  clock never goes backwards.
- `Values.Value` tells apart only what the validator checks: `Str`, `Int`,
  `Bool`, `Time` (a `datetime`), and `Other(tag)` for every other value a
  document field can hold, where the tag keeps two different such values
  different. Which values MongoDB can actually store is not modelled (see
  "## Left out").

`Example.SampleScenario` creates the file's own example complaint in a
fresh store and then lists the store; the listing step is the model's own
addition, since the example block only creates and prints. The contracts give
exactly one listed document afterwards, the one for "John Doe".

Two consequences of the code that the contracts make explicit:

- `created_at` is not write-once. An update whose fields include
  `created_at` overwrites it through `$set` (handlers.py:51-54), and
  `ComplaintStore.Update` does the same.
- `update_complaint` returns `modified_count > 0` (handlers.py:56). So
  `ComplaintStore.Update` returns whether the merged document differs from
  the stored one. With a clock that only never goes backwards, an update that
  changes nothing and reuses the stored `updated_at` reports false. `Update`
  proves that it reports true whenever the millisecond reading has moved past
  the store's latest one. After an update, the document's `updated_at` is the
  new reading, which is no earlier than the one it replaces; it is strictly
  later only if the clock advanced by at least one millisecond.

## Model

| member | source | states |
|---|---|---|
| `Validation.Validate` | handlers.py:20-25 | The loop over the schema returns exactly the first failure in declaration order, and returns None iff every schema field is present with its declared type |
| `Validation.FirstErrorNoneIff` | handlers.py:21-25 | Validation passes iff every field of the list is present with its declared type (both directions) |
| `Validation.FirstErrorAt` | handlers.py:21-25 | If every field before position k conforms and field k does not, field k decides the outcome: a missing-field error naming it if absent, otherwise a type error naming it and its expected type. So an earlier missing field wins over a later type mismatch |
| `Validation.FirstErrorLocated` | handlers.py:21-25 | Every failure comes from some position k whose field does not conform while all earlier fields do, and the error is the one for field k |
| `Validation.FirstErrorIgnoresOtherKeys` | handlers.py:21-25 | Two records that agree on the checked fields (presence and value) get the same outcome |
| `Validation.ExtraKeysNeverReject` | handlers.py:7-25 | Adding keys outside the schema never changes the outcome, so extra keys never cause a rejection |
| `Validation.SchemaAcceptsExactly` | handlers.py:7-25 | Validation passes iff the nine text fields are `Str` and `urgency_score` is `Int` or `Bool` (bool counts as int) |
| `Validation.SoleFaultReported` | handlers.py:7-25 | A record whose only faulty field is field k is rejected with a missing-field error naming it when absent, otherwise with a type error naming it and its expected type |
| `Validation.SampleComplaintAccepted` | handlers.py:71-82 | The example complaint passes validation |
| `Repository.ComplaintStore.constructor` | mongo_client.py:9-11 | A new store handle is valid and empty, with the given identifier coercion and clock reading |
| `Repository.ComplaintStore.Get` | handlers.py:34-40 | A well-formed identifier of a stored document gives exactly that document. A malformed or absent identifier gives the empty record, the same answer in both cases. In a valid store the empty record occurs only when nothing is found |
| `Repository.ComplaintStore.ListAll` | handlers.py:42-46 | With no query, the result has one document per stored key: every stored key exactly once, each with its stored fields, and as many documents as the store holds |
| `Repository.ComplaintStore.Create` | handlers.py:5-32 | On a validation failure: the first failing field's error, with the store and the caller's dictionary unchanged. On success: a fresh key whose string form parses back to it; the caller's dictionary gains `created_at` and `updated_at` from two successive readings; the store gains exactly that entry, nothing else changes, `Get` of the returned id yields it; the invariant is kept |
| `Repository.ComplaintStore.Update` | handlers.py:48-58 | The caller's dictionary always gains `updated_at`. For a malformed or absent id: false and an unchanged store. For a stored id: the document becomes the old one overridden by the update fields, other fields and other documents unchanged, and the result says whether the document changed. The result is true whenever the millisecond clock reading advanced. The new `updated_at` is the new reading, no earlier than the replaced one. The invariant is kept |
| `Repository.ComplaintStore.Delete` | handlers.py:60-66 | The result is true iff the id is well formed and stored. Then exactly that entry is removed, from the listing order too; otherwise the store is unchanged. Afterwards `Get` of the id yields the empty record. The invariant is kept |
| `Example.SampleScenario` | handlers.py:69-89 | Creating the example complaint in an empty store succeeds with a parseable id. The listing then holds exactly one document, the example plus its two timestamps, resident "John Doe" |

## Left out

- `mongo_client.py` is not modelled beyond the store handle. That covers
  reading the connection string from the environment, connecting, and the
  `print`; none of it has logic.
- The id format is not modelled. `ObjectId` parsing stays abstract (`parse`), as
  does `str` of an ObjectId (`show`). ObjectIds are 96-bit values, but the
  model's keys are unbounded naturals, so id exhaustion is not modelled.
- How `insert_one` picks a new id is reduced to a counter. The contracts of
  `Create` and the constructor expose that counter, so in the model
  successive creates in a fresh store return keys 0, 1, 2, .... In the source
  only freshness holds: the new key is not in the collection before.
- `insert_one` adds `_id` to the caller's dictionary; the model leaves this
  out. A stored document's `_id` is its key (`Document.id`, the `table` key),
  not a field of its `Record`.
- Errors raised by the store are left out. `create_complaint` lets them
  propagate, and the bare `except` in get/update/delete turns them into `{}`
  or false. Examples are an unreachable server, and a `$set` of `_id` or of
  a dotted path.
- The model assumes `$set` updates only top-level fields. Dotted keys that
  address nested fields are left out.
- MongoDB's query language is left out of `get_all_complaints`. Only the
  `None`/`{}` query is modelled, and the order is taken to be insertion order.
- Real wall-clock time is left out. Readings are parameters that never go
  backwards.
- `Repository.ComplaintStore.Create`: a caller-supplied `_id` is treated
  as an ordinary field. `insert_one` would instead key the document by it
  (or raise a duplicate-key error), return it as the id, and `get_complaint`
  of a non-ObjectId `_id` would then give `{}`. The model always keys a new
  document by a fresh counter key.
- The model's store starts from an empty collection. The real
  `complaints` collection (mongo_client.py:11) is persistent and may already
  hold documents; `Example.SampleScenario`'s single listed document depends
  on the empty start.
- Values other than `str`, `int`, `bool` and `datetime` are told apart only
  by an abstract `tag`. Their Python content and how MongoDB compares them
  are not modelled.
- `Repository.ComplaintStore.Create`: does not model pymongo's BSON
  encoding errors. `insert_one` encodes the document before writing and
  raises for an int outside the signed 64-bit range (`OverflowError`) or a
  value BSON cannot encode, such as a Python `set` (`InvalidDocument`); the
  error propagates and nothing is stored. The model stores such values and
  returns `Ok`.
- `Repository.ComplaintStore.Update`: does not model the same encoding
  errors in `update_one`. There the bare `except` turns them into false with
  the document unchanged; the model applies the update and reports whether
  the document changed.
- Python subclasses of `str` and `int` other than `bool` are left out. They
  would also pass `isinstance`.
- The printing in the example block is left out.
- `Repository.ComplaintStore.Update`: does not promise true for every stored id,
  because the code returns `modified_count > 0`. The result is true only when
  the document changed, which is guaranteed once the clock has advanced by
  at least one millisecond.
- `Repository.ComplaintStore.Create` and `Repository.ComplaintStore.Update`:
  clock readings count milliseconds, the precision BSON stores a `datetime`
  in. `datetime.utcnow()` has microseconds: MongoDB keeps the reading cut to
  the millisecond, while the caller's dictionary in the source keeps the
  full reading. The model drops the sub-millisecond part in both places, so
  its caller's dictionary holds the cut reading too. Two readings within
  the same millisecond are the same reading here, and "the clock advanced"
  means by at least one millisecond.
