# jsondb: caching store and scanner, modelled in Dafny

This project models the core of `jsondb`, a small Go record store that keeps
one JSON file per record in a directory. It has three parts:

- **The file-backed store `Db`** (`JsonDb` module, `jsondb.dfy`). The directory
  is a map from id to record. `Read`, `Update` and `Delete` check
  whether the file exists before acting, and report a `NotFoundError` carrying
  the id when it does not. `Create` stamps the entry with the generator's id and
  the creation time, then writes it without an existence check. Each operation is
  a class method, tied to a value-level function (`ReadResult`, `CreateResult`,
  …) that gives its outcome.
- **The caching decorator `cachingdb`** (`Caching` module, `cache.dfy`): the class
  `CachingDb`, with fields `cachedEntries`, `cachedIds` (Go's `map[string]bool`
  that only ever holds `true`, so a set) and the one-shot flag `initd`. Every
  mutation goes to the inner store first. The cache changes only after that call
  succeeds. `Ids` seeds the known ids from the store's listing on its first
  successful call. Each method is tied to a function on `CacheState`
  (`CacheCreate`, `CacheRead`, …). The invariant `Coherent` relates the
  cache to the store's records. The lemmas prove that every operation, and every
  run of operations, preserves it. They also prove the cache transparent: a
  fault-free read or listing through the cache agrees with the same fault-free
  call made on the store directly. The cache also shields cache hits and seeded
  listings from faults. Those calls never consult the store, so they succeed
  where a direct call could fail (`ReadHitIsLocal`, `SeededIdsSkipStore`).
- **The forward-only `scanner`** (`Scanning` module, `scanner.dfy`). It snapshots
  the listing, its length and a position; `Scan` moves the position and `Read`
  reads the current id through the decorator.

`errors.dfy` holds the error taxonomy, `NotFoundError` with its message and
`IsNotFound`. `entries.dfy` holds the record value with its three hooks
(`AssignId`, `Created`, `Modified`) and the enumeration of a set of ids.

Behaviour of the code worth knowing:

- The scanner starts at position 0 (scanner.go:24), on the first id. The first
  `Scan` therefore moves to the second id. Over N ≥ 1 ids, `Scan` returns true
  N − 1 times (`FreshScannerMovesLengthMinusOneTimes`).
- The decorator expects the inner `Create` to return `(id, error)` and the inner
  store to have `ids()`. `Db` as written has neither (jsondb.go:70 returns only
  an error). The model gives `Db.Create` the decorator's signature: it returns
  the generated id. It also adds `Db.Ids`, the directory listing that cache.go:86
  calls.
- The cache is transparent only up to the entry's id field. `Update(id, e)`
  caches the caller's `e`, whose own id need not be `id` (cache.go:79). `Db.Read`
  always assigns `id` after decoding (jsondb.go:64). `Transparency` states the
  agreement that does hold; `UpdateKeepsCallersId` gives a two-call run where the
  cached and direct reads differ in that field.

Environment inputs are parameters:

- the id generator's result is `newId`;
- `time.Now()` is `now`, a `Time` that nothing in the model compares or computes with;
- the filesystem's and the JSON encoder's behaviour during a call is a `Fault`.
  `StatFault`: checking the file fails for a reason other than its absence.
  `IoFault`: a later read, decode, encode, write or remove step fails.
  `Create` checks no file, so for it either kind is a failed encode or write.
  A fault carries a filesystem or encoding error (`FsError`), never a not-found
  error, and the call returns that error unchanged.

Go's `nil` error is `None`.

## Model

| member | source | states |
|---|---|---|
| `Errors.NotFoundError.Error` | errors.go:9-11 | the message is the fixed prefix "Entity not found #" followed by exactly the carried id |
| `Errors.ErrorInjective` | errors.go:10 | two not-found errors with the same message carry the same id |
| `Errors.IsNotFound` | errors.go:13-16 | true exactly for a not-found error, whatever its id; false for every other kind and for no error |
| `Entries.Enumerate` | cache.go:96-99 | lists every id of a set exactly once and nothing else |
| `JsonDb.ReadResult` | jsondb.go:44-67 | success iff no fault and the record exists; then the entry is the stored record with the requested id assigned; on failure the entry is untouched; an absent id gives a not-found error carrying it, and a not-found error means the id is absent; a stat failure, or a later failure on a present record, returns the fault's error unchanged |
| `JsonDb.CreateResult` | jsondb.go:70-85 | the entry is always stamped with the generated id and the creation time; on success the record is written under that id, overwriting any record already there, and no other record changes; on failure nothing is written and the fault's error is returned |
| `JsonDb.DeleteResult` | jsondb.go:89-101 | an absent id gives a not-found error carrying it, and a not-found error means the id is absent; success removes exactly that record; a stat failure, or a later failure on a present record, returns the fault's error; failure changes nothing |
| `JsonDb.UpdateResult` | jsondb.go:105-124 | an absent id is reported, with a not-found error carrying it, before anything is stamped or written, and a not-found error means the id is absent; otherwise the entry is stamped with the modification time, and on success written under the id with all other records unchanged; a stat failure, or a later failure on a present record, returns the fault's error and writes nothing |
| `JsonDb.IdsResult` | cache.go:86 | the listing is exactly the ids of the records, or the fault's error and no ids |
| `JsonDb.CreateThenRead` | jsondb.go:44-85 | a record created under id x reads back as the caller's entry with id x and the creation time, other fields unchanged |
| `JsonDb.UpdateThenRead` | jsondb.go:105-123 | an updated record reads back as the given entry with the modification time and the id it is stored under |
| `JsonDb.DeleteThenRead` | jsondb.go:89-100 | after a successful delete, reading the id reports it not found |
| `JsonDb.Db.constructor` | jsondb.go:17-25 | a store over a directory holds the directory's records |
| `JsonDb.Db.Read` | jsondb.go:44-67 | returns the caller's entry and error given by `ReadResult` and changes nothing |
| `JsonDb.Db.Create` | jsondb.go:70-85 | the new records, id, entry and error are those of `CreateResult` |
| `JsonDb.Db.Delete` | jsondb.go:89-101 | the new records and error are those of `DeleteResult` |
| `JsonDb.Db.Update` | jsondb.go:105-124 | the new records, entry and error are those of `UpdateResult` |
| `JsonDb.Db.Ids` | cache.go:86 | lists every record's id exactly once, or returns the error and no ids |
| `Caching.StepKeepsCoherence` | cache.go:24-102 | every operation keeps cached ids known, known ids stored, known ids equal to the stored ids once seeded, and cached records equal to stored ones up to the id; the store ends as the same call made directly leaves it |
| `Caching.FailedStepLeavesCache` | cache.go:24-94 | an operation that returns an error leaves cached entries, known ids and the flag exactly as they were |
| `Caching.StepTouchesOnlyTarget` | cache.go:31-93 | an operation changes the cache only at the id it concerns; listing never changes cached entries and never drops a known id; the flag is never cleared |
| `Caching.ReadHitIsLocal` | cache.go:47-62 | a hit returns the cached record with no error and unchanged state, whatever the store holds and however the filesystem behaves |
| `Caching.ReadAgrees` | cache.go:46-72 | under coherence a miss is exactly the store's read, whatever the fault; a fault-free read, hit or miss, agrees with the store's fault-free read up to the id field |
| `Caching.IdsAgree` | cache.go:84-101 | under coherence a fault-free listing through the decorator gives exactly the store's ids |
| `Caching.SeededIdsSkipStore` | cache.go:85-101 | once seeded, listing returns the known ids unchanged and never fails, whatever the store holds |
| `Caching.FirstIdsMerges` | cache.go:85-94 | the first successful listing unions the store's ids into the known ids and sets the flag; a failed one returns no ids and the error and changes nothing |
| `Caching.CreateThenReadHits` | cache.go:24-62 | after a successful create returning x, reading x through the cache yields the stamped entry, consults nothing and changes nothing |
| `Caching.CreatedIdIsListed` | cache.go:31-101 | an id created after seeding is listed by the next listing even when the store could not be listed again |
| `Caching.RunKeepsCoherence` | cache.go:9-102 | any run of operations keeps the decorator coherent and leaves the store as the direct run would |
| `Caching.Transparency` | cache.go:5-102 | after any run through a fresh decorator, a fault-free read agrees with a fault-free read on a directly driven store up to the id field, and a fault-free listing equals that store's |
| `Caching.UpdateKeepsCallersId` | cache.go:79 | after creating "a" and updating it with an entry whose id is "b", a cached read of "a" has id "b" while a direct read has id "a" |
| `Caching.CachingDb.constructor` | cache.go:9-15 | a new decorator has no cached entries, no known ids, the flag clear, and is coherent |
| `Caching.CachingDb.Create` | cache.go:24-34 | forwards to the store; on failure returns its id and error with the cache untouched; on success caches the stamped entry and marks the id known; stays coherent |
| `Caching.CachingDb.Delete` | cache.go:36-44 | forwards to the store; only on success removes the id from both maps; stays coherent |
| `Caching.CachingDb.Read` | cache.go:46-72 | a hit copies the cached record without consulting the store; a miss delegates and, only on success, caches the filled entry and marks the id known; stays coherent |
| `Caching.CachingDb.Update` | cache.go:74-82 | forwards to the store; only on success caches the stamped entry and marks the id known; stays coherent |
| `Caching.CachingDb.Ids` | cache.go:84-102 | consults the store only while unseeded; returns every known id exactly once, or no ids and the error with nothing changed |
| `Scanning.ScansFrom` | scanner.go:34-41 | the i-th of successive scans from a position returns true exactly when an id remains after position + i, so exhaustion is permanent |
| `Scanning.PosAfterScans` | scanner.go:34-41 | each true scan moves the position by one; the position never decreases and stops at the last index |
| `Scanning.FreshScannerMovesLengthMinusOneTimes` | scanner.go:24-41 | over N ≥ 1 ids a fresh scanner's first N − 1 scans return true and all later ones false, ending on the last id |
| `Scanning.Scanner.constructor` | scanner.go:24 | snapshots the ids, sets the position to 0 and the length to the number of ids |
| `Scanning.Scanner.Scan` | scanner.go:34-41 | moves by exactly one and returns true when the position is before the last id, otherwise returns false with the position unchanged; the position stays within the snapshot |
| `Scanning.Scanner.Read` | scanner.go:43-45 | reads the id at the current position through the decorator; needs a position inside the snapshot |
| `Scanning.Scanner.Length` | scanner.go:47-49 | returns the snapshot's length, which scanning never changes |
| `Scanning.NewScanner` | scanner.go:18-25 | propagates a listing error and builds no scanner; otherwise builds a fresh scanner at position 0 over a duplicate-free snapshot of the known ids |

## Left out

- Filesystem calls (`os.Stat`, `ioutil.ReadFile`/`WriteFile`, `os.Remove`, `os.Mkdir`, `path.Join`) and the panic in `New`: the directory is a map and every non-absence failure is an opaque `Fault`.
- Ids that are not plain file names: the model assumes every id is a single, non-empty path segment, not `.` or `..`, with no `/`. Go joins the id onto the directory with `path.Join`, so other ids name other paths. `Delete("")` stats and removes the directory itself: on an empty directory it succeeds, while the model reports not-found. `Read("a/../b")` returns record `b` with its id set to `"a/../b"`, while the model reports not-found.
- JSON encoding and decoding: a written record reads back unchanged. A failing decode is modelled as leaving the caller's entry untouched. In Go it may have filled some fields. Go's merge of decoded fields into a non-empty target is also not modelled.
- A failing write is modelled as writing nothing; a partly written file is not modelled.
- The message text of filesystem and encoding errors: only the not-found message is defined.
- `time.Now()` and the id generator: they are parameters. Timestamps are never compared or computed with, and the generator's ids are not assumed unique.
- The reflection-based copy on a cache hit: it is a plain value assignment. Go pointer aliasing between the caller's entry and the cached one is not modelled, so later changes to a caller's entry do not reach the cache.
- Go's map iteration order in `ids()`: the result is any duplicate-free sequence of the known ids. The capacity hint is ignored.
- The pointer-versus-value test in `IsNotFound`: a not-found error is one constructor.
- The store interface: the decorator always wraps the file-backed `Db`, so decorators stacked on decorators are not modelled.
- The scanner always holds a decorator; a scanner over a raw `Db` is not modelled.
- Concurrency, and writers other than the decorator: the invariant assumes the decorator is the store's only writer, which cache.go:5-8 requires.
