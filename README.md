# TTL lookup strategies, four ports

This project models the core of a micro-benchmark that compares two in-memory
representations of a DNS-style TTL record set. The benchmark has four ports:
Go, Python, C and Java.

- **Array strategy.** `ttl0_data` is an ordered list of entries. Each entry
  has a list of record-type tags (`types`) and a TTL (`value`). A lookup
  returns the value of the first entry whose tags contain the queried record
  type.
- **Map strategy.** `ttl0_data` maps a record type to a nested record. A
  lookup is `ttl0_data[recordType]["value"]`.
- **Benchmark driver.** It repeats one lookup `iterations` times. Only the
  last result is kept.

Each port has its own module, built over a shared decoded-JSON value
(`Json.JVal`; `Entries` holds the entry view shared by Python, C and Java):

- `GoTtl` (src/go/test_performance.go) uses the typed structs of the Go
  decoder.
- `PythonTtl`, `CTtl` and `JavaTtl` work on the decoded document, as their
  sources do.

The lookup loops are methods with loop invariants. Each one is proved equal to
a specification function. Those functions are characterised as first-match
searches: `GoTtl.FirstTagged`, `Entries.FirstTagged` and `CTtl.FirstQualified`.

`PortAgreement` encodes a Go fixture as the JSON document it came from. It
proves that on well-formed data all four ports return the same TTL, each in
its own "not found" encoding:

| port | not found |
|---|---|
| Go | `(0, false)` |
| Python | `None` |
| C | `-1` |
| Java | `null` |

Some port differences are pinned down:

- C skips a matching entry that has no `"value"`.
- Python treats a falsy record (null or an empty dict) as absent.
- Go accepts only numeric values.
- A missing `ttl0_data` gives `-1` in C and `null` in Java. In Python it
  raises an exception, which the model writes as a precondition.

The fixtures are immutable values, so no lookup can modify the data it is
given. The Go source passes the fixtures by pointer but only reads through it.

The ports differ from one another:

- Only Go returns a found flag. The other ports return a sentinel (`None`,
  `-1`, `null`).
- Only Go's map lookup checks the type of `"value"`.

## Model

| member | source | states |
|---|---|---|
| GoTtl.FirstTagged | src/go/test_performance.go:33-40 | the index found is the lowest whose `Types` contain the record type; no earlier entry, and with no index no entry at all, contains it |
| GoTtl.ArrayLookup | src/go/test_performance.go:33-41 | found exactly when some entry's `Types` contain the record type; the value is that of the lowest such entry; (0, false) otherwise, including for empty `TTL0Data` |
| GoTtl.GetTTLArray | src/go/test_performance.go:33-42 | the nested range loops with early return compute `ArrayLookup` |
| GoTtl.FirstTaggedAppend | src/go/test_performance.go:34-38 | the first match in `front + back` is the first in `front`, or else the first in `back` shifted by `|front|` |
| GoTtl.ArrayLookupAppend | src/go/test_performance.go:34-38 | entries after a match never affect the result; after a prefix with no match, the suffix alone decides |
| GoTtl.GetTTLObject | src/go/test_performance.go:44-59 | found if and only if the record key exists, its map has `"value"` and that value is numeric; then the number, else (0, false) (missing key, missing value, string/bool/null/object value) |
| GoTtl.GetTTLObjectLocal | src/go/test_performance.go:45 | the result depends only on `TTL0Data[recordType]`; other keys can be added or changed freely |
| GoTtl.BenchmarkArray | src/go/test_performance.go:61-69 | with `iterations >= 1` the result equals one array lookup; with no iteration it is 0 |
| GoTtl.BenchmarkObject | src/go/test_performance.go:71-79 | with `iterations >= 1` the result equals one object lookup; with no iteration it is 0 |
| Entries.FirstTagged | python/test_performance.py:8-10 | the index found is the first entry, in list order, whose `types` holds the record type string; none before it does, and with no index none does |
| PythonTtl.ScannableFirst | python/test_performance.py:8-10 | when every entry the loop reaches is readable, the first tagged entry holds `'value'`, so `entry['value']` does not raise |
| PythonTtl.GetTtlArray | python/test_performance.py:6-11 | requires `data['ttl0_data']` to be a list the loop can read without a KeyError; returns `'value'` of the first tagged entry, and `None` when no entry is tagged |
| PythonTtl.GetTtlObject | python/test_performance.py:13-18 | a non-None result is the `'value'` of a present, non-empty dict record; a present dict record with `'value'` yields it; a missing, null or empty record, or one without `'value'`, yields `None` |
| PythonTtl.Benchmark | python/test_performance.py:20-26 | with `iterations >= 1` (needed, or `result` is unbound) the result equals one call of the chosen lookup |
| CTtl.FirstQualified | c/test_performance.c:14-29 | the index found is the first entry that has a tag equal to the record type and also has `"value"`; no earlier entry qualifies |
| CTtl.GetTtlArray | c/test_performance.c:7-34 | -1 without `"ttl0_data"`; otherwise the integer reading of the first qualifying entry's `"value"`, or -1 if none qualifies |
| CTtl.TrailingEntryUnread | c/test_performance.c:14-29 | an entry after the first qualifying one is never read: a trailing entry whose `"types"` is a number leaves the input admissible and the result 1 |
| CTtl.FirstQualifiedSkips | c/test_performance.c:18-28 | an entry without `"types"`, or a matching entry without `"value"`, is passed over and the scan continues with later entries |
| CTtl.GetTtlObject | c/test_performance.c:36-50 | the integer reading of `ttl0_data[record_type]["value"]` when every step of that path exists; -1 when any is missing |
| CTtl.Benchmark | c/test_performance.c:52-67 | after `iterations >= 1` steps the local result holds one lookup's value; with none it was never assigned |
| JavaTtl.ScannableFirst | java/TestPerformance.java:13-19 | when the entries the loops reach are readable, the first tagged entry has a numeric `"value"` for `getAsInt` |
| JavaTtl.GetTTLArray | java/TestPerformance.java:7-24 | null without `"ttl0_data"`; otherwise the `"value"` of the first entry whose `"types"` has a string equal to the record type, or null |
| JavaTtl.GetTTLObject | java/TestPerformance.java:26-37 | non-null exactly when `"ttl0_data"` and the record are present; then the record's `"value"` |
| JavaTtl.Benchmark | java/TestPerformance.java:39-53 | `result` stays null with no iteration; otherwise it holds one call of the lookup `useArray` selects |
| PortAgreement.TaggedEntryJson | src/go/test_performance.go:35-36 | an encoded entry is tagged on the JSON side exactly when its Go `Types` contain the record type |
| PortAgreement.FirstTaggedJson | python/test_performance.py:8-10 | the Python/Java scan over encoded entries picks the index the Go scan picks |
| PortAgreement.FirstQualifiedJson | c/test_performance.c:14-29 | the C scan over encoded entries picks the index the Go scan picks |
| PortAgreement.PythonScannable | python/test_performance.py:8-10 | the Python loop can read every encoded fixture without a KeyError |
| PortAgreement.CReached | c/test_performance.c:14-29 | every entry the C loop reaches in an encoded fixture has an array of string tags |
| PortAgreement.JavaTagsReadable | java/TestPerformance.java:16-17 | every encoded tag is a string, so `getAsString` succeeds |
| PortAgreement.JavaScannable | java/TestPerformance.java:13-19 | the Java loops can read every encoded fixture without an exception |
| PortAgreement.ArrayPythonAgrees | python/test_performance.py:6-11 | on an encoded fixture, Python returns Go's value, or `None` where Go reports not found |
| PortAgreement.ArrayCAgrees | c/test_performance.c:7-34 | on an encoded fixture, C returns Go's value, or -1 where Go reports not found |
| PortAgreement.ArrayJavaAgrees | java/TestPerformance.java:7-24 | on an encoded fixture, Java returns Go's value, or null where Go reports not found |
| PortAgreement.ArrayPortsAgree | src/go/test_performance.go:33-42 | all four array lookups agree on well-formed data, up to their not-found encodings |
| PortAgreement.ObjectPortsAgree | src/go/test_performance.go:44-59 | when every record has a numeric `"value"`, all four map lookups agree up to their not-found encodings |
| PortAgreement.StringValueDiverges | src/go/test_performance.go:48-55 | with a string `"value"` `"300"`, Go reports not found, Python returns the string and C parses it to 300 |

## Left out

- Reading the fixture files and decoding JSON (`os.ReadFile`/`json.Unmarshal`, `json.load`, `json_object_from_file`, Gson) are library I/O. The model starts from the decoded values.
- The fatal load-error paths (a message on stderr, then a non-zero exit) only abort the program.
- Wall-clock timing, millisecond/microsecond rescaling, per-operation averages, the speedup ratio and the report printing are time I/O, floating point and output. The benchmarks are modelled only for the result their loop leaves behind.
- Floating point: JSON numbers are modelled as integers. Go's `float64` to `int` truncation is abstracted away, and so are Go's `int` and `int64` type-switch arms, which `json.Unmarshal` never produces. All three fold into one numeric case.
- `CTtl.GetInt` leaves out `json_object_get_int`'s clamping to the 32-bit range and `strtoll`'s saturation. C's `int` and Java's `Integer` are unbounded here.
- `CTtl.GetTtlArray` requires every tag of every entry the loop reaches (up to the first qualifying entry) to be a string. json-c's `json_object_get_string` rendering of a non-string tag is not modelled, so inputs with numeric or boolean tags in those entries, which C compares by their text, are excluded, as are tags after the match in the qualifying entry. A null tag would crash `strcmp`. Comparison past an embedded NUL character is not modelled either.
- `CTtl.Benchmark`: the source discards the loop's `result` and returns only the elapsed time. The model exposes that local, as `None` before the first step.
- `JavaTtl.GetTTLArray` requires every tag it reads to be a string and the matching entry's `"value"` to be a number. Gson's `getAsString` on numbers and booleans, and `getAsInt` on numeric strings, are not modelled.
- `JavaTtl.GetTTLObject` requires a present record's `"value"` to be a number, for the same reason.
- `JavaTtl.Benchmark`: as in C, the source discards `result`. The model exposes it.
- `PythonTtl.GetTtlArray` requires `ttl0_data` and each reached `types` to be lists. Python's `in` on a string (substring test) or a dict (key test) is not modelled, nor is a loop over an empty dict or empty string as `ttl0_data`, which also returns `None`.
- Uncaught exceptions (Python `KeyError`, `TypeError` and `AttributeError`; Java `NullPointerException` and `ClassCastException`) are preconditions, not error results. They state exactly what each loop reads before it returns.
- The function pointer of the Python and C drivers is the `Entries.Strategy` selector.
