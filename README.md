# logs_parser core in Dafny

This project models the core of a command-line log reporter. The reporter reads JSON log lines and groups them by a field (the url). It folds each group into an accumulator, optionally keeps only records whose `@timestamp` starts with a date prefix, and prints the groups sorted by count.

Modules:

- `Records` (records.dfy): a record is a map from field names to scalar values (`Str`, `Int`, `Float` over `real`). It also holds Python's `str()` of strings and integers, truthiness, and `startswith`/`endswith`.
- `Schemes` (schemes.dfy): the `Scheme` bundle, holding the group field, an optional predicate, a reducer, an optional sorting and the headers. It defines the two built-in reducers (sum/count and the incremental running mean), `create_scheme`, and `ReduceAll`, the fold of a reducer over one group's records. Next to them are the lemmas that give the resulting sum and arithmetic mean exactly.
- `Aggregation` (aggregation.dfy): the parser.
  - `Parser` is a class. Its insertion-ordered dictionary `coll` is a `map` plus the `seq` of its keys in first-seen order.
  - `Parse` is a loop proved against the pure fold `Run`, which is folded from one-record `Step`s.
  - The lemmas cover grouping, key order, counts, two calls versus one call, and the per-scheme accumulators.
  - `Aggregate` is the driver's loop over several files.
- `Report` (report.dfy): the stable count-descending sort that both schemes install. Also proved: the sort result is the only sequence that is descending and keeps each count's entries in input order.
- `Validation` (validation.dfy): the `--date` character check and the `.log` extension check.
- `Scenarios` (scenarios.dfy): the repository's test cases, over exact reals.

Numbers are `real`. Sums and means are therefore exact, and the tests' floating-point expectations (1.1, 0.55, 0.5, 2.0) hold exactly.

## Model

| member | source | states |
|---|---|---|
| Records.ToString | main.py:31 | `str()` of a group field: a string is its own key, and an integer's key is its canonical decimal spelling (an optional minus sign, then digits without a leading zero that read back as the integer). |
| Records.SpellingUnique | main.py:31 | An integer has only one canonical spelling, so ToString's contract fixes an integer's key exactly. |
| Records.PaddedNotSameKey | main.py:31 | The string "07" and the integer 7 give different keys, so records holding them fall into two groups. |
| Records.SpellsUnique | main.py:31 | No string is the spelling of two different integers, so `str()` never merges two integer keys. |
| Records.StrIntSameKey | main.py:31 | The string "7" and the integer 7 give the same key, so records holding either value share one group. |
| Schemes.Accepts | main.py:88 | The timestamp predicate accepts only records with a string `@timestamp`. With a non-empty date, it accepts exactly those whose `@timestamp` is a string starting with the date (the truthiness test adds nothing then). |
| Schemes.Passes | main.py:29 | The loop's guard: a record is processed iff the scheme has no predicate or the predicate accepts it. Step's contract and every lemma over PassingKeys and Matching are stated with it. |
| Schemes.KeyOf | main.py:31 | The key of a string group field is the string itself. The key of an integer field is that integer's canonical decimal spelling. |
| Schemes.Reduce | main.py:33 | Whichever reducer the scheme holds, the result keeps the group's first url (or takes the record's url for a new group) and counts one more record. |
| Schemes.SumCountReduce | main.py:93-99 | With no accumulator, the result is [url, 1, response_time]. Otherwise the url is kept, the count goes up by one, and the aggregate goes up by exactly the record's response time. |
| Schemes.RunningMeanReduce | main.py:110-119 | With no accumulator, the result is [url, 1, response_time]. Otherwise the url is kept and the count goes up by one. The new mean times the new count equals the old mean times the old count plus the new response time. |
| Schemes.ReduceAll | main.py:31-33 | Reducing a non-empty run of records gives an accumulator. Its count is the old count (0 if absent) plus the number of records, and its url is the old one or, if absent, the first record's url. |
| Schemes.SumCountFromSome | main.py:94-97 | Continuing a sum/count group with records rs keeps its url, adds \|rs\| to the count and adds exactly the sum of their response times to the aggregate. |
| Schemes.SumCountFold | main.py:93-99 | A sum/count group built from records rs is [rs[0].url, \|rs\|, exact sum of their response times]. |
| Schemes.RunningMeanFromSome | main.py:110-119 | Continuing an average group: the final mean times the final count equals the starting mean times the starting count plus the new response times. |
| Schemes.RunningMeanFold | main.py:110-119 | The incremental mean equals the arithmetic mean exactly: an average group built from rs is [rs[0].url, \|rs\|, sum/\|rs\|]. |
| Schemes.DefaultScheme | main.py:92-106 | `create_def_scheme`: group by url, sum/count reducer, count-descending sorting. With no predicate, every record passes, and a record is processable iff it has a `url` usable as a key and a numeric `response_time`. |
| Schemes.AverageScheme | main.py:109-126 | `create_avg_scheme`: group by url, running-mean reducer, count-descending sorting. It accepts and processes the same records as the default scheme. |
| Schemes.CreateScheme | main.py:80-89 | "average" selects the running-mean reducer and the avg headers. Every other report kind, absent included, selects sum/count. Both group by url and sort by count. With no date or an empty date there is no predicate and every record passes. With a non-empty date, a record passes iff `@timestamp` is a string that starts with the date. |
| Aggregation.Get | main.py:32 | `dict.get`: a value iff the key is present, and then the stored accumulator. |
| Aggregation.Run | main.py:28-33 | The parse loop as a fold of Step over the records. It carries no contract of its own; RunAppend, RunValid, RunOrder, KeysFirstSeen and RunPerKey below state its behaviour, and Parser.Parse is proved equal to it. |
| Aggregation.Step | main.py:28-33 | A rejected record leaves the state unchanged. A passing record's key gets reduce(previous-or-None, record), and every other key keeps its accumulator. A new key is appended to the key order; an existing key stays where it is. Well-formedness is preserved. |
| Aggregation.RunAppend | main.py:26-33 | Parsing A and then B into the same state equals parsing A + B once: the state is not reset between calls. |
| Aggregation.RunValid | main.py:31-33 | Parsing keeps the key list duplicate-free and equal to the map's key set. The old key order is a prefix of the new one, so no key is removed or moved. |
| Aggregation.RunOrder | main.py:31-33 | The key order after parsing is the first-seen order of the old keys followed by the passing records' keys. |
| Aggregation.StepOrder | main.py:31-33 | One more record extends the key order as first-seen order requires. |
| Aggregation.KeysFirstSeen | main.py:28-33 | For a fresh parser, the keys are exactly the distinct keys of the passing records, in first-seen order. |
| Aggregation.RunPerKey | main.py:28-33 | After parsing, each key's accumulator is its previous accumulator reduced, in order, by exactly the passing records with that key. |
| Aggregation.GroupCounts | main.py:28-33 | For either reducer, a key is present iff some passing record has it, and its count is the number of such records. |
| Aggregation.DefaultTotals | main.py:93-99 | Under sum/count, each group is [first url seen, number of passing records with that key, exact sum of their response times]. |
| Aggregation.AverageMeans | main.py:110-119 | Under the running mean, each group is [first url seen, number of passing records with that key, arithmetic mean of their response times]. |
| Aggregation.Values | main.py:42 | `coll.values()`: exactly one accumulator per key of the dictionary, as many as it has keys, listed in first-seen key order. |
| Aggregation.Parser.constructor | main.py:22-24 | A new parser holds the given scheme and an empty dictionary. |
| Aggregation.Parser.Parse | main.py:26-33 | The loop leaves the dictionary equal to Run(scheme, old dictionary, logs) and keeps it well formed. |
| Aggregation.Aggregate | main.py:38-42 | One parser is fed every file in turn. The rows returned are the scheme's report order of the values of a single parse over all files' records concatenated. |
| Report.SortByCount | main.py:104 | The result is a permutation of the input with non-increasing counts, and the entries of each count keep their input order (stability). |
| Report.SortByCountUnique | main.py:124 | Any count-descending sequence that keeps each count's entries in input order, as Python's stable `sorted(..., reverse=True)` produces, equals SortByCount's result. |
| Report.Rows | main.py:136 | With a sorting, the rows are descending by count, stable, and a permutation of the values. Without one, they are the values unchanged. |
| Validation.ValidateDate | main.py:72-77 | Corrected date check: returns the date iff it is non-empty and every character is a digit, 'T', ':' or '-'. Otherwise it fails with InvalidDate(date). |
| Validation.ValidateDateAsWritten | main.py:72-77 | The regex as Python runs it: also accepts such a string followed by one trailing newline. |
| Validation.TrailingNewlineAccepted | main.py:73 | "2025\n" is accepted by `validate_date` as written and rejected by the corrected date check. |
| Validation.ValidateLogFile | main.py:59-69 | Succeeds iff the file exists and the path ends with ".log". A missing file is reported first, then a bad extension. |
| Scenarios.DefaultSchemeScenario | tests/test_main.py:42-55 | Default scheme on the three-record input: groups ["x", 2, 1.1] and ["y", 1, 2.0], in that order. |
| Scenarios.AverageSchemeScenario | tests/test_main.py:58-71 | Average scheme on the same input: ["x", 2, 0.55] and ["y", 1, 2.0]. |
| Scenarios.NarrowDateScenario | tests/test_main.py:74-87 | Average scheme with date "2025-06-22": only ["x", 2, 0.5]. |
| Scenarios.BroadDateScenario | tests/test_main.py:89-96 | Default scheme with date "2025": ["x", 3, 2.0] and ["y", 1, 2.0]. |

## Left out

- Argument parsing with `argparse` (main.py:45-56), including the "no log file" error: command-line plumbing.
- The file-system lookup of `validate_log_file` is I/O. It is passed in as the boolean `fileExists`.
- `read_file_by_line` does file I/O and `json.loads`. Each file is given as an already-parsed `seq<Record>`, and records are taken as a finite sequence rather than a lazy iterator.
- `print_report`'s `tabulate` rendering, the index column and the `.3f` formatting come from a foreign library. Only the row order it prints (`Report.Rows`) is modelled.
- Floating-point rounding: numbers are `real`, so the model states exact sums and means where Python rounds.
- Aggregation.Parser.Parse: requires every record to be processable (`Admissible`). The source raises `KeyError` for a missing group, url or response_time field, and `AttributeError` for a truthy non-string `@timestamp`. It then stops with the earlier records already folded in; that partial state is not modelled.
- Schemes.HasReduceFields (schemes.dfy:59-61) requires a numeric `response_time` on every passing record, so the model excludes inputs the source accepts.
  - A key's first record stores `log["response_time"]` unchecked (main.py:99, main.py:119), so a string such as "slow" is reported as is.
  - Under sum/count, a second string for the same key is joined to the first by `+=` (main.py:96), with no error.
  - Sum/count raises `TypeError` at main.py:96 when one group mixes string and numeric response times.
  - The average scheme raises `TypeError` at main.py:114-115 on a key's second or later record, when the stored aggregate or the new response time is a string.
- Records.ToString: `str()` of a float is not modelled, so a group field must hold a string or an integer.
- JSON `null`, booleans, arrays and objects are not modelled as field values.
- Custom schemes are not modelled. The source's `Scheme` holds arbitrary callables, and the tests build one with their own reducer. The model fixes the reducer to the two built-ins and the predicate to the timestamp prefix the source builds.
- The reducers mutate the accumulator list in place. The model replaces the map entry with the new value; this is equivalent because each list is referenced only from its dictionary entry.
- The text of the `ArgumentTypeError` messages is not modelled; only the kind of error and the offending value are.
- Integer response times: under sum/count, Python's aggregate stays an `int` as long as every record's response time is an integer (main.py:96). Under the average scheme it becomes a float at a key's second record (main.py:114). The model stores every aggregate as a `real`; the values agree and only the type differs.

## Findings

| source | as written | input that shows it | evidently intended | confidence | as-written member | corrected member |
|---|---|---|---|---|---|---|
| main.py:73 | `re.match(r"^[0-9T:-]+$", date)`: Python's `$` also matches before a final newline | `"2025\n"` is accepted as a date, and the filter `startswith("2025\n")` then rejects every normal timestamp | accept only non-empty strings made of digits, `T`, `:` and `-` | medium, not executed | Validation.ValidateDateAsWritten (counterexample: Validation.TrailingNewlineAccepted) | Validation.ValidateDate |

`validate_date` is meant to accept the character class `[0-9T:-]+` over the whole string, as its error message (a date is expected) suggests. The code as written also lets one trailing newline through, which is the finding above.
