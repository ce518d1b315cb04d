# europe_pmc — a verified model of term resolution and the batch loop

`europe_pmc` resolves bibliographic identifiers against the Europe PMC REST
service. This project models its decision logic and proves properties of
it. The network is replaced by values given as inputs.

- **Terms** (`europe_pmc/util/__init__.py`, `check_term_type`). A search
  term is classified as `pmcid`, `pmid`, `doi` or `title`.
  - The two regular expressions are applied with `re.match`, so each is a
    prefix test. They are modelled as fixed-width atom patterns.
  - `CheckTermTypeRules` states each tag exactly as the if/elif chain
    decides it.
- **Lookup** (`europe_pmc/core/api.py`).
  - `Search` and `Article` normalise a decoded reply into one record that
    always carries `_error`.
  - `FetchData` and the imperative `Fetch` route a term by its type, stamp
    `_search`, and add `pdf_url` exactly when `pmcid` is truthy.
  - `PMCResult` is a class. Its `data` and `pmcid` never change. Its
    `outfile` is assigned by the batch loop. Its attributes are read from
    the record, and `Save` reports whether there is a `pdf_url`.
- **Batch** (`europe_pmc/bin/main.py`, `cli` lines 30-72).
  - `ExpandTerms` turns arguments into terms. A file's lines are given as
    data.
  - `ProcessTerms` is the per-term loop: `failed`, de-duplication by pmid,
    the `hasPDF` check and the output-path template.
  - Both methods are proved against the specification functions
    `Expansion` and `Run`. `Run` is a fold of `Step` over the fetched
    records, and the lemmas about it prove:
    - every term is accounted for at most once, in term order;
    - pmids in `results` are distinct, and the first occurrence wins;
    - each mode produces the results and failures stated below.

Three things stand for code outside the model:

- The service is a `Server` value: the `result` object of `/article` for
  each source and id, and the `hitCount` and result list of `/search` for
  each query.
- `str.format(**record)` is a `Formatter` function that returns a string, a
  KeyError or another error.
- The file system is folded into the `Arg` datatype. An argument for which
  `Path(each).is_file()` holds arrives as `FileArg` with the file's lines.
  Any other argument is a `TextArg`.

A few Python definitions are modelled as plain functions:

- `Get` is `dict.get`.
- `PMCResult.Attr` is the attribute read: the record's value, or None where
  the read raises AttributeError.
- `Truthy`, `PyStr` and `Strip` are truth value, `str()` and `str.strip()`.

The loop body reads attributes of the result directly, and a missing one
raises AttributeError:

- A record without `_error` raises at `res._error` (europe_pmc/bin/main.py:46).
  Records built by `fetch` always carry `_error`. The loop lemmas range over
  any records, so the model covers this case.
- A record without `pmid` raises at `res.pmid` (europe_pmc/bin/main.py:51).
- A record without `hasPDF` does not count as a record without a PDF.
  Outside info mode, `res.hasPDF` raises (europe_pmc/bin/main.py:59).
- Only KeyError falls back to `<term>.pdf` (europe_pmc/bin/main.py:63-69).
  Other formatting errors raise, as does `None.format` when `-o` was not
  given. Either raises only once a term reaches the template step: that term
  has no lookup error, a new pmid, and `hasPDF` other than 'N', outside info
  mode. A run in which no term gets that far finishes normally.

An exception the loop does not catch is reported as `aborted`. The model
says nothing about the lists after an abort.

## Model

| member | source | states |
|---|---|---|
| `Terms.MatchPrefixAt` | europe_pmc/util/__init__.py:60 | `re.match` of a fixed-width pattern holds iff the string is at least as long as the pattern and every atom accepts the character at its position (anchored at the start only) |
| `Terms.PmcidPatternShape` | europe_pmc/util/__init__.py:60 | `pmc\d{7}` with IGNORECASE matches iff the first three letters are p, m, c in any case and the next seven characters are digits |
| `Terms.DoiPatternShape` | europe_pmc/util/__init__.py:64 | `\d{2}\.\d{4}/` matches iff the string starts with two digits, '.', four digits, '/' |
| `Terms.CheckTermTypeRules` | europe_pmc/util/__init__.py:57-68 | each of the four tags is returned iff its own rule holds and no earlier rule does (pmcid, then pmid, then doi, then title) |
| `Terms.TypeNamesDistinct` | europe_pmc/util/__init__.py:61-67 | the four tag strings are distinct, so the tag identifies the type |
| `Terms.PmcidIgnoresSuffix` | europe_pmc/util/__init__.py:60-61 | any term starting with a PMCID shape is a pmcid whatever follows |
| `Terms.DigitsArePmid` | europe_pmc/util/__init__.py:62-63 | a non-empty all-digit term is a pmid |
| `Terms.DoiShapeIsDoi` | europe_pmc/util/__init__.py:64-65 | a term starting with the DOI shape is a doi (it can be neither a pmcid nor all digits) |
| `Terms.DecimalIsPmid` | europe_pmc/util/__init__.py:62-63 | the decimal text of any natural number is a pmid |
| `Terms.PmcidWithTrailingText` | europe_pmc/util/__init__.py:60-61 | "PMC12345678x" is a pmcid |
| `Terms.PmcidMixedCase` | europe_pmc/util/__init__.py:60-61 | "pMc1234567" is a pmcid |
| `Terms.ShortPmcidIsTitle` | europe_pmc/util/__init__.py:60-67 | "PMC123456" (six digits) is a title |
| `Terms.EmptyIsTitle` | europe_pmc/util/__init__.py:62-67 | the empty term is a title, since `"".isdigit()` is false |
| `Terms.FiveDigitRegistrantIsTitle` | europe_pmc/util/__init__.py:64-67 | "10.12345/x" is a title: the pattern wants exactly four digits before '/' |
| `Terms.DemonstrationPmid` | europe_pmc/core/api.py:92 | "30003000" is a pmid |
| `Terms.DemonstrationPmcid` | europe_pmc/core/api.py:93 | "PMC6039336" is a pmcid |
| `Terms.DemonstrationDoi` | europe_pmc/core/api.py:94 | "10.1007/s13205-018-1330-z" is a doi |
| `Terms.DemonstrationTitle` | europe_pmc/core/api.py:98 | "ngs" is a title |
| `PyValues.IntToDecimalRoundTrip` | europe_pmc/core/api.py:74 | `str(count)` is well-formed integer text, has a leading '-' iff the count is negative, and reads back as the count |
| `PyValues.StripRemovesOuterSpace` | europe_pmc/bin/main.py:35 | `line.strip()` is empty iff the line is all whitespace; otherwise it starts and ends with non-whitespace and is a slice of the line with only whitespace around it |
| `PyValues.StripIdempotent` | europe_pmc/bin/main.py:35 | stripping twice equals stripping once |
| `PyValues.SplitPiecesLackSeparator` | europe_pmc/bin/main.py:35 | no piece of `s.split(',')` contains ',' |
| `PyValues.SplitJoin` | europe_pmc/bin/main.py:35 | `','.join(s.split(','))` gives `s` back |
| `PyValues.JoinSplit` | europe_pmc/bin/main.py:35 | splitting the join of comma-free pieces gives the pieces back |
| `Lookup.Search` | europe_pmc/core/api.py:58-76 | `_error` is always present; one hit gives that hit's fields with `_error` "" (overriding any payload `_error`); zero hits give only `_error` "no result found: " + query; any other count gives only `_error` str(count) + " results found: " + query |
| `Lookup.SearchFailsUnlessOneHit` | europe_pmc/core/api.py:69-76 | the search's `_error` is truthy iff the hit count is not 1, and an ambiguous count appears in the message as text that reads back as that count |
| `Lookup.Article` | europe_pmc/core/api.py:78-86 | an empty result gives only `_error` "no result found: <id> [<source>]"; a non-empty one keeps every field with `_error` "" |
| `Lookup.ArticleFailsIffEmpty` | europe_pmc/core/api.py:84-86 | the article's `_error` is truthy iff the result is empty |
| `Lookup.Annotate` | europe_pmc/core/api.py:48-52 | `_search` is set, `_error` and `pmcid` are kept, `pdf_url` is the render URL of the pmcid when `pmcid` is truthy, and every other key is untouched |
| `Lookup.FetchData` | europe_pmc/core/api.py:37-56 | the fetched record is the routed lookup (pmid → `article(term)` with source MED, otherwise `search("<type>:<term>")`) with `_search` "<term>[<type>]", `pdf_url` exactly when the pmcid is truthy, all else unchanged |
| `Lookup.FetchFailure` | europe_pmc/core/api.py:40-45 | a fetch fails iff its route fails: an empty article for a pmid, a hit count other than 1 for any other type |
| `Lookup.FetchKeepsHit` | europe_pmc/core/api.py:42-52 | a successful fetch keeps every field of the hit it found except `_error`, `_search` and `pdf_url` |
| `Lookup.FailedFetchIsBare` | europe_pmc/core/api.py:48-52 | a failed fetch has exactly the keys `_error` and `_search` (no pmid, no pdf_url) |
| `Lookup.SaveableAfterFetch` | europe_pmc/core/api.py:50-52 | a fetched record has `pdf_url` iff its pmcid is truthy or the hit already had a `pdf_url` field |
| `Lookup.Fetch` | europe_pmc/core/api.py:37-56 | the imperative fetch builds a fresh result whose data is `FetchData`, whose `pmcid` is that record's `pmcid` or None, and whose `outfile` is unset |
| `Lookup.PMCResult.constructor` | europe_pmc/core/api.py:8-12 | the result keeps the record, its `pmcid` is `data.get('pmcid')`, and it has no `outfile` yet |
| `Lookup.PMCResult.Save` | europe_pmc/core/api.py:18-23 | `save` returns True iff the record has a `pdf_url` field |
| `Batch.ReadFileTerms` | europe_pmc/bin/main.py:33-35 | the loop over a file's lines collects exactly `FileTerms(lines)`, line by line in file order |
| `Batch.ExpandTerms` | europe_pmc/bin/main.py:30-37 | the expansion loop builds exactly `Expansion(args)` |
| `Batch.ExpansionAppend` | europe_pmc/bin/main.py:30-37 | expansion preserves argument order: the terms of `a + b` are those of `a` followed by those of `b` |
| `Batch.TextArgsPassThrough` | europe_pmc/bin/main.py:36-37 | arguments that are not files become one term each, unchanged and in order |
| `Batch.FileTermsShape` | europe_pmc/bin/main.py:34-35 | a file gives at least one term per line, no term contains ',', and each line's terms re-joined with ',' are the stripped line |
| `Batch.EmptyPiecesKept` | europe_pmc/bin/main.py:35 | the line "a,,b\n" gives the terms "a", "" and "b": empty pieces are kept |
| `Batch.JudgeRules` | europe_pmc/bin/main.py:44-72 | for one fetched record: raises when `_error` is missing; otherwise lookup error iff `_error` is truthy (with its text); duplicate iff its pmid was seen; no-PDF iff outside info mode `hasPDF` is exactly 'N' (message "no pdf for PMID:<pmid>"); accepted otherwise, with no outfile in info mode and else `outdir` joined with the formatted template, or `<term>.pdf` on KeyError; raises iff pmid or hasPDF is missing, or the template is absent or fails other than by KeyError |
| `Batch.LookupErrorOnlyFails` | europe_pmc/bin/main.py:46-49 | a lookup error appends {term, error} to `failed` and changes nothing else, so its pmid is not registered |
| `Batch.StepGrowsByOne` | europe_pmc/bin/main.py:44-72 | one iteration appends at most one element to `results` or to `failed`, recording its term's index, and removes nothing |
| `Batch.RunExtends` | europe_pmc/bin/main.py:44-72 | later iterations only append to `results` and `failed`; after an exception nothing changes |
| `Batch.RunAccountsForTerms` | europe_pmc/bin/main.py:44-72 | every element of `results` and `failed` comes from a distinct term, `|results| + |failed| <= |terms|`, both lists keep term order, and no term is in both |
| `Batch.RunPmidsDistinct` | europe_pmc/bin/main.py:51-53 | the pmids in `results` are pairwise distinct and all registered in `dups` |
| `Batch.RunRegistersSuccesses` | europe_pmc/bin/main.py:51-53 | until an exception, every term that fetched without error has its pmid in `dups` |
| `Batch.RunFirstOccurrenceWins` | europe_pmc/bin/main.py:51-53 | no term before the one a result came from succeeded with the same pmid |
| `Batch.RunModes` | europe_pmc/bin/main.py:55-72 | each result fetched without error and has a pmid. In info mode it has no outfile, and every failure is a lookup error. Otherwise each result has `hasPDF` other than 'N' and an outfile in `outdir`, named by the template or `<term>.pdf` on KeyError. Each failure is either its lookup error or the no-PDF message for its pmid |
| `Batch.RepeatedPmidYieldsOneResult` | europe_pmc/bin/main.py:51-53 | a second successful record with an accepted record's pmid is dropped: one result, no failure |
| `Batch.RepeatedNoPdfFailsOnce` | europe_pmc/bin/main.py:51-61 | the pmid is registered before the PDF check, so a later record with a rejected record's pmid is dropped: one failure, no result |
| `Batch.Consider` | europe_pmc/bin/main.py:45-72 | the loop body on the program's own lists and result object does exactly what `Step` says, assigning `res.outfile` in place |
| `Batch.ProcessTerms` | europe_pmc/bin/main.py:41-72 | the per-term loop's `failed` and `results` are those of `Run` over the fetched records, and it stops exactly when `Run` reports an exception |
| `Batch.Cli` | europe_pmc/bin/main.py:30-72 | the terms are `Expansion(args)`, and the lists are those of `Run` over those terms, unless an exception ends the loop |

## Left out

- HTTP requests, JSON decoding and the query parameters (`format`, `pageSize`) of europe_pmc/core/api.py. The service is the `Server` input.
- A `/search` reply that reports one hit but has an empty result list would raise IndexError. `SearchResponse` rules it out.
- `hitCount` is modelled as an integer. A non-integer count is not modelled.
- An `article` result that is `None` would raise on `{**result}`. Results are always maps.
- Floats, lists and objects in the decoded JSON are kept only as their `str()` text and truth value (`Opaque`).
- `setattr` of a record key that clashes with `data`, `pmcid` or `save` would overwrite that attribute. Attributes are modelled as map lookups.
- De-duplication compares decoded values. Python's `1 == True` equality across types and unhashable pmids (TypeError) are not modelled.
- The str.format mini-language is the abstract `Formatter`.
- `pathlib` joining is the structured pair `OutPath(outdir, name)`. Absolute names and normalisation are not modelled.
- Reading files (`Path.is_file`, `open`): a file argument arrives as its lines, and anything else as a term.
- `isdigit`, `\d`, `isspace` and IGNORECASE are modelled on ASCII only. Unicode digits and whitespace are not.
- The download (`util.download`, `safe_open`, the progress bar, the Content-Disposition regex and `human_readable`) is left out. `Lookup.PMCResult.Save`: models only the returned flag, not the download.
- The thread pool, list and info printing, JSON output, logging and timing of `cli` after the loop (europe_pmc/bin/main.py:74-95) are not modelled.
- `Batch.ProcessTerms`: after an uncaught exception the model makes no statement about the partial lists, because the program never uses them.
- europe_pmc/__init__.py, which only loads version information, is not part of this model.
