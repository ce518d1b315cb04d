/**
 * The batch driver (`cli` in europe_pmc/bin/main.py): command-line
 * arguments are expanded into terms, each term is fetched in turn, lookup
 * failures are collected, successes are de-duplicated by PMID (first
 * occurrence wins), and outside info mode records flagged `hasPDF == 'N'`
 * are rejected and an output path is built from the filename template.
 *
 * Files named on the command line arrive as their lines; the network
 * arrives as a `Server`; `str.format` is the parameter `format`, a total
 * function that reports which way formatting ended. An exception the
 * program does not catch ends the run: the model reports it as `aborted`.
 */
module Batch {
  import opened PyValues
  import opened Lookup

  // ---------------------------------------------------------------------
  // Term expansion (main.py lines 30-37)

  /** A command-line argument: a readable file, given as its lines (each
      with its line ending, as iteration over the file yields them), or
      anything else, taken as a term. */
  datatype Arg = FileArg(lines: seq<string>) | TextArg(text: string)

  /** The terms one line of a file contributes: `line.strip().split(',')`. */
  function LineTerms(line: string): seq<string> {
    Split(Strip(line), ',')
  }

  /** The terms of a file, line by line in file order. */
  function FileTerms(lines: seq<string>): seq<string>
    decreases |lines|
  {
    if lines == [] then [] else FileTerms(lines[..|lines| - 1]) + LineTerms(lines[|lines| - 1])
  }

  function ArgTerms(a: Arg): seq<string> {
    match a
    case FileArg(lines) => FileTerms(lines)
    case TextArg(text) => [text]
  }

  /** All terms, argument by argument in command-line order. */
  function Expansion(args: seq<Arg>): seq<string>
    decreases |args|
  {
    if args == [] then [] else Expansion(args[..|args| - 1]) + ArgTerms(args[|args| - 1])
  }

  /** The inner loop of the expansion: the terms of one file, line by line. */
  method ReadFileTerms(lines: seq<string>) returns (terms: seq<string>)
    ensures terms == FileTerms(lines)
  {
    terms := [];
    for j := 0 to |lines|
      invariant terms == FileTerms(lines[..j])
    {
      FileTermsStep(lines, j);
      terms := terms + LineTerms(lines[j]);
    }
    assert lines[..|lines|] == lines;
  }

  /** The expansion loop of `cli`. */
  method ExpandTerms(args: seq<Arg>) returns (terms: seq<string>)
    ensures terms == Expansion(args)
  {
    terms := [];
    for i := 0 to |args|
      invariant terms == Expansion(args[..i])
    {
      ExpansionStep(args, i);
      match args[i] {
        case TextArg(text) =>
          terms := terms + [text];
        case FileArg(lines) =>
          var fileTerms := ReadFileTerms(lines);
          terms := terms + fileTerms;
      }
    }
    assert args[..|args|] == args;
  }

  lemma ExpansionStep(args: seq<Arg>, i: nat)
    requires i < |args|
    ensures Expansion(args[..i + 1]) == Expansion(args[..i]) + ArgTerms(args[i])
  {
    assert args[..i + 1][..i] == args[..i];
  }

  lemma FileTermsStep(lines: seq<string>, j: nat)
    requires j < |lines|
    ensures FileTerms(lines[..j + 1]) == FileTerms(lines[..j]) + LineTerms(lines[j])
  {
    assert lines[..j + 1][..j] == lines[..j];
  }

  /** Expansion is order-preserving: the terms of a longer argument list
      are those of its first part followed by those of the rest. */
  lemma {:induction false} ExpansionAppend(a: seq<Arg>, b: seq<Arg>)
    ensures Expansion(a + b) == Expansion(a) + Expansion(b)
    decreases |b|
  {
    if b == [] {
      assert a + b == a;
    } else {
      var n := |b| - 1;
      calc {
        Expansion(a + b);
        == { assert (a + b)[..|a + b| - 1] == a + b[..n]; assert (a + b)[|a + b| - 1] == b[n]; }
        Expansion(a + b[..n]) + ArgTerms(b[n]);
        == { ExpansionAppend(a, b[..n]); }
        (Expansion(a) + Expansion(b[..n])) + ArgTerms(b[n]);
        Expansion(a) + (Expansion(b[..n]) + ArgTerms(b[n]));
        Expansion(a) + Expansion(b);
      }
    }
  }

  /** Empty pieces are kept: a line "a,,b" with its line ending gives three
      terms, the middle one empty. */
  lemma EmptyPiecesKept()
    ensures LineTerms("a,,b\n") == ["a", "", "b"]
  {
    assert Strip("a,,b\n") == "a,,b" by {
      assert StripStart("a,,b\n") == "a,,b\n";
      assert "a,,b\n"[..4] == "a,,b";
    }
    assert "b"[1..] == "" && ",b"[1..] == "b" && ",,b"[1..] == ",b" && "a,,b"[1..] == ",,b";
    assert ['b'] + "" == "b" && ['a'] + "" == "a";
    assert Split("", ',') == [""] && [""][1..] == [];
    assert Split("b", ',') == ["b"];
    assert Split(",b", ',') == ["", "b"];
    assert Split(",,b", ',') == ["", "", "b"];
    assert ["", "", "b"][1..] == ["", "b"];
    assert Split("a,,b", ',') == ["a", "", "b"];
  }

  /** Arguments that are not files pass through unchanged, one term each. */
  lemma {:induction false} TextArgsPassThrough(args: seq<Arg>)
    requires forall k | 0 <= k < |args| :: args[k].TextArg?
    ensures |Expansion(args)| == |args|
    ensures forall k | 0 <= k < |args| :: Expansion(args)[k] == args[k].text
    decreases |args|
  {
    if args != [] {
      TextArgsPassThrough(args[..|args| - 1]);
    }
  }

  /** A file contributes at least one term per line (an empty line gives
      the empty term), no file term contains ',', and re-joining the terms
      of a line with ',' gives the stripped line back. */
  lemma {:induction false} FileTermsShape(lines: seq<string>)
    ensures |FileTerms(lines)| >= |lines|
    ensures forall k | 0 <= k < |FileTerms(lines)| :: ',' !in FileTerms(lines)[k]
    ensures forall k | 0 <= k < |lines| :: Join(LineTerms(lines[k]), ',') == Strip(lines[k])
    decreases |lines|
  {
    if lines != [] {
      var n := |lines| - 1;
      FileTermsShape(lines[..n]);
      SplitPiecesLackSeparator(Strip(lines[n]), ',');
      forall k | 0 <= k < |lines|
        ensures Join(LineTerms(lines[k]), ',') == Strip(lines[k])
      {
        SplitJoin(Strip(lines[k]), ',');
      }
    }
  }

  // ---------------------------------------------------------------------
  // The per-term decision (main.py lines 44-72)

  const PmidKey := "pmid"
  const HasPdfKey := "hasPDF"

  /** How `str.format` ended: a string, a KeyError (a field the record lacks),
      or any other exception. */
  datatype FormatResult = Formatted(text: string) | MissingKey | FormatError

  /** `template.format(**record)`. */
  type Formatter = (string, Record) -> FormatResult

  /** The options `cli` reads in its loop: `--info`, `-o` (absent when not
      given) and `-O`. */
  datatype Options = Options(info: bool, outfile: Option<string>, outdir: string)

  /** An element of `failed`: `{'term': term, 'error': error}`. */
  datatype Failure = Failure(term: string, error: string)

  /** What becomes of one fetched term. */
  datatype Verdict =
    | LookupError(error: string)          // `_error` is set
    | Duplicate                           // its pmid was seen before
    | NoPdf(error: string)                // `hasPDF` is 'N'
    | Accepted(outfile: Option<OutPath>)  // appended to `results`
    | Raises                              // an uncaught exception ends the run

  /** `res._error` is truthy: the lookup reported an error. */
  predicate Failed(data: Record) {
    ErrorKey in data && Truthy(data[ErrorKey])
  }

  /** `res._error` exists and is falsy: the lookup found a record. */
  predicate Succeeded(data: Record) {
    ErrorKey in data && !Truthy(data[ErrorKey])
  }

  /** The checks of the loop body, in the order the source makes them:
      `_error`, then `pmid` against `dups`, then info mode, then `hasPDF`,
      then the filename template. */
  function Judge(term: string, data: Record, seen: set<Json>, opts: Options, format: Formatter)
    : Verdict
  {
    if ErrorKey !in data then Raises
    else if Failed(data) then LookupError(PyStr(data[ErrorKey]))
    else if PmidKey !in data then Raises
    else if data[PmidKey] in seen then Duplicate
    else if opts.info then Accepted(None)
    else if HasPdfKey !in data then Raises
    else if data[HasPdfKey] == JStr("N") then NoPdf("no pdf for PMID:" + PyStr(data[PmidKey]))
    else if opts.outfile.None? then Raises
    else match format(opts.outfile.value, data)
      case Formatted(name) => Accepted(Some(OutPath(opts.outdir, name)))
      case MissingKey => Accepted(Some(OutPath(opts.outdir, term + ".pdf")))
      case FormatError => Raises
  }

  /** Each verdict is reached exactly when the checks before it pass and its
      own check fails, with the message or output path the source builds. */
  lemma JudgeRules(term: string, data: Record, seen: set<Json>, opts: Options, format: Formatter)
    ensures var v := Judge(term, data, seen, opts, format);
            && (v.LookupError? <==> Failed(data))
            && (v.LookupError? ==> v.error == PyStr(data[ErrorKey]))
            && (v.Duplicate? <==> Succeeded(data) && PmidKey in data && data[PmidKey] in seen)
            && (v.NoPdf? || v.Accepted? ==> Succeeded(data) && PmidKey in data && data[PmidKey] !in seen)
            && (v.NoPdf? <==>
                  Succeeded(data) && PmidKey in data && data[PmidKey] !in seen && !opts.info
                  && HasPdfKey in data && data[HasPdfKey] == JStr("N"))
            && (v.NoPdf? ==> v.error == "no pdf for PMID:" + PyStr(data[PmidKey]))
            && (v.Accepted? && opts.info ==> v.outfile.None?)
            && (v.Accepted? && !opts.info ==>
                  HasPdfKey in data && data[HasPdfKey] != JStr("N") && opts.outfile.Some?
                  && v.outfile.Some? && v.outfile.value.dir == opts.outdir
                  && match format(opts.outfile.value, data)
                     case Formatted(name) => v.outfile.value.name == name
                     case MissingKey => v.outfile.value.name == term + ".pdf"
                     case FormatError => false)
            && (v.Raises? <==>
                  ErrorKey !in data
                  || (Succeeded(data)
                      && (PmidKey !in data
                          || (data[PmidKey] !in seen && !opts.info
                              && (HasPdfKey !in data
                                  || (data[HasPdfKey] != JStr("N")
                                      && (opts.outfile.None? || format(opts.outfile.value, data).FormatError?)))))))
  {
  }

  // ---------------------------------------------------------------------
  // The loop as a fold over the terms

  /** A `results` element: the result's record and the `outfile` it was given. */
  datatype Entry = Entry(data: Record, outfile: Option<OutPath>)

  /** The loop's state: `results`, `failed`, the keys of `dups`, whether an
      exception has ended the run, and, for the proofs, the index of the
      term each element of `results` and `failed` came from. */
  datatype Batch = Batch(
    results: seq<Entry>,
    failed: seq<Failure>,
    seen: set<Json>,
    aborted: bool,
    resultFrom: seq<nat>,
    failedFrom: seq<nat>)

  /** One iteration of the loop, for the term at `index` with fetched `data`. */
  function Step(b: Batch, index: nat, term: string, data: Record, opts: Options, format: Formatter)
    : Batch
  {
    match Judge(term, data, b.seen, opts, format)
    case LookupError(e) =>
      b.(failed := b.failed + [Failure(term, e)], failedFrom := b.failedFrom + [index])
    case Duplicate => b
    case NoPdf(e) =>
      b.(failed := b.failed + [Failure(term, e)], failedFrom := b.failedFrom + [index],
         seen := b.seen + {data[PmidKey]})
    case Accepted(out) =>
      b.(results := b.results + [Entry(data, out)], resultFrom := b.resultFrom + [index],
         seen := b.seen + {data[PmidKey]})
    case Raises => b.(aborted := true)
  }

  /** The state after the loop has run over `terms`, whose fetched records are
      `ds`; once an exception is raised nothing further happens. */
  function Run(terms: seq<string>, ds: seq<Record>, opts: Options, format: Formatter): Batch
    requires |ds| == |terms|
    decreases |terms|
  {
    if terms == [] then Batch([], [], {}, false, [], [])
    else
      var n := |terms| - 1;
      var prev := Run(terms[..n], ds[..n], opts, format);
      if prev.aborted then prev else Step(prev, n, terms[n], ds[n], opts, format)
  }

  /** What `fetch` returns for each term, in order. */
  ghost function FetchAll(terms: seq<string>, server: Server): (ds: seq<Record>)
    ensures |ds| == |terms|
    ensures forall k | 0 <= k < |terms| :: ds[k] == FetchData(terms[k], server)
  {
    seq(|terms|, k requires 0 <= k < |terms| => FetchData(terms[k], server))
  }

  // ---------------------------------------------------------------------
  // What the loop guarantees

  /** `b` continues `p`: its lists extend those of `p`, and if `p` had
      stopped nothing has changed since. */
  ghost predicate Continues(p: Batch, b: Batch) {
    && p.results <= b.results && p.failed <= b.failed
    && p.resultFrom <= b.resultFrom && p.failedFrom <= b.failedFrom
    && (p.aborted ==> b == p)
  }

  /** Running over more terms only appends: the earlier state's `results` and
      `failed` are prefixes of the later ones, and an aborted run stays as it was. */
  lemma {:induction false} RunExtends(terms: seq<string>, ds: seq<Record>, n: nat,
                                      opts: Options, format: Formatter)
    requires |ds| == |terms| && n <= |terms|
    ensures Continues(Run(terms[..n], ds[..n], opts, format), Run(terms, ds, opts, format))
    decreases |terms|
  {
    if n < |terms| {
      var m := |terms| - 1;
      RunExtends(terms[..m], ds[..m], n, opts, format);
      assert terms[..m][..n] == terms[..n];
      assert ds[..m][..n] == ds[..n];
      var prev := Run(terms[..m], ds[..m], opts, format);
      if !prev.aborted {
        StepGrowsByOne(prev, m, terms[m], ds[m], opts, format);
      }
    } else {
      assert terms[..n] == terms && ds[..n] == ds;
    }
  }

  /** `s` is `b` after one term at `index`: at most one element joins
      `results` or `failed`, recording `index`, and nothing is removed. */
  ghost predicate GrowsByOne(b: Batch, s: Batch, index: nat) {
    || (s.results == b.results && s.resultFrom == b.resultFrom
        && s.failed == b.failed && s.failedFrom == b.failedFrom)
    || (|s.results| == |b.results| + 1 && s.results[..|b.results|] == b.results
        && s.resultFrom == b.resultFrom + [index]
        && s.failed == b.failed && s.failedFrom == b.failedFrom)
    || (s.results == b.results && s.resultFrom == b.resultFrom
        && |s.failed| == |b.failed| + 1 && s.failed[..|b.failed|] == b.failed
        && s.failedFrom == b.failedFrom + [index])
  }

  lemma StepGrowsByOne(b: Batch, index: nat, term: string, data: Record, opts: Options, format: Formatter)
    ensures var s := Step(b, index, term, data, opts, format);
            GrowsByOne(b, s, index)
            && (|s.results| > |b.results| ==> s.results[|b.results|].data == data)
            && (|s.failed| > |b.failed| ==> s.failed[|b.failed|].term == term)
  {
    var s := Step(b, index, term, data, opts, format);
    if |s.results| > |b.results| {
      assert s.results[..|b.results|] == b.results;
    }
    if |s.failed| > |b.failed| {
      assert s.failed[..|b.failed|] == b.failed;
    }
  }

  /** Each term adds at most one element to `results` or to `failed`, never
      both: every element records the index of its term, the indices rise
      strictly in each list, and no index appears in both lists. */
  ghost predicate AccountsFor(b: Batch, terms: seq<string>, ds: seq<Record>)
    requires |ds| == |terms|
  {
    && |b.resultFrom| == |b.results| && |b.failedFrom| == |b.failed|
    && |b.results| + |b.failed| <= |terms|
    && (forall k | 0 <= k < |b.results| ::
          b.resultFrom[k] < |terms| && b.results[k].data == ds[b.resultFrom[k]])
    && (forall k | 0 <= k < |b.failed| ::
          b.failedFrom[k] < |terms| && b.failed[k].term == terms[b.failedFrom[k]])
    && (forall j, k | 0 <= j < k < |b.results| :: b.resultFrom[j] < b.resultFrom[k])
    && (forall j, k | 0 <= j < k < |b.failed| :: b.failedFrom[j] < b.failedFrom[k])
    && (forall j, k | 0 <= j < |b.results| && 0 <= k < |b.failed| ::
          b.resultFrom[j] != b.failedFrom[k])
  }

  /** A step at the next index keeps the accounting. */
  lemma AccountsForGrow(b: Batch, s: Batch, terms: seq<string>, ds: seq<Record>)
    requires |ds| == |terms| && |terms| > 0
    requires AccountsFor(b, terms[..|terms| - 1], ds[..|terms| - 1])
    requires GrowsByOne(b, s, |terms| - 1)
    requires |s.results| > |b.results| ==> s.results[|b.results|].data == ds[|terms| - 1]
    requires |s.failed| > |b.failed| ==> s.failed[|b.failed|].term == terms[|terms| - 1]
    ensures AccountsFor(s, terms, ds)
  {
    var n := |terms| - 1;
    forall k | 0 <= k < |s.results|
      ensures s.resultFrom[k] < |terms| && s.results[k].data == ds[s.resultFrom[k]]
    {
      if k < |b.results| {
        assert s.results[k] == b.results[k] && s.resultFrom[k] == b.resultFrom[k];
        assert ds[..n][b.resultFrom[k]] == ds[b.resultFrom[k]];
      }
    }
    forall k | 0 <= k < |s.failed|
      ensures s.failedFrom[k] < |terms| && s.failed[k].term == terms[s.failedFrom[k]]
    {
      if k < |b.failed| {
        assert s.failed[k] == b.failed[k] && s.failedFrom[k] == b.failedFrom[k];
        assert terms[..n][b.failedFrom[k]] == terms[b.failedFrom[k]];
      }
    }
    forall j, k | 0 <= j < k < |s.results|
      ensures s.resultFrom[j] < s.resultFrom[k]
    {
      assert s.resultFrom[j] == b.resultFrom[j];
      if k < |b.results| {
        assert s.resultFrom[k] == b.resultFrom[k];
      }
    }
    forall j, k | 0 <= j < k < |s.failed|
      ensures s.failedFrom[j] < s.failedFrom[k]
    {
      assert s.failedFrom[j] == b.failedFrom[j];
      if k < |b.failed| {
        assert s.failedFrom[k] == b.failedFrom[k];
      }
    }
    forall j, k | 0 <= j < |s.results| && 0 <= k < |s.failed|
      ensures s.resultFrom[j] != s.failedFrom[k]
    {
      if j < |b.results| && k < |b.failed| {
        assert s.resultFrom[j] == b.resultFrom[j] && s.failedFrom[k] == b.failedFrom[k];
      } else if j < |b.results| {
        assert s.resultFrom[j] == b.resultFrom[j];
      } else {
        assert s.failedFrom[k] == b.failedFrom[k];
      }
    }
  }

  lemma {:induction false} RunAccountsForTerms(terms: seq<string>, ds: seq<Record>,
                                               opts: Options, format: Formatter)
    requires |ds| == |terms|
    ensures AccountsFor(Run(terms, ds, opts, format), terms, ds)
    decreases |terms|
  {
    if terms != [] {
      var n := |terms| - 1;
      RunAccountsForTerms(terms[..n], ds[..n], opts, format);
      var prev := Run(terms[..n], ds[..n], opts, format);
      if !prev.aborted {
        StepGrowsByOne(prev, n, terms[n], ds[n], opts, format);
      }
      AccountsForGrow(prev, Run(terms, ds, opts, format), terms, ds);
    }
  }

  /** The pmids of `results` are pairwise distinct, and each is in `dups`. */
  ghost predicate PmidsDistinct(b: Batch) {
    && (forall k | 0 <= k < |b.results| ::
          PmidKey in b.results[k].data && b.results[k].data[PmidKey] in b.seen)
    && (forall j, k | 0 <= j < k < |b.results| ::
          b.results[j].data[PmidKey] != b.results[k].data[PmidKey])
  }

  /** De-duplication: no two results share a pmid, whatever the terms. */
  lemma {:induction false} RunPmidsDistinct(terms: seq<string>, ds: seq<Record>,
                                            opts: Options, format: Formatter)
    requires |ds| == |terms|
    ensures PmidsDistinct(Run(terms, ds, opts, format))
    decreases |terms|
  {
    if terms != [] {
      var n := |terms| - 1;
      RunPmidsDistinct(terms[..n], ds[..n], opts, format);
    }
  }

  /** Until an exception, every term that fetched without error has put its
      pmid into `dups`. */
  ghost predicate SuccessesRegistered(b: Batch, ds: seq<Record>) {
    !b.aborted ==> forall i | 0 <= i < |ds| && Succeeded(ds[i]) :: PmidKey in ds[i] && ds[i][PmidKey] in b.seen
  }

  lemma {:induction false} RunRegistersSuccesses(terms: seq<string>, ds: seq<Record>,
                                                 opts: Options, format: Formatter)
    requires |ds| == |terms|
    ensures SuccessesRegistered(Run(terms, ds, opts, format), ds)
    decreases |terms|
  {
    if terms != [] {
      var n := |terms| - 1;
      RunRegistersSuccesses(terms[..n], ds[..n], opts, format);
      var prev := Run(terms[..n], ds[..n], opts, format);
      var b := Run(terms, ds, opts, format);
      if !b.aborted {
        assert !prev.aborted && prev.seen <= b.seen;
        forall i | 0 <= i < |ds| && Succeeded(ds[i])
          ensures PmidKey in ds[i] && ds[i][PmidKey] in b.seen
        {
          if i < n {
            assert ds[..n][i] == ds[i];
          }
        }
      }
    }
  }

  /** No term before the one a result came from succeeded with its pmid. */
  ghost predicate FirstOccurrences(b: Batch, ds: seq<Record>) {
    |b.resultFrom| == |b.results|
    && forall k, i | 0 <= k < |b.results| && 0 <= i < b.resultFrom[k] && i < |ds|
         && Succeeded(ds[i]) && PmidKey in ds[i] ::
         PmidKey in b.results[k].data && ds[i][PmidKey] != b.results[k].data[PmidKey]
  }

  /** A step at the next index keeps first occurrences when the result it
      adds, if any, has a pmid no earlier successful term had. */
  lemma FirstOccurrencesGrow(b: Batch, s: Batch, ds: seq<Record>)
    requires |ds| > 0
    requires FirstOccurrences(b, ds[..|ds| - 1]) && SuccessesRegistered(b, ds[..|ds| - 1])
    requires forall k | 0 <= k < |b.resultFrom| :: b.resultFrom[k] < |ds| - 1
    requires GrowsByOne(b, s, |ds| - 1)
    requires |s.results| > |b.results| ==>
               !b.aborted && s.results[|b.results|].data == ds[|ds| - 1]
               && PmidKey in ds[|ds| - 1] && ds[|ds| - 1][PmidKey] !in b.seen
    ensures FirstOccurrences(s, ds)
  {
    var n := |ds| - 1;
    var m := |b.results|;
    forall k, i | 0 <= k < |s.results| && 0 <= i < s.resultFrom[k] && i < |ds|
      && Succeeded(ds[i]) && PmidKey in ds[i]
      ensures PmidKey in s.results[k].data && ds[i][PmidKey] != s.results[k].data[PmidKey]
    {
      if k < m {
        assert s.results[k] == b.results[k] && s.resultFrom[k] == b.resultFrom[k];
      } else {
        assert s.resultFrom[k] == n;
      }
      assert ds[..n][i] == ds[i];
    }
  }

  /** First occurrence wins: the result kept for a pmid is the one from the
      earliest term that found it. */
  lemma {:induction false} RunFirstOccurrenceWins(terms: seq<string>, ds: seq<Record>,
                                                  opts: Options, format: Formatter)
    requires |ds| == |terms|
    ensures FirstOccurrences(Run(terms, ds, opts, format), ds)
    decreases |terms|
  {
    if terms != [] {
      var n := |terms| - 1;
      RunFirstOccurrenceWins(terms[..n], ds[..n], opts, format);
      RunRegistersSuccesses(terms[..n], ds[..n], opts, format);
      RunAccountsForTerms(terms[..n], ds[..n], opts, format);
      var prev := Run(terms[..n], ds[..n], opts, format);
      if !prev.aborted {
        StepGrowsByOne(prev, n, terms[n], ds[n], opts, format);
        JudgeRules(terms[n], ds[n], prev.seen, opts, format);
      }
      FirstOccurrencesGrow(prev, Run(terms, ds, opts, format), ds);
    }
  }

  /** What a kept result looks like in the run's mode: it fetched without
      error and has a pmid; in info mode it has no
      `outfile`; otherwise its `hasPDF` is not 'N' and its `outfile` is in
      `outdir`, named by the template, or `<term>.pdf` when the template names
      a missing field. */
  ghost predicate ResultFits(e: Entry, term: string, opts: Options, format: Formatter) {
    Succeeded(e.data) && PmidKey in e.data
    && if opts.info then e.outfile.None?
    else
      HasPdfKey in e.data && e.data[HasPdfKey] != JStr("N")
      && opts.outfile.Some? && e.outfile.Some? && e.outfile.value.dir == opts.outdir
      && match format(opts.outfile.value, e.data)
         case Formatted(name) => e.outfile.value.name == name
         case MissingKey => e.outfile.value.name == term + ".pdf"
         case FormatError => false
  }

  /** What a failure looks like: the lookup error of its record, or, outside
      info mode only, the no-PDF message for its pmid. */
  ghost predicate FailureFits(f: Failure, data: Record, opts: Options) {
    if Failed(data) then f.error == PyStr(data[ErrorKey])
    else !opts.info && PmidKey in data && HasPdfKey in data && data[HasPdfKey] == JStr("N")
         && f.error == "no pdf for PMID:" + PyStr(data[PmidKey])
  }

  ghost predicate ModesHold(b: Batch, terms: seq<string>, ds: seq<Record>, opts: Options, format: Formatter)
    requires |ds| == |terms| && AccountsFor(b, terms, ds)
  {
    && (forall k | 0 <= k < |b.results| :: ResultFits(b.results[k], terms[b.resultFrom[k]], opts, format))
    && (forall k | 0 <= k < |b.failed| :: FailureFits(b.failed[k], ds[b.failedFrom[k]], opts))
  }

  /** The element a step adds fits the mode. */
  lemma StepFits(b: Batch, index: nat, term: string, data: Record, opts: Options, format: Formatter)
    ensures var s := Step(b, index, term, data, opts, format);
            && (|s.results| > |b.results| ==> ResultFits(s.results[|b.results|], term, opts, format))
            && (|s.failed| > |b.failed| ==> FailureFits(s.failed[|b.failed|], data, opts))
  {
  }

  /** A step at the next index whose new element fits keeps the modes. */
  lemma ModesGrow(b: Batch, s: Batch, terms: seq<string>, ds: seq<Record>, opts: Options, format: Formatter)
    requires |ds| == |terms| && |terms| > 0
    requires AccountsFor(b, terms[..|terms| - 1], ds[..|terms| - 1])
    requires ModesHold(b, terms[..|terms| - 1], ds[..|terms| - 1], opts, format)
    requires AccountsFor(s, terms, ds)
    requires GrowsByOne(b, s, |terms| - 1)
    requires |s.results| > |b.results| ==>
               ResultFits(s.results[|b.results|], terms[|terms| - 1], opts, format)
    requires |s.failed| > |b.failed| ==> FailureFits(s.failed[|b.failed|], ds[|terms| - 1], opts)
    ensures ModesHold(s, terms, ds, opts, format)
  {
    var n := |terms| - 1;
    forall k | 0 <= k < |s.results|
      ensures ResultFits(s.results[k], terms[s.resultFrom[k]], opts, format)
    {
      if k < |b.results| {
        assert s.results[k] == b.results[k] && s.resultFrom[k] == b.resultFrom[k];
        assert terms[..n][b.resultFrom[k]] == terms[b.resultFrom[k]];
      }
    }
    forall k | 0 <= k < |s.failed|
      ensures FailureFits(s.failed[k], ds[s.failedFrom[k]], opts)
    {
      if k < |b.failed| {
        assert s.failed[k] == b.failed[k] && s.failedFrom[k] == b.failedFrom[k];
        assert ds[..n][b.failedFrom[k]] == ds[b.failedFrom[k]];
      }
    }
  }

  /** Every element of `results` and `failed` fits the mode of the run. */
  lemma {:induction false} RunModes(terms: seq<string>, ds: seq<Record>,
                                    opts: Options, format: Formatter)
    requires |ds| == |terms|
    ensures AccountsFor(Run(terms, ds, opts, format), terms, ds)
    ensures ModesHold(Run(terms, ds, opts, format), terms, ds, opts, format)
    decreases |terms|
  {
    RunAccountsForTerms(terms, ds, opts, format);
    if terms != [] {
      var n := |terms| - 1;
      RunModes(terms[..n], ds[..n], opts, format);
      var prev := Run(terms[..n], ds[..n], opts, format);
      if !prev.aborted {
        StepGrowsByOne(prev, n, terms[n], ds[n], opts, format);
        StepFits(prev, n, terms[n], ds[n], opts, format);
      }
      ModesGrow(prev, Run(terms, ds, opts, format), terms, ds, opts, format);
    }
  }

  /** A lookup error is reported as a failure and changes nothing else: in
      particular its pmid, if any, is not registered in `dups`. */
  lemma LookupErrorOnlyFails(b: Batch, index: nat, term: string, data: Record,
                             opts: Options, format: Formatter)
    requires Failed(data)
    ensures Step(b, index, term, data, opts, format)
              == b.(failed := b.failed + [Failure(term, PyStr(data[ErrorKey]))],
                    failedFrom := b.failedFrom + [index])
  {
  }

  /** The state after the first of two terms. */
  lemma RunOfOne(t: string, d: Record, opts: Options, format: Formatter)
    ensures Run([t], [d], opts, format) == Step(Batch([], [], {}, false, [], []), 0, t, d, opts, format)
  {
    assert [t][..0] == [] && [d][..0] == [];
    assert Run([], [], opts, format) == Batch([], [], {}, false, [], []);
  }

  /** The state after two terms is the second step on the first. */
  lemma RunOfTwo(t1: string, t2: string, d1: Record, d2: Record, opts: Options, format: Formatter)
    ensures var first := Run([t1], [d1], opts, format);
            Run([t1, t2], [d1, d2], opts, format)
              == if first.aborted then first else Step(first, 1, t2, d2, opts, format)
  {
    assert [t1, t2][..1] == [t1] && [d1, d2][..1] == [d1];
  }

  /** A second successful record with the pmid of an accepted one is dropped:
      one result, no failure. */
  lemma RepeatedPmidYieldsOneResult(t1: string, t2: string, d1: Record, d2: Record,
                                    opts: Options, format: Formatter)
    requires Judge(t1, d1, {}, opts, format).Accepted?
    requires Succeeded(d2) && PmidKey in d2 && d2[PmidKey] == d1[PmidKey]
    ensures |Run([t1, t2], [d1, d2], opts, format).results| == 1
    ensures Run([t1, t2], [d1, d2], opts, format).failed == []
  {
    RunOfOne(t1, d1, opts, format);
    RunOfTwo(t1, t2, d1, d2, opts, format);
    var first := Run([t1], [d1], opts, format);
    assert first.seen == {d1[PmidKey]};
    assert Judge(t2, d2, first.seen, opts, format) == Duplicate;
  }

  /** The pmid is registered before the PDF check: a later record with the
      pmid of a rejected one is dropped too, so the rejection is reported once. */
  lemma RepeatedNoPdfFailsOnce(t1: string, t2: string, d1: Record, d2: Record,
                               opts: Options, format: Formatter)
    requires Judge(t1, d1, {}, opts, format).NoPdf?
    requires Succeeded(d2) && PmidKey in d2 && d2[PmidKey] == d1[PmidKey]
    ensures Run([t1, t2], [d1, d2], opts, format).results == []
    ensures |Run([t1, t2], [d1, d2], opts, format).failed| == 1
  {
    RunOfOne(t1, d1, opts, format);
    RunOfTwo(t1, t2, d1, d2, opts, format);
    var first := Run([t1], [d1], opts, format);
    assert first.seen == {d1[PmidKey]};
    assert Judge(t2, d2, first.seen, opts, format) == Duplicate;
  }

  // ---------------------------------------------------------------------
  // cli

  /** The results the program holds match the fold's entries one for one. */
  ghost predicate Matches(results: seq<PMCResult>, entries: seq<Entry>)
    reads results
  {
    |results| == |entries|
    && forall k | 0 <= k < |results| ::
         results[k].data == entries[k].data && results[k].outfile == entries[k].outfile
  }

  lemma MatchesAppend(results: seq<PMCResult>, entries: seq<Entry>, res: PMCResult, e: Entry)
    requires Matches(results, entries)
    requires res.data == e.data && res.outfile == e.outfile
    ensures Matches(results + [res], entries + [e])
  {
  }

  /** One more term extends the fold by one step, unless it has already stopped. */
  lemma RunStep(terms: seq<string>, ds: seq<Record>, i: nat, opts: Options, format: Formatter)
    requires |ds| == |terms| && i < |terms|
    ensures var b := Run(terms[..i], ds[..i], opts, format);
            Run(terms[..i + 1], ds[..i + 1], opts, format)
              == if b.aborted then b else Step(b, i, terms[i], ds[i], opts, format)
  {
    assert terms[..i + 1][..i] == terms[..i] && ds[..i + 1][..i] == ds[..i];
  }

  /** The body of the loop of `cli` for one fetched result `res`: it does
      what `Step` says, on the program's own lists and result object. */
  method Consider(term: string, res: PMCResult, dups: set<Json>, results: seq<PMCResult>,
                  failed: seq<Failure>, opts: Options, format: Formatter, ghost b: Batch, ghost index: nat)
    returns (dups': set<Json>, results': seq<PMCResult>, failed': seq<Failure>, aborted: bool)
    requires !b.aborted && failed == b.failed && dups == b.seen && Matches(results, b.results)
    requires res !in results && res.outfile.None?
    modifies res
    ensures var s := Step(b, index, term, res.data, opts, format);
            aborted == s.aborted
            && (!aborted ==> failed' == s.failed && dups' == s.seen && Matches(results', s.results))
  {
    dups', results', failed', aborted := dups, results, failed, false;
    ghost var v := Judge(term, res.data, b.seen, opts, format);
    var error := res.Attr(ErrorKey);
    if error.None? {
      assert v == Raises;
      aborted := true;
    } else if Truthy(error.value) {
      assert v == LookupError(PyStr(error.value));
      failed' := failed + [Failure(term, PyStr(error.value))];
    } else {
      var pmid := res.Attr(PmidKey);
      if pmid.None? {
        assert v == Raises;
        aborted := true;
      } else if pmid.value !in dups {
        dups' := dups + {pmid.value};
        if opts.info {
          assert v == Accepted(None);
          MatchesAppend(results, b.results, res, Entry(res.data, None));
          results' := results + [res];
        } else {
          var hasPdf := res.Attr(HasPdfKey);
          if hasPdf.None? {
            assert v == Raises;
            aborted := true;
          } else if hasPdf.value == JStr("N") {
            assert v == NoPdf("no pdf for PMID:" + PyStr(pmid.value));
            failed' := failed + [Failure(term, "no pdf for PMID:" + PyStr(pmid.value))];
          } else if opts.outfile.None? {
            assert v == Raises;
            aborted := true;
          } else {
            match format(opts.outfile.value, res.data) {
              case Formatted(name) =>
                assert v == Accepted(Some(OutPath(opts.outdir, name)));
                res.outfile := Some(OutPath(opts.outdir, name));
                MatchesAppend(results, b.results, res, Entry(res.data, res.outfile));
                results' := results + [res];
              case MissingKey =>
                assert v == Accepted(Some(OutPath(opts.outdir, term + ".pdf")));
                res.outfile := Some(OutPath(opts.outdir, term + ".pdf"));
                MatchesAppend(results, b.results, res, Entry(res.data, res.outfile));
                results' := results + [res];
              case FormatError =>
                assert v == Raises;
                aborted := true;
            }
          }
        }
      } else {
        assert v == Duplicate;
      }
    }
  }

  /** The per-term loop of `cli`: the `results` and `failed` it builds are
      those of `Run` over the fetched records, unless an exception ends it. */
  method ProcessTerms(terms: seq<string>, server: Server, opts: Options, format: Formatter)
    returns (results: seq<PMCResult>, failed: seq<Failure>, aborted: bool)
    ensures var b := Run(terms, FetchAll(terms, server), opts, format);
            aborted == b.aborted
            && (!aborted ==> failed == b.failed && Matches(results, b.results))
  {
    ghost var ds := FetchAll(terms, server);
    results, failed, aborted := [], [], false;
    var dups: set<Json> := {};
    ghost var b := Run(terms[..0], ds[..0], opts, format);
    var i := 0;
    while i < |terms| && !aborted
      invariant 0 <= i <= |terms|
      invariant b == Run(terms[..i], ds[..i], opts, format)
      invariant aborted == b.aborted
      invariant !aborted ==> failed == b.failed && dups == b.seen && Matches(results, b.results)
    {
      var term := terms[i];
      RunStep(terms, ds, i, opts, format);
      var res := Fetch(term, server);
      assert res.data == ds[i];
      dups, results, failed, aborted := Consider(term, res, dups, results, failed, opts, format, b, i);
      b := Step(b, i, term, ds[i], opts, format);
      i := i + 1;
    }
    RunExtends(terms, ds, i, opts, format);
    assert terms[..|terms|] == terms && ds[..|terms|] == ds;
  }

  /** `cli` from its arguments to its two lists: expansion, then the loop. */
  method Cli(args: seq<Arg>, server: Server, opts: Options, format: Formatter)
    returns (terms: seq<string>, results: seq<PMCResult>, failed: seq<Failure>, aborted: bool)
    ensures terms == Expansion(args)
    ensures var b := Run(terms, FetchAll(terms, server), opts, format);
            aborted == b.aborted
            && (!aborted ==> failed == b.failed && Matches(results, b.results))
  {
    terms := ExpandTerms(args);
    results, failed, aborted := ProcessTerms(terms, server, opts, format);
  }
}
