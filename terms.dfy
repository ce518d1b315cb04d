/**
 * The term classifier: a search term is labelled pmcid, pmid, doi or title
 * by trying, in order, a PMCID pattern, the all-digits test, a DOI pattern,
 * and falling back to title (europe_pmc/util/__init__.py, check_term_type).
 *
 * Both patterns are used with `re.match`, which anchors at the start of the
 * string only, so each is a prefix test. They are modelled as sequences of
 * single-character atoms matched left to right, which is exactly what a
 * regular expression without alternation or variable repetition does.
 */
module Terms {
  import opened PyValues

  datatype TermType = Pmcid | Pmid | Doi | Title

  /** The tag as the program spells it (used in queries and `_search`). */
  function TypeName(t: TermType): (name: string)
    ensures |name| > 0
  {
    match t
    case Pmcid => "pmcid"
    case Pmid => "pmid"
    case Doi => "doi"
    case Title => "title"
  }

  lemma TypeNamesDistinct(t: TermType, u: TermType)
    ensures TypeName(t) == TypeName(u) ==> t == u
  {
  }

  // ---------------------------------------------------------------------
  // Fixed-width patterns under re.match

  /** One position of a pattern: a literal, a literal compared without
      regard to letter case (re.IGNORECASE), or `\d`. */
  datatype Atom = Literal(c: char) | Caseless(c: char) | AnyDigit

  function Lower(c: char): char {
    if 'A' <= c <= 'Z' then (c as int + 32) as char else c
  }

  predicate AtomMatches(a: Atom, c: char) {
    match a
    case Literal(l) => c == l
    case Caseless(l) => Lower(c) == Lower(l)
    case AnyDigit => IsDigit(c)
  }

  /** `re.match(pattern, s)` is truthy: the pattern matches a prefix of `s`. */
  function MatchPrefix(p: seq<Atom>, s: string): bool
    decreases |p|
  {
    if p == [] then true
    else |s| > 0 && AtomMatches(p[0], s[0]) && MatchPrefix(p[1..], s[1..])
  }

  function Repeat(a: Atom, n: nat): (p: seq<Atom>)
    ensures |p| == n
    ensures forall k | 0 <= k < n :: p[k] == a
  {
    if n == 0 then [] else [a] + Repeat(a, n - 1)
  }

  /** `pmc\d{7}` with re.IGNORECASE. */
  function PmcidPattern(): seq<Atom> {
    [Caseless('p'), Caseless('m'), Caseless('c')] + Repeat(AnyDigit, 7)
  }

  /** `\d{2}\.\d{4}/`. */
  function DoiPattern(): seq<Atom> {
    Repeat(AnyDigit, 2) + [Literal('.')] + Repeat(AnyDigit, 4) + [Literal('/')]
  }

  /** A pattern matches a prefix exactly when the string is long enough and
      every atom accepts the character at its position. */
  lemma {:induction false} MatchPrefixAt(p: seq<Atom>, s: string)
    ensures MatchPrefix(p, s) <==> |s| >= |p| && forall k | 0 <= k < |p| :: AtomMatches(p[k], s[k])
    decreases |p|
  {
    if p != [] && |s| > 0 {
      MatchPrefixAt(p[1..], s[1..]);
      assert forall k | 1 <= k < |p| && k < |s| :: p[1..][k - 1] == p[k] && s[1..][k - 1] == s[k];
    }
  }

  // ---------------------------------------------------------------------
  // The shapes, stated position by position

  /** Starts with "pmc" in any letter case followed by seven digits. */
  predicate StartsWithPmcid(s: string) {
    |s| >= 10 && Lower(s[0]) == 'p' && Lower(s[1]) == 'm' && Lower(s[2]) == 'c'
    && forall k | 3 <= k < 10 :: IsDigit(s[k])
  }

  /** Starts with two digits, '.', four digits and '/'. */
  predicate StartsWithDoi(s: string) {
    |s| >= 8 && IsDigit(s[0]) && IsDigit(s[1]) && s[2] == '.'
    && (forall k | 3 <= k < 7 :: IsDigit(s[k])) && s[7] == '/'
  }

  lemma PmcidPatternShape(s: string)
    ensures MatchPrefix(PmcidPattern(), s) <==> StartsWithPmcid(s)
  {
    var p := PmcidPattern();
    MatchPrefixAt(p, s);
    assert forall k | 3 <= k < 10 :: p[k] == AnyDigit;
  }

  lemma DoiPatternShape(s: string)
    ensures MatchPrefix(DoiPattern(), s) <==> StartsWithDoi(s)
  {
    var p := DoiPattern();
    MatchPrefixAt(p, s);
    assert p[0] == AnyDigit && p[1] == AnyDigit && p[2] == Literal('.') && p[7] == Literal('/');
    assert forall k | 3 <= k < 7 :: p[k] == AnyDigit;
  }

  // ---------------------------------------------------------------------
  // check_term_type

  /** The if/elif chain of check_term_type: first match wins. */
  function CheckTermType(term: string): TermType {
    if MatchPrefix(PmcidPattern(), term) then Pmcid
    else if IsDigitString(term) then Pmid
    else if MatchPrefix(DoiPattern(), term) then Doi
    else Title
  }

  /** Each tag is returned exactly when its rule matches and no earlier rule does. */
  lemma CheckTermTypeRules(term: string)
    ensures CheckTermType(term) == Pmcid <==> StartsWithPmcid(term)
    ensures CheckTermType(term) == Pmid <==> !StartsWithPmcid(term) && IsDigitString(term)
    ensures CheckTermType(term) == Doi <==>
              !StartsWithPmcid(term) && !IsDigitString(term) && StartsWithDoi(term)
    ensures CheckTermType(term) == Title <==>
              !StartsWithPmcid(term) && !IsDigitString(term) && !StartsWithDoi(term)
  {
    PmcidPatternShape(term);
    DoiPatternShape(term);
  }

  /** Only the first ten characters decide a pmcid: anything may follow. */
  lemma PmcidIgnoresSuffix(head: string, tail: string)
    requires StartsWithPmcid(head)
    ensures CheckTermType(head + tail) == Pmcid
  {
    CheckTermTypeRules(head + tail);
    assert (head + tail)[..10] == head[..10];
  }

  /** A non-empty run of digits is a pmid: it cannot begin with "pmc". */
  lemma DigitsArePmid(s: string)
    requires IsDigitString(s)
    ensures CheckTermType(s) == Pmid
  {
    CheckTermTypeRules(s);
    assert IsDigit(s[0]);
  }

  /** A DOI-shaped prefix is a doi unless an earlier rule takes the term;
      a term containing '/' is never all digits and a digit never begins "pmc". */
  lemma DoiShapeIsDoi(s: string)
    requires StartsWithDoi(s)
    ensures CheckTermType(s) == Doi
  {
    CheckTermTypeRules(s);
    assert !IsDigit(s[7]);
    assert IsDigit(s[0]);
  }

  /** `str(n)` of a non-negative integer is classified as a pmid. */
  lemma DecimalIsPmid(n: nat)
    ensures CheckTermType(NatToDecimal(n)) == Pmid
  {
    NatToDecimalDigits(n);
    DigitsArePmid(NatToDecimal(n));
  }

  /** Trailing text after a PMCID does not matter. */
  lemma PmcidWithTrailingText()
    ensures CheckTermType("PMC12345678x") == Pmcid
  {
    assert StartsWithPmcid("PMC1234567");
    PmcidIgnoresSuffix("PMC1234567", "8x");
    assert "PMC1234567" + "8x" == "PMC12345678x";
  }

  /** The letters of "pmc" may be in any case. */
  lemma PmcidMixedCase()
    ensures CheckTermType("pMc1234567") == Pmcid
  {
    assert StartsWithPmcid("pMc1234567");
    PmcidIgnoresSuffix("pMc1234567", "");
    assert "pMc1234567" + "" == "pMc1234567";
  }

  /** Six digits after "PMC" is no PMCID; with nothing else matching it is a title. */
  lemma ShortPmcidIsTitle()
    ensures CheckTermType("PMC123456") == Title
  {
    CheckTermTypeRules("PMC123456");
    assert !IsDigit("PMC123456"[0]);
  }

  /** The empty string is not all digits (`"".isdigit()` is False), so it is a title. */
  lemma EmptyIsTitle()
    ensures CheckTermType("") == Title
  {
    CheckTermTypeRules("");
  }

  /** A DOI with a five-digit registrant code fails the four-digit pattern. */
  lemma FiveDigitRegistrantIsTitle()
    ensures CheckTermType("10.12345/x") == Title
  {
    CheckTermTypeRules("10.12345/x");
    assert "10.12345/x"[7] == '5';
    assert !IsDigit("10.12345/x"[2]);
  }

  /** The example PMID of the lookup client's demonstration block. */
  lemma DemonstrationPmid()
    ensures CheckTermType("30003000") == Pmid
  {
    DigitsArePmid("30003000");
  }

  /** The example PMCID of the lookup client's demonstration block. */
  lemma DemonstrationPmcid()
    ensures CheckTermType("PMC6039336") == Pmcid
  {
    assert StartsWithPmcid("PMC6039336");
    PmcidIgnoresSuffix("PMC6039336", "");
    assert "PMC6039336" + "" == "PMC6039336";
  }

  /** The example DOI of the lookup client's demonstration block. */
  lemma DemonstrationDoi()
    ensures CheckTermType("10.1007/s13205-018-1330-z") == Doi
  {
    DoiShapeIsDoi("10.1007/s13205-018-1330-z");
  }

  /** A free-text word of the demonstration block is a title. */
  lemma DemonstrationTitle()
    ensures CheckTermType("ngs") == Title
  {
    CheckTermTypeRules("ngs");
    assert !IsDigit("ngs"[0]);
  }
}
