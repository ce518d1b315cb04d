/**
 * The lookup client (europe_pmc/core/api.py): the two REST entry points
 * `search` and `article` normalise a decoded response into one result
 * record carrying an `_error` string, and `fetch` routes a term to one of
 * them by its type, stamps `_search` and adds `pdf_url` when the record has
 * a PMCID. The HTTP exchange itself is replaced by a `Server` value that
 * gives the decoded response for each request.
 */
module Lookup {
  import opened PyValues
  import opened Terms

  const ErrorKey := "_error"
  const SearchKey := "_search"
  const PdfUrlKey := "pdf_url"
  const PmcidKey := "pmcid"

  /** The article source `article` uses when none is given. */
  const DefaultSource := "MED"

  /** The decoded body of `/search`: `hitCount` and `resultList.result`. */
  datatype SearchReply = SearchReply(hitCount: int, results: seq<Record>)

  /** A reply that reports one hit carries that hit (`result[0]` exists). */
  type SearchResponse = r: SearchReply | r.hitCount == 1 ==> |r.results| > 0
    witness SearchReply(0, [])

  /** What the service answers: the `result` object of `/article/{source}/{id}`,
      and the reply of `/search` for a query. */
  datatype Server = Server(article: (string, string) -> Record, search: string -> SearchResponse)

  /** `r` is `base` with the keys in `changed` possibly added or replaced and
      every other key, present or absent, left as it was. */
  ghost predicate KeepsOtherFields(r: Record, base: Record, changed: set<string>) {
    forall k | k !in changed :: (k in r <==> k in base) && (k in base ==> r[k] == base[k])
  }

  // ---------------------------------------------------------------------
  // search and article

  /** `EuropePMC.search(query)` given the decoded reply: the single hit with
      an empty `_error`, or only an `_error` naming the query. */
  function Search(query: string, reply: SearchResponse): (r: Record)
    ensures ErrorKey in r
    ensures reply.hitCount == 1 ==>
              r[ErrorKey] == JStr("") && KeepsOtherFields(r, reply.results[0], {ErrorKey})
    ensures reply.hitCount == 0 ==>
              r == map[ErrorKey := JStr("no result found: " + query)]
    ensures reply.hitCount != 0 && reply.hitCount != 1 ==>
              r == map[ErrorKey := JStr(IntToDecimal(reply.hitCount) + " results found: " + query)]
  {
    var data: Record :=
      if reply.hitCount == 1 then reply.results[0] else map[];
    var error :=
      if reply.hitCount == 1 then ""
      else if reply.hitCount == 0 then "no result found: " + query
      else IntToDecimal(reply.hitCount) + " results found: " + query;
    data[ErrorKey := JStr(error)]
  }

  /** A search fails exactly when the hit count is not one, and an ambiguous
      search names the count, which reads back as that count. */
  lemma SearchFailsUnlessOneHit(query: string, reply: SearchResponse)
    ensures Truthy(Search(query, reply)[ErrorKey]) <==> reply.hitCount != 1
    ensures reply.hitCount != 0 && reply.hitCount != 1 ==>
              exists n: string | IsIntText(n) && ParseDecimal(n) == reply.hitCount ::
                Search(query, reply)[ErrorKey] == JStr(n + " results found: " + query)
  {
    IntToDecimalRoundTrip(reply.hitCount);
    var n := IntToDecimal(reply.hitCount);
    if reply.hitCount != 0 && reply.hitCount != 1 {
      assert Search(query, reply)[ErrorKey] == JStr(n + " results found: " + query);
    }
  }

  /** `EuropePMC.article(id, source)` given the decoded `result` object: an
      empty result becomes an error naming the id and the source. */
  function Article(id: string, source: string, result: Record): (r: Record)
    ensures ErrorKey in r
    ensures |result| == 0 ==>
              r == map[ErrorKey := JStr("no result found: " + id + " [" + source + "]")]
    ensures |result| > 0 ==> r[ErrorKey] == JStr("") && KeepsOtherFields(r, result, {ErrorKey})
  {
    var error := if |result| == 0 then "no result found: " + id + " [" + source + "]" else "";
    result[ErrorKey := JStr(error)]
  }

  /** An article lookup fails exactly when the result object is empty. */
  lemma ArticleFailsIffEmpty(id: string, source: string, result: Record)
    ensures Truthy(Article(id, source, result)[ErrorKey]) <==> |result| == 0
  {
    if |result| == 0 {
      var msg := "no result found: " + id + " [" + source + "]";
      assert msg[0] == 'n';
    }
  }

  // ---------------------------------------------------------------------
  // fetch

  /** The typed query `search` receives for a non-pmid term. */
  function Query(t: TermType, term: string): string {
    TypeName(t) + ":" + term
  }

  /** The `_search` stamp: the term followed by its type in brackets. */
  function SearchStamp(term: string): string {
    term + "[" + TypeName(CheckTermType(term)) + "]"
  }

  /** The PDF rendering address for a PMCID. */
  function PdfUrl(pmcid: Json): string {
    "https://europepmc.org/backend/ptpmcrender.fcgi?accid=" + PyStr(pmcid) + "&blobtype=pdf"
  }

  /** The record `fetch` gets before stamping it: a pmid goes to `article`
      with the default source, every other type to `search` with a typed query. */
  function Resolve(term: string, server: Server): Record {
    var t := CheckTermType(term);
    if t == Pmid then Article(term, DefaultSource, server.article(DefaultSource, term))
    else Search(Query(t, term), server.search(Query(t, term)))
  }

  /** What `fetch` does to the record it got: `_search` is set to `stamp`,
      and `pdf_url` is set from the PMCID exactly when `pmcid` is truthy. */
  function Annotate(base: Record, stamp: string): (r: Record)
    ensures SearchKey in r && r[SearchKey] == JStr(stamp)
    ensures ErrorKey in base ==> ErrorKey in r && r[ErrorKey] == base[ErrorKey]
    ensures Get(r, PmcidKey) == Get(base, PmcidKey)
    ensures Truthy(Get(r, PmcidKey)) ==> PdfUrlKey in r && r[PdfUrlKey] == JStr(PdfUrl(Get(r, PmcidKey)))
    ensures KeepsOtherFields(r, base, if Truthy(Get(r, PmcidKey)) then {SearchKey, PdfUrlKey} else {SearchKey})
  {
    var data := base[SearchKey := JStr(stamp)];
    var pmcid := Get(data, PmcidKey);
    if Truthy(pmcid) then data[PdfUrlKey := JStr(PdfUrl(pmcid))] else data
  }

  /** The data of the result `fetch` returns: the resolved record with
      `_search` set, and `pdf_url` set from the PMCID exactly when the record's
      `pmcid` is truthy. */
  function FetchData(term: string, server: Server): (r: Record)
    ensures SearchKey in r && r[SearchKey] == JStr(SearchStamp(term))
    ensures ErrorKey in r && r[ErrorKey] == Resolve(term, server)[ErrorKey]
    ensures Get(r, PmcidKey) == Get(Resolve(term, server), PmcidKey)
    ensures Truthy(Get(r, PmcidKey)) ==> PdfUrlKey in r && r[PdfUrlKey] == JStr(PdfUrl(Get(r, PmcidKey)))
    ensures KeepsOtherFields(r, Resolve(term, server),
              if Truthy(Get(r, PmcidKey)) then {SearchKey, PdfUrlKey} else {SearchKey})
  {
    Annotate(Resolve(term, server), SearchStamp(term))
  }

  /** A fetch fails exactly when its lookup does: a pmid whose article is
      empty, or another term whose typed search does not have one hit. */
  lemma FetchFailure(term: string, server: Server)
    ensures Truthy(FetchData(term, server)[ErrorKey]) <==>
              if CheckTermType(term) == Pmid then |server.article(DefaultSource, term)| == 0
              else server.search(Query(CheckTermType(term), term)).hitCount != 1
  {
    var t := CheckTermType(term);
    if t == Pmid {
      ArticleFailsIffEmpty(term, DefaultSource, server.article(DefaultSource, term));
    } else {
      SearchFailsUnlessOneHit(Query(t, term), server.search(Query(t, term)));
    }
  }

  /** A successful fetch keeps every field of the hit it found, apart from
      the keys it writes itself. */
  lemma FetchKeepsHit(term: string, server: Server)
    requires !Truthy(FetchData(term, server)[ErrorKey])
    ensures var t := CheckTermType(term);
            var hit := if t == Pmid then server.article(DefaultSource, term)
                       else server.search(Query(t, term)).results[0];
            KeepsOtherFields(FetchData(term, server), hit, {ErrorKey, SearchKey, PdfUrlKey})
  {
    FetchFailure(term, server);
  }

  /** A failed fetch carries nothing but `_error` and `_search`: no payload field
      survives, so in particular there is no `pmid`. */
  lemma FailedFetchIsBare(term: string, server: Server)
    requires Truthy(FetchData(term, server)[ErrorKey])
    ensures FetchData(term, server).Keys == {ErrorKey, SearchKey}
  {
    FetchFailure(term, server);
    var r := FetchData(term, server);
    assert PmcidKey !in Resolve(term, server);
    assert r.Keys == {ErrorKey, SearchKey};
  }

  // ---------------------------------------------------------------------
  // PMCResult

  /** Where a result is to be saved: `Path(outdir).joinpath(name)`. */
  datatype OutPath = OutPath(dir: string, name: string)

  /** A fetched result. Its fields are the record's keys, read as attributes;
      `outfile` is the one attribute the batch driver assigns afterwards. */
  class PMCResult {
    const data: Record
    const pmcid: Json
    var outfile: Option<OutPath>

    constructor (data: Record)
      ensures this.data == data
      ensures pmcid == Get(data, PmcidKey)
      ensures outfile == None
    {
      this.data := data;
      this.pmcid := Get(data, PmcidKey);
      this.outfile := None;
    }

    /** The attribute `name` taken from the record, or None when reading it
        would raise AttributeError. */
    function Attr(name: string): Option<Json> {
      if name in data then Some(data[name]) else None
    }

    /** `save`: downloads and reports True when there is a `pdf_url`,
        reports False and does nothing otherwise. The download is not modelled. */
    method Save(outfile: Option<OutPath>) returns (saved: bool)
      ensures saved <==> PdfUrlKey in data
    {
      saved := Attr(PdfUrlKey).Some?;
    }
  }

  /** `EuropePMC.fetch(term)` against `server`. */
  method Fetch(term: string, server: Server) returns (res: PMCResult)
    ensures fresh(res)
    ensures res.data == FetchData(term, server)
    ensures res.pmcid == Get(res.data, PmcidKey)
    ensures res.outfile == None
  {
    var termType := CheckTermType(term);
    var data: Record;
    if termType == Pmid {
      data := Article(term, DefaultSource, server.article(DefaultSource, term));
    } else {
      var query := Query(termType, term);
      data := Search(query, server.search(query));
    }
    data := data[SearchKey := JStr(term + "[" + TypeName(termType) + "]")];
    var pmcid := Get(data, PmcidKey);
    if Truthy(pmcid) {
      data := data[PdfUrlKey := JStr(PdfUrl(pmcid))];
    }
    res := new PMCResult(data);
  }

  /** A fetched result can be saved exactly when its record has a truthy
      PMCID, or the hit itself already carried a `pdf_url` field. */
  lemma SaveableAfterFetch(term: string, server: Server)
    ensures PdfUrlKey in FetchData(term, server) <==>
              Truthy(Get(Resolve(term, server), PmcidKey)) || PdfUrlKey in Resolve(term, server)
  {
  }
}
