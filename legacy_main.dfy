/** The earlier script `src/main.py`. Its `decode_json` and
    `extend_json` are the ones of `hubase/src/main.py` (see `Pipeline`);
    only the choice of the Google query differs: the site is optional and
    the site clause is left out when there is no site at all, not when
    it is empty. */
module LegacyMain {
  import opened Wrappers
  import Pipeline

  /** The query `get_url(company, site)` sends. */
  function LegacyQuery(company: string, site: Option<string>): (r: string)
    ensures site.None? ==> r == Pipeline.QueryWithoutSite(company)
    ensures site.Some? ==> r == Pipeline.QueryWithSite(company, site.value)
  {
    match site
    case None => Pipeline.QueryWithoutSite(company)
    case Some(s) => Pipeline.QueryWithSite(company, s)
  }

  /** `get_url(company, site)`: the first search result, `None` for the
      `StopIteration` of an empty search. */
  function LegacyGetUrl(company: string, site: Option<string>, search: string -> seq<string>): (r: Option<string>)
    ensures r.None? <==> search(LegacyQuery(company, site)) == []
    ensures r.Some? ==> r.value == search(LegacyQuery(company, site))[0]
  {
    var found := search(LegacyQuery(company, site));
    if found == [] then None else Some(found[0])
  }

  /** The site clause is left out exactly when there is no site; an empty
      site still gives the clause `site:`, where the later version leaves
      it out. Otherwise the two versions send the same query. */
  lemma LegacySiteClause(company: string, site: Option<string>)
    ensures LegacyQuery(company, site) == Pipeline.UrlQuery(company, "") <==> site.None?
    ensures site == Some("") ==> LegacyQuery(company, site) != Pipeline.UrlQuery(company, "")
    ensures site.Some? && site.value != "" ==> LegacyQuery(company, site) == Pipeline.UrlQuery(company, site.value)
    ensures site.None? ==> LegacyQuery(company, site) == Pipeline.UrlQuery(company, "")
  {
    if site.Some? {
      var s := site.value;
      assert |Pipeline.QueryWithSite(company, s)| == |Pipeline.QueryWithoutSite(company)| + |" AND site:"| + |s|;
    }
  }
}
