/** How `GoogleClient.search` assembles its query string. The search
    itself is a network call and is not part of this model. */
module Google {
  import opened Text

  /** `'"{company}"'` filled in. */
  function CompanyName(company: string): string
  {
    "\"" + company + "\""
  }

  /** `'site:{site}'` filled in. */
  function SiteName(site: string): string
  {
    "site:" + site
  }

  /** `'({positions})'` filled in. */
  function PositionsName(positions: string): string
  {
    "(" + positions + ")"
  }

  /** `" OR ".join(f'"{position}"' for position in positions)`. */
  function QuotedOr(positions: seq<string>): string
  {
    Join(seq(|positions|, k requires 0 <= k < |positions| => CompanyName(positions[k])), " OR ")
  }

  /** The query `search` sends: the template with the site clause when the
      site is non-empty, the one without it otherwise. */
  function SearchQuery(company: string, site: string, positions: seq<string>): string
  {
    if site != "" then Join([CompanyName(company), SiteName(site), PositionsName(QuotedOr(positions))], " AND ")
    else Join([CompanyName(company), PositionsName(QuotedOr(positions))], " AND ")
  }

  /** A non-empty site gives `"company" AND site:site AND (positions)`;
      the empty site gives `"company" AND (positions)` with no site
      clause. */
  lemma SearchQueryText(company: string, site: string, positions: seq<string>)
    ensures site != "" ==> SearchQuery(company, site, positions)
                           == "\"" + company + "\"" + " AND " + "site:" + site + " AND " + "(" + QuotedOr(positions) + ")"
    ensures site == "" ==> SearchQuery(company, site, positions)
                           == "\"" + company + "\"" + " AND " + "(" + QuotedOr(positions) + ")"
  {
    var c := CompanyName(company);
    var p := PositionsName(QuotedOr(positions));
    if site != "" {
      var three := [c, SiteName(site), p];
      assert three[1..] == [SiteName(site), p];
      assert three[1..][1..] == [p];
      assert Join(three[1..], " AND ") == SiteName(site) + " AND " + p;
      assert Join(three, " AND ") == c + " AND " + (SiteName(site) + " AND " + p);
    } else {
      var two := [c, p];
      assert two[1..] == [p];
      assert Join(two, " AND ") == c + " AND " + p;
    }
  }

  /** An empty positions list gives the literal clause `()`; a single
      position is just quoted. */
  lemma QuotedOrSmall(positions: seq<string>)
    ensures positions == [] ==> PositionsName(QuotedOr(positions)) == "()"
    ensures |positions| == 1 ==> QuotedOr(positions) == "\"" + positions[0] + "\""
  {
    if positions == [] {
      assert "(" + "" + ")" == "()";
    }
  }

  /** Every position appears double-quoted in the positions clause. */
  lemma QuotedOrHasEach(positions: seq<string>, k: nat)
    requires k < |positions|
    ensures Contains(QuotedOr(positions), "\"" + positions[k] + "\"")
  {
    var parts := seq(|positions|, j requires 0 <= j < |positions| => CompanyName(positions[j]));
    JoinHasPart(parts, " OR ", k);
  }
}
