/** The search-query template compiler: a template such as
    `{company} AND {positions} AND {site}` is checked against the allowed
    placeholders and expanded over companies x sites x positions, company
    outermost and position innermost. */
module Queries {
  import opened Wrappers
  import opened Seqs
  import opened Text

  /** The placeholders a template may use. */
  const AllowedVariables: set<string> := {"{company}", "{site}", "{positions}", "{position}"}

  /** One compiled query and the values substituted into it. */
  datatype SearchQuery = SearchQuery(query: string, searchParams: map<string, string>)

  /** Why a template is refused (the `ValueError` of the constructor). */
  datatype QueryError =
    | ProhibitedVariables(variables: set<string>)
    | BothPositionForms

  /** A validated template with its lists; `sites` is never empty, an empty
      list having been replaced by `[""]`. Its fields are set once, at
      construction. */
  datatype SearchQueries = SearchQueries(
    template: string,
    companies: seq<string>,
    positions: seq<string>,
    sites: seq<string>,
    isPluralPosIn: bool,
    isSingularPosIn: bool,
    positionVariable: string)

  // ------------------------------------------------------------ re.findall("{.+?}")

  /** The `}` that ends a lazy `.+?` started before `j`: the first `}` at or
      after `j`, provided no newline comes first (`.` does not match a
      newline). */
  function LazyClose(t: string, j: nat): (r: Option<nat>)
    ensures r.Some? ==> j <= r.value < |t| && t[r.value] == '}'
    ensures r.Some? ==> forall k :: j <= k < r.value ==> t[k] != '}' && t[k] != '\n'
    decreases |t| - j
  {
    if j >= |t| then None
    else if t[j] == '}' then Some(j)
    else if t[j] == '\n' then None
    else LazyClose(t, j + 1)
  }

  /** `re.findall("{.+?}", t[i:])`: scanning left to right, a match starts
      at a `{` followed by one character other than a newline and ends at
      the next `}` on the same line; the scan resumes after a match and one
      character further on after a failed attempt. */
  function Matches(t: string, i: nat): seq<string>
    decreases |t| - i
  {
    if i >= |t| then []
    else if t[i] == '{' && i + 1 < |t| && t[i + 1] != '\n' && LazyClose(t, i + 2).Some? then
      var e := LazyClose(t, i + 2).value;
      [t[i..e + 1]] + Matches(t, e + 1)
    else
      Matches(t, i + 1)
  }

  /** `set(re.findall("{.+?}", t))`. */
  function Variables(t: string): set<string>
  {
    set m | m in Matches(t, 0)
  }

  /** `__validate_template`: the error it raises, if any. */
  function Validate(t: string): Option<QueryError>
  {
    var prohibited := Variables(t) - AllowedVariables;
    if prohibited != {} then Some(ProhibitedVariables(prohibited))
    else if Contains(t, "{positions}") && Contains(t, "{position}") then Some(BothPositionForms)
    else None
  }

  /** `SearchQueries(template, companies, positions, sites)`, or the
      `ValueError` it raises. */
  function Create(template: string, companies: seq<string>, positions: seq<string>, sites: seq<string>)
    : (r: Result<SearchQueries, QueryError>)
    ensures r.Err? <==> Validate(template).Some?
    ensures r.Ok? ==> r.value.template == template && r.value.companies == companies && r.value.positions == positions
    ensures r.Ok? ==> r.value.sites == (if sites == [] then [""] else sites)
    ensures r.Ok? ==> r.value.isPluralPosIn == Contains(template, "{positions}")
  {
    var plural := Contains(template, "{positions}");
    var singular := Contains(template, "{position}");
    match Validate(template)
    case Some(err) => Err(err)
    case None =>
      Ok(SearchQueries(template, companies, positions, if |sites| > 0 then sites else [""],
                       plural, singular, if plural then "positions" else "position"))
  }

  // ------------------------------------------------------------ compiled()

  /** `__build_positions_list`. */
  function PositionsList(sq: SearchQueries): seq<string>
  {
    if sq.isPluralPosIn then ["(" + Join(sq.positions, " OR ") + ")"] else sq.positions
  }

  /** How a site is substituted: `site:<site>`, or nothing for the empty site. */
  function SiteParam(site: string): string
  {
    if site != "" then "site:" + site else ""
  }

  function Params(sq: SearchQueries, company: string, site: string, position: string): map<string, string>
  {
    map["company" := company, "site" := SiteParam(site), sq.positionVariable := position]
  }

  /** The query compiled for one company, site and position. */
  function Render(sq: SearchQueries, company: string, site: string, position: string): SearchQuery
  {
    var params := Params(sq, company, site, position);
    SearchQuery(Format(sq.template, params), params)
  }

  /** The queries of the innermost loop, over `ps`. */
  function SiteQueries(sq: SearchQueries, company: string, site: string, ps: seq<string>): (r: seq<SearchQuery>)
    ensures |r| == |ps| && forall k :: 0 <= k < |ps| ==> r[k] == Render(sq, company, site, ps[k])
  {
    seq(|ps|, k requires 0 <= k < |ps| => Render(sq, company, site, ps[k]))
  }

  /** The queries of the middle loop, over the sites `ss`: one block of
      `|PositionsList(sq)|` queries per site. */
  function CompanyQueries(sq: SearchQueries, company: string, ss: seq<string>): seq<SearchQuery>
  {
    if ss == [] then []
    else CompanyQueries(sq, company, ss[..|ss| - 1]) + SiteQueries(sq, company, ss[|ss| - 1], PositionsList(sq))
  }

  /** The queries of the outer loop, over the companies `cs`: one block of
      `|sites| * |PositionsList(sq)|` queries per company. */
  function AllQueries(sq: SearchQueries, cs: seq<string>): seq<SearchQuery>
  {
    if cs == [] then []
    else AllQueries(sq, cs[..|cs| - 1]) + CompanyQueries(sq, cs[|cs| - 1], sq.sites)
  }

  lemma {:induction false} CompanyQueriesLength(sq: SearchQueries, company: string, ss: seq<string>)
    ensures |CompanyQueries(sq, company, ss)| == |ss| * |PositionsList(sq)|
    decreases |ss|
  {
    if ss != [] {
      CompanyQueriesLength(sq, company, ss[..|ss| - 1]);
      MulStep(|ss| - 1, |PositionsList(sq)|);
    }
  }

  lemma {:induction false} AllQueriesLength(sq: SearchQueries, cs: seq<string>)
    ensures |AllQueries(sq, cs)| == |cs| * (|sq.sites| * |PositionsList(sq)|)
    decreases |cs|
  {
    if cs != [] {
      AllQueriesLength(sq, cs[..|cs| - 1]);
      CompanyQueriesLength(sq, cs[|cs| - 1], sq.sites);
      MulStep(|cs| - 1, |sq.sites| * |PositionsList(sq)|);
    }
  }

  /** Everything `compiled()` yields, in order. */
  function CompiledSpec(sq: SearchQueries): seq<SearchQuery>
  {
    AllQueries(sq, sq.companies)
  }

  lemma SiteQueriesSnoc(sq: SearchQueries, company: string, site: string, ps: seq<string>, k: nat)
    requires k < |ps|
    ensures SiteQueries(sq, company, site, ps[..k + 1])
            == SiteQueries(sq, company, site, ps[..k]) + [Render(sq, company, site, ps[k])]
  {
  }

  lemma CompanyQueriesSnoc(sq: SearchQueries, company: string, ss: seq<string>, k: nat)
    requires k < |ss|
    ensures CompanyQueries(sq, company, ss[..k + 1])
            == CompanyQueries(sq, company, ss[..k]) + SiteQueries(sq, company, ss[k], PositionsList(sq))
  {
    assert ss[..k + 1][..k] == ss[..k];
  }

  lemma AllQueriesSnoc(sq: SearchQueries, cs: seq<string>, k: nat)
    requires k < |cs|
    ensures AllQueries(sq, cs[..k + 1]) == AllQueries(sq, cs[..k]) + CompanyQueries(sq, cs[k], sq.sites)
  {
    assert cs[..k + 1][..k] == cs[..k];
  }

  /** The innermost loop of `compiled()`: one query per entry of the
      positions list, for a fixed company and site. */
  method CompileSite(sq: SearchQueries, company: string, site: string, positions: seq<string>)
    returns (r: seq<SearchQuery>)
    ensures r == SiteQueries(sq, company, site, positions)
  {
    r := [];
    var pi := 0;
    while pi < |positions|
      invariant 0 <= pi <= |positions|
      invariant r == SiteQueries(sq, company, site, positions[..pi])
    {
      SiteQueriesSnoc(sq, company, site, positions, pi);
      r := r + [Render(sq, company, site, positions[pi])];
      pi := pi + 1;
    }
    assert positions[..|positions|] == positions;
  }

  /** The middle loop of `compiled()`: every site, in order, for a fixed
      company. */
  method CompileCompany(sq: SearchQueries, company: string) returns (r: seq<SearchQuery>)
    ensures r == CompanyQueries(sq, company, sq.sites)
  {
    var positions := PositionsList(sq);
    r := [];
    var si := 0;
    while si < |sq.sites|
      invariant 0 <= si <= |sq.sites|
      invariant r == CompanyQueries(sq, company, sq.sites[..si])
    {
      var block := CompileSite(sq, company, sq.sites[si], positions);
      CompanyQueriesSnoc(sq, company, sq.sites, si);
      r := r + block;
      si := si + 1;
    }
    assert sq.sites[..|sq.sites|] == sq.sites;
  }

  /** `compiled()`: company outermost, site in the middle, position
      innermost. */
  method Compiled(sq: SearchQueries) returns (r: seq<SearchQuery>)
    ensures r == CompiledSpec(sq)
  {
    r := [];
    var ci := 0;
    while ci < |sq.companies|
      invariant 0 <= ci <= |sq.companies|
      invariant r == AllQueries(sq, sq.companies[..ci])
    {
      var block := CompileCompany(sq, sq.companies[ci]);
      AllQueriesSnoc(sq, sq.companies, ci);
      r := r + block;
      ci := ci + 1;
    }
    assert sq.companies[..|sq.companies|] == sq.companies;
  }

  // ------------------------------------------------------------ shape of the output

  lemma {:induction false} CompanyQueriesAt(sq: SearchQueries, company: string, ss: seq<string>, si: nat, pi: nat)
    requires si < |ss| && pi < |PositionsList(sq)|
    ensures si * |PositionsList(sq)| + pi < |CompanyQueries(sq, company, ss)|
    ensures CompanyQueries(sq, company, ss)[si * |PositionsList(sq)| + pi] == Render(sq, company, ss[si], PositionsList(sq)[pi])
    decreases |ss|
  {
    var init := ss[..|ss| - 1];
    CompanyQueriesLength(sq, company, init);
    MulStep(|ss| - 1, |PositionsList(sq)|);
    if si < |ss| - 1 {
      CompanyQueriesAt(sq, company, init, si, pi);
    }
  }

  lemma {:induction false} AllQueriesAt(sq: SearchQueries, cs: seq<string>, ci: nat, j: nat)
    requires ci < |cs| && j < |sq.sites| * |PositionsList(sq)|
    ensures ci * (|sq.sites| * |PositionsList(sq)|) + j < |AllQueries(sq, cs)|
    ensures j < |CompanyQueries(sq, cs[ci], sq.sites)|
    ensures AllQueries(sq, cs)[ci * (|sq.sites| * |PositionsList(sq)|) + j] == CompanyQueries(sq, cs[ci], sq.sites)[j]
    decreases |cs|
  {
    var init := cs[..|cs| - 1];
    AllQueriesLength(sq, init);
    CompanyQueriesLength(sq, cs[ci], sq.sites);
    CompanyQueriesLength(sq, cs[|cs| - 1], sq.sites);
    MulStep(|cs| - 1, |sq.sites| * |PositionsList(sq)|);
    if ci < |cs| - 1 {
      AllQueriesAt(sq, init, ci, j);
    }
  }

  lemma Regroup(ci: nat, si: nat, pi: nat, s: nat, p: nat)
    ensures (ci * s + si) * p + pi == ci * (s * p) + (si * p + pi)
  {
  }

  /** The order of `compiled()`: the query for company `ci`, site `si` and
      position `pi` sits at index `(ci * |sites| + si) * |positions| + pi`,
      so every query of a company comes before the next company's, and
      within one company every query of a site before the next site's. */
  lemma CompiledOrder(sq: SearchQueries, ci: nat, si: nat, pi: nat)
    requires ci < |sq.companies| && si < |sq.sites| && pi < |PositionsList(sq)|
    ensures (ci * |sq.sites| + si) * |PositionsList(sq)| + pi < |CompiledSpec(sq)|
    ensures CompiledSpec(sq)[(ci * |sq.sites| + si) * |PositionsList(sq)| + pi]
            == Render(sq, sq.companies[ci], sq.sites[si], PositionsList(sq)[pi])
  {
    var p := |PositionsList(sq)|;
    var s := |sq.sites|;
    var k := si * p + pi;
    CompanyQueriesAt(sq, sq.companies[ci], sq.sites, si, pi);
    CompanyQueriesLength(sq, sq.companies[ci], sq.sites);
    assert k < s * p;
    AllQueriesAt(sq, sq.companies, ci, k);
    Regroup(ci, si, pi, s, p);
  }

  /** How many queries a template compiles to: one per company and site
      with `{positions}` (all positions collapse into one clause), one per
      company, site and position otherwise, an empty site list counting as
      one site. */
  lemma CompiledCount(template: string, companies: seq<string>, positions: seq<string>, sites: seq<string>)
    requires Create(template, companies, positions, sites).Ok?
    ensures var sq := Create(template, companies, positions, sites).value;
            |CompiledSpec(sq)| == |companies| * ((if sites == [] then 1 else |sites|)
                                  * (if Contains(template, "{positions}") then 1 else |positions|))
  {
    var sq := Create(template, companies, positions, sites).value;
    AllQueriesLength(sq, sq.companies);
  }

  /** With `{positions}` the positions collapse into the single clause
      `(p1 OR p2 ...)`, which is `()` for no positions; without it, no
      positions means no queries at all. */
  lemma PositionsCollapse(sq: SearchQueries)
    ensures sq.isPluralPosIn ==> PositionsList(sq) == ["(" + Join(sq.positions, " OR ") + ")"]
    ensures sq.isPluralPosIn && sq.positions == [] ==> PositionsList(sq) == ["()"]
    ensures !sq.isPluralPosIn && sq.positions == [] ==> CompiledSpec(sq) == []
  {
    if sq.isPluralPosIn && sq.positions == [] {
      assert "(" + "" + ")" == "()";
    }
    AllQueriesLength(sq, sq.companies);
  }

  /** Every compiled query carries exactly the keys `company`, `site` and
      the active position key; an empty site is substituted as nothing
      rather than `site:`; the query text is the template with those values
      substituted. */
  lemma QueryParams(sq: SearchQueries, ci: nat, si: nat, pi: nat)
    requires sq.positionVariable in {"positions", "position"}
    requires ci < |sq.companies| && si < |sq.sites| && pi < |PositionsList(sq)|
    ensures (ci * |sq.sites| + si) * |PositionsList(sq)| + pi < |CompiledSpec(sq)|
    ensures var q := CompiledSpec(sq)[(ci * |sq.sites| + si) * |PositionsList(sq)| + pi];
            q.searchParams.Keys == {"company", "site", sq.positionVariable}
            && q.searchParams["company"] == sq.companies[ci]
            && q.searchParams["site"] == (if sq.sites[si] == "" then "" else "site:" + sq.sites[si])
            && q.searchParams[sq.positionVariable] == PositionsList(sq)[pi]
            && q.query == Format(sq.template, q.searchParams)
  {
    CompiledOrder(sq, ci, si, pi);
  }

  /** A created query set has a non-empty site list whose position key
      matches the template. */
  lemma CreatedShape(template: string, companies: seq<string>, positions: seq<string>, sites: seq<string>)
    requires Create(template, companies, positions, sites).Ok?
    ensures var sq := Create(template, companies, positions, sites).value;
            |sq.sites| >= 1
            && sq.positionVariable == (if Contains(template, "{positions}") then "positions" else "position")
            && !(Contains(template, "{positions}") && Contains(template, "{position}"))
  {
  }

  // ------------------------------------------------------------ what validation guarantees

  /** Every regex match is a one-line `{...}` piece of the template. */
  lemma {:induction false} MatchesShape(t: string, i: nat, m: string)
    requires m in Matches(t, i)
    ensures |m| >= 3 && m[0] == '{' && m[|m| - 1] == '}' && '\n' !in m
    ensures Contains(t, m)
    decreases |t| - i
  {
    if i < |t| {
      if t[i] == '{' && i + 1 < |t| && t[i + 1] != '\n' && LazyClose(t, i + 2).Some? {
        var e := LazyClose(t, i + 2).value;
        assert Matches(t, i) == [t[i..e + 1]] + Matches(t, e + 1);
        if m == t[i..e + 1] {
          MatchAt(t, i, e);
        } else {
          MatchesShape(t, e + 1, m);
        }
      } else {
        assert Matches(t, i) == Matches(t, i + 1);
        MatchesShape(t, i + 1, m);
      }
    }
  }

  /** The match that starts at `i` and closes at `e`. */
  lemma MatchAt(t: string, i: nat, e: nat)
    requires i + 1 < |t| && t[i] == '{' && t[i + 1] != '\n' && LazyClose(t, i + 2) == Some(e)
    ensures var m := t[i..e + 1];
            |m| >= 3 && m[0] == '{' && m[|m| - 1] == '}' && '\n' !in m && Contains(t, m)
  {
    var m := t[i..e + 1];
    assert forall k :: 0 <= k < |m| ==> m[k] == t[i + k];
    ContainsAt(t, m, i);
  }

  /** The lazy close ends at the first `}` when no newline comes before it. */
  lemma {:induction false} LazyCloseAt(t: string, j: nat, q: nat)
    requires j <= q < |t| && t[q] == '}'
    requires forall k :: j <= k < q ==> t[k] != '}' && t[k] != '\n'
    ensures LazyClose(t, j) == Some(q)
    decreases q - j
  {
    if j < q {
      LazyCloseAt(t, j + 1, q);
    }
  }

  lemma {:induction false} MatchesSuffix(t: string, i: nat, j: nat, m: string)
    requires i <= j && m in Matches(t, j)
    requires forall k :: i <= k < j ==> t[k] != '{'
    ensures m in Matches(t, i)
    decreases j - i
  {
    if i < j {
      MatchesSuffix(t, i + 1, j, m);
    }
  }

  /** A match that runs over a later `{` is not an allowed placeholder. */
  lemma OverrunNotAllowed(t: string, i: nat, e: nat, p: nat)
    requires i < p <= e < |t| && t[p] == '{'
    ensures t[i..e + 1] !in AllowedVariables
  {
    var m := t[i..e + 1];
    assert m[1..][p - i - 1] == '{';
    if m in AllowedVariables {
      AllowedHaveOneOpen(m);
      assert false;
    }
  }

  /** Each allowed placeholder has a single `{`, at its start. */
  lemma AllowedHaveOneOpen(m: string)
    requires m in AllowedVariables
    ensures |m| > 0 && '{' !in m[1..]
  {
  }

  /** A scan from `i <= p` over a template all of whose matches are allowed
      finds that a one-line placeholder `{x}` at `p` is allowed: either
      the scan reaches `p` and the placeholder is itself a match, or an
      earlier match runs over its `{`, which no allowed placeholder can. */
  lemma {:induction false} ScanFinds(t: string, i: nat, p: nat, x: string)
    requires i <= p && p + |x| + 2 <= |t| && t[p..p + |x| + 2] == "{" + x + "}"
    requires |x| > 0 && '{' !in x && '}' !in x && '\n' !in x
    requires forall m :: m in Matches(t, i) ==> m in AllowedVariables
    ensures "{" + x + "}" in AllowedVariables
    decreases p - i
  {
    PlaceholderAt(t, x, p);
    if i == p {
      PlaceholderMatched(t, p, x);
    } else if t[i] == '{' && i + 1 < |t| && t[i + 1] != '\n' && LazyClose(t, i + 2).Some? {
      var e := LazyClose(t, i + 2).value;
      EarlierMatchEnds(t, i, e, p);
      ScanFinds(t, e + 1, p, x);
    } else {
      ScanFinds(t, i + 1, p, x);
    }
  }

  /** In a template whose matches are all allowed, a match starting
      before a `{` at `p` ends before it, and the later matches are
      allowed too. */
  lemma EarlierMatchEnds(t: string, i: nat, e: nat, p: nat)
    requires i < p < |t| && t[p] == '{'
    requires i + 1 < |t| && t[i] == '{' && t[i + 1] != '\n' && LazyClose(t, i + 2) == Some(e)
    requires forall m :: m in Matches(t, i) ==> m in AllowedVariables
    ensures e < p
    ensures forall m :: m in Matches(t, e + 1) ==> m in AllowedVariables
  {
    var m := t[i..e + 1];
    assert Matches(t, i) == [m] + Matches(t, e + 1);
    if e >= p {
      assert m in Matches(t, i);
      OverrunNotAllowed(t, i, e, p);
      assert false;
    }
  }

  /** A one-line placeholder `{x}` at `p` is the match a scan from `p`
      finds first. */
  lemma PlaceholderMatched(t: string, p: nat, x: string)
    requires p + |x| + 2 <= |t| && t[p..p + |x| + 2] == "{" + x + "}"
    requires |x| > 0 && '}' !in x && '\n' !in x
    ensures "{" + x + "}" in Matches(t, p)
  {
    var q := p + |x| + 1;
    PlaceholderAt(t, x, p);
    assert forall k :: p + 1 <= k < q ==> t[k] == x[k - p - 1];
    assert t[p + 1] == x[0];
    LazyCloseAt(t, p + 2, q);
    assert Matches(t, p) == [t[p..q + 1]] + Matches(t, q + 1);
  }

  /** What validation guarantees: in a template that is accepted, every
      one-line placeholder `{x}` (x non-empty, without braces) is one of
      `{company}`, `{site}`, `{positions}`, `{position}`. */
  lemma AcceptedPlaceholdersAllowed(template: string, companies: seq<string>, positions: seq<string>,
                                    sites: seq<string>, p: nat, x: string)
    requires Create(template, companies, positions, sites).Ok?
    requires p + |x| + 2 <= |template| && template[p..p + |x| + 2] == "{" + x + "}"
    requires |x| > 0 && '{' !in x && '}' !in x && '\n' !in x
    ensures "{" + x + "}" in AllowedVariables
  {
    assert forall m :: m in Matches(template, 0) ==> m in Variables(template);
    ScanFinds(template, 0, p, x);
  }

  /** The other refusal: a template naming both position forms. */
  lemma BothFormsRefused(template: string, companies: seq<string>, positions: seq<string>, sites: seq<string>)
    requires Contains(template, "{positions}") && Contains(template, "{position}")
    ensures Create(template, companies, positions, sites).Err?
  {
  }

  /** The repository's refusal test, for every template that names
      `{abracadabra}`, with any text around it and any lists. */
  lemma UnknownVariableRefused(pre: string, post: string, companies: seq<string>, positions: seq<string>,
                               sites: seq<string>)
    ensures Create(pre + "{abracadabra}" + post, companies, positions, sites).Err?
  {
    var x := "abracadabra";
    var t := pre + "{abracadabra}" + post;
    assert t[|pre|..|pre| + |x| + 2] == "{" + x + "}";
    if Create(t, companies, positions, sites).Ok? {
      AcceptedPlaceholdersAllowed(t, companies, positions, sites, |pre|, x);
      assert false;
    }
  }
}
