/** `SearchPage`: walks every company and, for each, every site in order,
    searching once per (company, site) pair and handing out the URLs of
    each search one at a time. The search engine is a parameter. */
module SearchPages {
  import opened Wrappers
  import opened Seqs
  import opened Text
  import opened Google

  /** The `searching_params` returned with every URL. */
  datatype SearchingParams = SearchingParams(site: string, company: string, positions: seq<string>)

  /** A (company, site) pair still to be searched. */
  datatype Target = Target(company: string, site: string)

  /** The query for one pair: the quoted company, then the positions
      clause when there are positions, then the site clause when the site
      is non-empty, joined by `" AND "`. */
  function PageQuery(company: string, positions: seq<string>, site: string): string
  {
    var withPositions := [CompanyName(company)] + (if |positions| != 0 then [PositionsName(QuotedOr(positions))] else []);
    var subqueries := withPositions + (if |site| != 0 then [SiteName(site)] else []);
    Join(subqueries, " AND ")
  }

  lemma PageQueryText(company: string, positions: seq<string>, site: string)
    ensures positions != [] && site != "" ==>
              PageQuery(company, positions, site)
              == "\"" + company + "\"" + " AND " + "(" + QuotedOr(positions) + ")" + " AND " + "site:" + site
    ensures positions != [] && site == "" ==>
              PageQuery(company, positions, site) == "\"" + company + "\"" + " AND " + "(" + QuotedOr(positions) + ")"
    ensures positions == [] && site != "" ==>
              PageQuery(company, positions, site) == "\"" + company + "\"" + " AND " + "site:" + site
    ensures positions == [] && site == "" ==> PageQuery(company, positions, site) == "\"" + company + "\""
  {
    var c := CompanyName(company);
    var p := PositionsName(QuotedOr(positions));
    var s := SiteName(site);
    var withPositions := [c] + (if |positions| != 0 then [p] else []);
    var subqueries := withPositions + (if |site| != 0 then [s] else []);
    assert PageQuery(company, positions, site) == Join(subqueries, " AND ");
    if positions != [] && site != "" {
      assert subqueries == [c, p, s];
      assert subqueries[1..] == [p, s] && subqueries[1..][1..] == [s];
      assert Join(subqueries[1..], " AND ") == p + " AND " + s;
    } else if positions != [] {
      assert subqueries == [c, p];
      assert subqueries[1..] == [p];
    } else if site != "" {
      assert subqueries == [c, s];
      assert subqueries[1..] == [s];
    } else {
      assert subqueries == [c];
    }
  }

  /** The pairs searched for one company, in site order. */
  function CompanyTargets(company: string, sites: seq<string>): (r: seq<Target>)
    ensures |r| == |sites| && forall k :: 0 <= k < |sites| ==> r[k] == Target(company, sites[k])
  {
    if sites == [] then [] else [Target(company, sites[0])] + CompanyTargets(company, sites[1..])
  }

  /** The pairs searched for a list of companies: all sites of a company
      before the next company. */
  function AllTargets(companies: seq<string>, sites: seq<string>): seq<Target>
  {
    if companies == [] then [] else CompanyTargets(companies[0], sites) + AllTargets(companies[1..], sites)
  }

  /** The URLs a search for `t` returns. */
  function Hits(t: Target, positions: seq<string>, limit: int, search: (string, int) -> seq<string>): seq<string>
  {
    search(PageQuery(t.company, positions, t.site), limit)
  }

  /** The first pair whose search returns any URL. */
  function FirstHit(ts: seq<Target>, positions: seq<string>, limit: int, search: (string, int) -> seq<string>)
    : (r: Option<nat>)
    ensures r.Some? ==> r.value < |ts| && Hits(ts[r.value], positions, limit, search) != []
    ensures r.Some? ==> forall m :: 0 <= m < r.value ==> Hits(ts[m], positions, limit, search) == []
    ensures r.None? <==> forall m :: 0 <= m < |ts| ==> Hits(ts[m], positions, limit, search) == []
  {
    if ts == [] then None
    else if Hits(ts[0], positions, limit, search) != [] then Some(0)
    else match FirstHit(ts[1..], positions, limit, search)
      case None => None
      case Some(k) => Some(k + 1)
  }

  /** No search for any of the pairs `ts` returns a URL. */
  predicate NoHits(ts: seq<Target>, positions: seq<string>, limit: int, search: (string, int) -> seq<string>)
  {
    forall m :: 0 <= m < |ts| ==> Hits(ts[m], positions, limit, search) == []
  }

  lemma NoHitsFirstHit(ts: seq<Target>, positions: seq<string>, limit: int, search: (string, int) -> seq<string>)
    requires NoHits(ts, positions, limit, search)
    ensures FirstHit(ts, positions, limit, search).None?
  {
  }

  lemma NoHitsExtend(ts: seq<Target>, k: nat, positions: seq<string>, limit: int, search: (string, int) -> seq<string>)
    requires k < |ts| && NoHits(ts[..k], positions, limit, search) && Hits(ts[k], positions, limit, search) == []
    ensures NoHits(ts[..k + 1], positions, limit, search)
  {
    assert forall m :: 0 <= m < k ==> ts[..k + 1][m] == ts[..k][m];
  }

  /** `FirstHit` is pinned down by its ensures: an index with a hit and
      none before it is the first hit. */
  lemma FirstHitIs(ts: seq<Target>, positions: seq<string>, limit: int, search: (string, int) -> seq<string>, k: nat)
    requires k < |ts| && Hits(ts[k], positions, limit, search) != []
    requires NoHits(ts[..k], positions, limit, search)
    ensures FirstHit(ts, positions, limit, search) == Some(k)
  {
    assert forall m :: 0 <= m < k ==> ts[..k][m] == ts[m];
    var r := FirstHit(ts, positions, limit, search);
    assert r.Some?;
    if r.value < k {
    } else if r.value > k {
    }
  }

  /** The pairs still to be searched from a traversal position: the
      current company's sites from index `i` on, then every later company. */
  function PendingOf(company: string, i: nat, companies: seq<string>, sites: seq<string>): seq<Target>
    requires i <= |sites|
  {
    CompanyTargets(company, sites[i..]) + AllTargets(companies, sites)
  }

  /** Searching site `i` of the current company consumes the first
      pending pair. */
  lemma PendingAdvance(company: string, i: nat, companies: seq<string>, sites: seq<string>)
    requires i < |sites|
    ensures PendingOf(company, i, companies, sites) != []
    ensures PendingOf(company, i, companies, sites)[0] == Target(company, sites[i])
    ensures PendingOf(company, i, companies, sites)[1..] == PendingOf(company, i + 1, companies, sites)
  {
    var a := CompanyTargets(company, sites[i..]);
    assert sites[i..][1..] == sites[i + 1..];
    var b := CompanyTargets(company, sites[i + 1..]);
    assert a == [Target(company, sites[i])] + b;
  }

  /** Moving on to the next company leaves the pending pairs as they were. */
  lemma PendingNextCompany(company: string, i: nat, companies: seq<string>, sites: seq<string>)
    requires |sites| <= i <= |sites| && companies != []
    ensures PendingOf(company, i, companies, sites) == PendingOf(companies[0], 0, companies[1..], sites)
  {
    assert sites[i..] == [];
    assert sites[0..] == sites;
  }

  lemma PendingNonEmpty(company: string, i: nat, companies: seq<string>, sites: seq<string>)
    requires i <= |sites| && |sites| >= 1
    requires i < |sites| || companies != []
    ensures PendingOf(company, i, companies, sites) != []
  {
    if i < |sites| {
      PendingAdvance(company, i, companies, sites);
    } else {
      PendingNextCompany(company, i, companies, sites);
      PendingAdvance(companies[0], 0, companies[1..], sites);
    }
  }

  lemma PendingDone(company: string, i: nat, sites: seq<string>)
    requires |sites| <= i <= |sites|
    ensures PendingOf(company, i, [], sites) == []
  {
    assert sites[i..] == [];
  }

  class SearchPage {
    var companies: seq<string>
    var currentCompany: string
    const positions: seq<string>
    const sites: seq<string>
    var currentSite: string
    var currentSiteI: nat
    var urls: seq<string>
    const urlLimit: int
    var query: string

    /** The pairs not yet searched, in the order they will be. */
    ghost var pending: seq<Target>

    ghost predicate Valid()
      reads this
    {
      |sites| >= 1 && currentSiteI <= |sites|
      && pending == PendingOf(currentCompany, currentSiteI, companies, sites)
    }

    /** `SearchPage(companies, positions, sites, url_limit)`, which reads
        the first company and the first site. */
    constructor (companies: seq<string>, positions: seq<string>, sites: seq<string>, urlLimit: int)
      requires |companies| >= 1 && |sites| >= 1
      ensures Valid() && pending == AllTargets(companies, sites)
      ensures this.positions == positions && this.sites == sites && this.urlLimit == urlLimit
      ensures urls == [] && currentSite == sites[0]
    {
      this.companies := companies[1..];
      this.currentCompany := companies[0];
      this.positions := positions;
      this.sites := sites;
      this.currentSite := sites[0];
      this.currentSiteI := 0;
      this.urls := [];
      this.urlLimit := urlLimit;
      this.query := "";
      this.pending := AllTargets(companies, sites);
      new;
      assert sites[0..] == sites;
      assert AllTargets(companies, sites) == CompanyTargets(companies[0], sites) + AllTargets(companies[1..], sites);
    }

    /** One pass of the `__next__` loop once it is known not to stop:
        move on to the next company when the sites are used up, then
        search the next site and add its URLs to the buffer. */
    method SearchNextTarget(search: (string, int) -> seq<string>)
      requires Valid() && pending != []
      modifies this
      ensures Valid()
      ensures pending == old(pending)[1..]
      ensures currentCompany == old(pending)[0].company && currentSite == old(pending)[0].site
      ensures query == PageQuery(currentCompany, positions, currentSite)
      ensures urls == old(urls) + Hits(old(pending)[0], positions, urlLimit, search)
    {
      var company, i: nat, rest := currentCompany, currentSiteI, companies;
      if i >= |sites| {
        if rest == [] {
          PendingDone(company, i, sites);
          assert false;
        }
        PendingNextCompany(company, i, rest, sites);
        company, i, rest := rest[0], 0, rest[1..];
      }
      PendingAdvance(company, i, rest, sites);
      var site := sites[i];
      var q := PageQuery(company, positions, site);
      var found := search(q, urlLimit);
      assert found == Hits(old(pending)[0], positions, urlLimit, search);
      companies, currentCompany, currentSite, currentSiteI := rest, company, site, i + 1;
      query, urls := q, urls + found;
      pending := PendingOf(company, i + 1, rest, sites);
    }

    /** The `while` loop of `__next__`: search the next pairs until the
        URL buffer is non-empty; `true` when no pair is left
        (`StopIteration`). */
    method Refill(search: (string, int) -> seq<string>) returns (exhausted: bool)
      requires Valid()
      modifies this
      ensures Valid()
      ensures old(urls) != [] ==>
                !exhausted && urls == old(urls) && pending == old(pending)
                && currentCompany == old(currentCompany) && currentSite == old(currentSite) && query == old(query)
      ensures old(urls) == [] && FirstHit(old(pending), positions, urlLimit, search).None? ==>
                exhausted && urls == [] && pending == [] && companies == [] && currentSiteI == |sites|
      ensures old(urls) == [] && FirstHit(old(pending), positions, urlLimit, search).Some? ==>
                var t := old(pending)[FirstHit(old(pending), positions, urlLimit, search).value];
                !exhausted && urls == Hits(t, positions, urlLimit, search)
                && pending == old(pending)[FirstHit(old(pending), positions, urlLimit, search).value + 1..]
                && currentCompany == t.company && currentSite == t.site
                && query == PageQuery(t.company, positions, t.site)
    {
      if |urls| != 0 {
        return false;
      }
      ghost var all := pending;
      ghost var j := 0;
      while |urls| == 0
        invariant Valid()
        invariant 0 <= j <= |all| && pending == all[j..]
        invariant j == 0 ==> urls == []
        invariant j > 0 ==> urls == Hits(all[j - 1], positions, urlLimit, search)
                            && currentCompany == all[j - 1].company && currentSite == all[j - 1].site
                            && query == PageQuery(all[j - 1].company, positions, all[j - 1].site)
        invariant j > 0 ==> NoHits(all[..j - 1], positions, urlLimit, search)
        decreases |all| - j
      {
        if j > 0 {
          NoHitsExtend(all, j - 1, positions, urlLimit, search);
        }
        if |companies| == 0 && currentSiteI >= |sites| {
          PendingDone(currentCompany, currentSiteI, sites);
          assert all[..j] == all;
          NoHitsFirstHit(all, positions, urlLimit, search);
          return true;
        }
        if currentSiteI >= |sites| {
          PendingNextCompany(currentCompany, currentSiteI, companies, sites);
        }
        PendingNonEmpty(currentCompany, currentSiteI, companies, sites);
        assert all[j..][0] == all[j] && all[j..][1..] == all[j + 1..];
        ghost var before := pending;
        SearchNextTarget(search);
        assert pending == before[1..] == all[j + 1..];
        assert currentCompany == all[j].company && currentSite == all[j].site;
        j := j + 1;
      }
      assert j > 0;
      FirstHitIs(all, positions, urlLimit, search, j - 1);
      assert pending == all[(j - 1) + 1..];
      return false;
    }

    /** `__next__`: refill the URL buffer, then pop the oldest URL with the
        current pair's params; `None` stands for `StopIteration`. URLs of
        one search come out first in, first out, before any further
        search. */
    method Next(search: (string, int) -> seq<string>) returns (r: Option<(string, SearchingParams)>)
      requires Valid()
      modifies this
      ensures Valid()
      ensures old(urls) != [] ==>
                r == Some((old(urls)[0], SearchingParams(old(currentSite), old(currentCompany), positions)))
                && urls == old(urls)[1..] && pending == old(pending)
                && currentCompany == old(currentCompany) && currentSite == old(currentSite) && query == old(query)
      ensures old(urls) == [] && FirstHit(old(pending), positions, urlLimit, search).None? ==>
                r == None && urls == [] && pending == []
      ensures old(urls) == [] && FirstHit(old(pending), positions, urlLimit, search).Some? ==>
                var k := FirstHit(old(pending), positions, urlLimit, search).value;
                var t := old(pending)[k];
                var hits := Hits(t, positions, urlLimit, search);
                r == Some((hits[0], SearchingParams(t.site, t.company, positions)))
                && urls == hits[1..] && pending == old(pending)[k + 1..]
                && currentCompany == t.company && currentSite == t.site
                && query == PageQuery(t.company, positions, t.site)
    {
      var exhausted := Refill(search);
      if exhausted {
        return None;
      }
      r := Some((urls[0], SearchingParams(currentSite, currentCompany, positions)));
      urls := urls[1..];
    }
  }

  /** Two `next` calls on an empty buffer whose first productive search
      finds at least two URLs give that search's first two URLs, both with
      its site, company and positions. */
  method TwoFromOneSearch(page: SearchPage, search: (string, int) -> seq<string>)
    returns (a: Option<(string, SearchingParams)>, b: Option<(string, SearchingParams)>)
    requires page.Valid() && page.urls == []
    requires FirstHit(page.pending, page.positions, page.urlLimit, search).Some?
    requires |Hits(page.pending[FirstHit(page.pending, page.positions, page.urlLimit, search).value],
                   page.positions, page.urlLimit, search)| >= 2
    modifies page
    ensures var t := old(page.pending)[FirstHit(old(page.pending), page.positions, page.urlLimit, search).value];
            var hits := Hits(t, page.positions, page.urlLimit, search);
            a == Some((hits[0], SearchingParams(t.site, t.company, page.positions)))
            && b == Some((hits[1], SearchingParams(t.site, t.company, page.positions)))
  {
    a := page.Next(search);
    b := page.Next(search);
  }

  /** One block of pairs per company. */
  function CompanyBlocks(companies: seq<string>, sites: seq<string>): (r: seq<seq<Target>>)
    ensures |r| == |companies|
    ensures forall k :: 0 <= k < |companies| ==> r[k] == CompanyTargets(companies[k], sites)
  {
    seq(|companies|, k requires 0 <= k < |companies| => CompanyTargets(companies[k], sites))
  }

  /** The pairs of all companies are their blocks, one after the other. */
  lemma {:induction false} AllTargetsFlat(companies: seq<string>, sites: seq<string>)
    ensures AllTargets(companies, sites) == Flatten(CompanyBlocks(companies, sites))
    decreases |companies|
  {
    if companies != [] {
      AllTargetsFlat(companies[1..], sites);
      assert CompanyBlocks(companies, sites)[1..] == CompanyBlocks(companies[1..], sites);
    }
  }

  /** The traversal order: pair `ci * |sites| + si` is company `ci` with
      site `si`, so every site of a company is searched, in list order,
      before the next company. */
  lemma AllTargetsAt(companies: seq<string>, sites: seq<string>, ci: nat, si: nat)
    requires ci < |companies| && si < |sites|
    ensures |AllTargets(companies, sites)| == |companies| * |sites|
    ensures ci * |sites| + si < |AllTargets(companies, sites)|
    ensures AllTargets(companies, sites)[ci * |sites| + si] == Target(companies[ci], sites[si])
  {
    AllTargetsFlat(companies, sites);
    var blocks := CompanyBlocks(companies, sites);
    FlattenUniformLength(blocks, |sites|);
    FlattenUniformAt(blocks, |sites|, ci, si);
  }

  lemma {:induction false} AllTargetsLength(companies: seq<string>, sites: seq<string>)
    ensures |AllTargets(companies, sites)| == |companies| * |sites|
    decreases |companies|
  {
    if companies != [] {
      AllTargetsLength(companies[1..], sites);
      MulStep(|companies| - 1, |sites|);
    }
  }
}
