/**
 * The sitemap of src/app/sitemap.ts: one entry per route of a fixed list.
 *
 * Each entry reads the clock afresh (`new Date()`), so the clock is a
 * parameter: `clock(i)` is what `toISOString()` returns while the i-th route
 * is mapped.
 */
module Sitemap {
  import SiteMetadata

  /** The `changeFrequency` values a sitemap entry may carry. */
  datatype ChangeFrequency = Always | Hourly | Daily | Weekly | Monthly | Yearly | Never

  datatype SitemapEntry = SitemapEntry(url: string, lastModified: string, changeFrequency: ChangeFrequency, priority: real)

  const Routes: seq<string> := ["", "/code-platform", "/nocode-platform", "/blog"]

  /** `iso.split('T')[0]`: the text before the first 'T', or all of it. */
  function DatePart(iso: string): (d: string)
    ensures |d| <= |iso| && d == iso[..|d|]
    ensures 'T' !in d
    ensures |d| < |iso| ==> iso[|d|] == 'T'
    decreases |iso|
  {
    if iso == [] || iso[0] == 'T' then ""
    else [iso[0]] + DatePart(iso[1..])
  }

  /** The entry for one route, at clock reading `now`. */
  function Entry(route: string, now: string): SitemapEntry {
    SitemapEntry(SiteMetadata.SiteUrl + route, DatePart(now), Daily, if route == "" then 1.0 else 0.8)
  }

  /** `routes.map(...)`, the i-th route reading `clock(start + i)`. */
  function MapRoutes(routes: seq<string>, clock: nat -> string, start: nat): (r: seq<SitemapEntry>)
    ensures |r| == |routes|
    ensures forall i :: 0 <= i < |routes| ==> r[i] == Entry(routes[i], clock(start + i))
    decreases |routes|
  {
    if routes == [] then []
    else [Entry(routes[0], clock(start))] + MapRoutes(routes[1..], clock, start + 1)
  }

  function Sitemap(clock: nat -> string): (r: seq<SitemapEntry>)
    ensures |r| == 4
    ensures r[0].url == SiteMetadata.SiteUrl
    ensures r[1].url == SiteMetadata.SiteUrl + "/code-platform"
    ensures r[2].url == SiteMetadata.SiteUrl + "/nocode-platform"
    ensures r[3].url == SiteMetadata.SiteUrl + "/blog"
    ensures r[0].priority == 1.0
    ensures forall i :: 1 <= i < |r| ==> r[i].priority == 0.8
    ensures forall i :: 0 <= i < |r| ==> r[i].changeFrequency == Daily
    ensures forall i :: 0 <= i < |r| ==> r[i].lastModified == DatePart(clock(i))
  {
    var r := MapRoutes(Routes, clock, 0);
    assert Routes[0] == "" && Routes[1] != "" && Routes[2] != "" && Routes[3] != "";
    assert SiteMetadata.SiteUrl + "" == SiteMetadata.SiteUrl;
    r
  }

  /** Of an ISO timestamp `date + "T" + time`, the entry keeps the date. */
  lemma {:induction false} DatePartOfIso(date: string, time: string)
    requires 'T' !in date
    ensures DatePart(date + "T" + time) == date
    decreases |date|
  {
    if date != [] {
      assert (date + "T" + time)[1..] == date[1..] + "T" + time;
      DatePartOfIso(date[1..], time);
    }
  }

  /** Only the date matters: two readings on the same day give the same sitemap. */
  lemma SameDaySameSitemap(date: string, clock1: nat -> string, clock2: nat -> string, times1: nat -> string, times2: nat -> string)
    requires 'T' !in date
    requires forall i :: clock1(i) == date + "T" + times1(i)
    requires forall i :: clock2(i) == date + "T" + times2(i)
    ensures Sitemap(clock1) == Sitemap(clock2)
  {
    var r1, r2 := Sitemap(clock1), Sitemap(clock2);
    forall i | 0 <= i < 4
      ensures r1[i] == r2[i]
    {
      DatePartOfIso(date, times1(i));
      DatePartOfIso(date, times2(i));
    }
  }
}
