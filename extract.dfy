/** Record extraction from parsed pages. The HTML parser is abstracted away:
    an Indeed result page is a list of cards whose fields were looked up by a
    primary and a fallback selector, and a park-site page is the list of
    anchors whose href matched `career|job|employment`. */
module Extract {
  import opened Jobs
  import opened Text

  /** URL resolution (`urljoin`), a library call the model does not look into. */
  type UrlJoin = (string, string) -> string

  /** The first `<a>` below an element; `href` is absent when the tag has no such attribute. */
  datatype Anchor = Anchor(href: Option<string>)

  /** An element found in a card: its stripped text and the first anchor among its descendants. */
  datatype Element = Element(text: string, innerAnchor: Option<Anchor>)

  /** One field's lookup, `card.find(primary) or card.find(fallback)`. A found tag is always
      truthy, so the fallback is used only when the primary selector finds nothing. */
  datatype Lookup = Lookup(primary: Option<Element>, fallback: Option<Element>)

  function Found(l: Lookup): Option<Element>
  {
    if l.primary.Some? then l.primary else l.fallback
  }

  /** An Indeed result card. Selectors, primary then fallback:
      title `h2.jobTitle` / `a[data-jk]`; company `span.companyName` / `div.company_location`;
      location `div.companyLocation` / `span.location`; description `div.job-snippet` /
      `span.summary`; date `span.date` / `span.postedDate`. */
  datatype Card = Card(title: Lookup, company: Lookup, location: Lookup, description: Lookup, date: Lookup)

  /** The two card lists of an Indeed page: `div.job_seen_beacon` and `div[data-jk]`. */
  datatype IndeedPage = IndeedPage(beaconCards: seq<Card>, dataJkCards: seq<Card>)

  /** What one card gives: a record, a skip for a card without a title, or a skip after the
      KeyError raised by an inner anchor that has no href (caught and logged per card). */
  datatype CardOutcome = Record(job: JobListing) | NoTitle | MissingHref

  const INDEED_BASE_URL := "https://www.indeed.com/jobs"
  const INDEED_SOURCE := "Indeed.com"
  const INDEED_CARD_LIMIT: nat := 20
  const DESCRIPTION_LIMIT: nat := 200

  /** `find_all(beacon) or find_all(data-jk)`: the fallback list only when the first is empty. */
  function JobCards(page: IndeedPage): seq<Card>
  {
    if page.beaconCards != [] then page.beaconCards else page.dataJkCards
  }

  /** The string slice `s[:n]`. */
  function Truncate(s: string, n: nat): (r: string)
    ensures |r| <= n
    ensures |s| <= n ==> r == s
    ensures n <= |s| ==> |r| == n
    ensures r <= s
  {
    if |s| <= n then s else s[..n]
  }

  function TextOr(l: Lookup, placeholder: string): string
  {
    match Found(l)
    case Some(e) => e.text
    case None => placeholder
  }

  /** The value of a field is the primary element's text, else the fallback's, else the placeholder. */
  predicate FilledFrom(l: Lookup, value: string, placeholder: string)
  {
    && (l.primary.Some? ==> value == l.primary.value.text)
    && (l.primary.None? && l.fallback.Some? ==> value == l.fallback.value.text)
    && (l.primary.None? && l.fallback.None? ==> value == placeholder)
  }

  /** One pass of the Indeed card loop's body. */
  function CardRecord(card: Card, join: UrlJoin): (r: CardOutcome)
    ensures r.NoTitle? <==> card.title.primary.None? && card.title.fallback.None?
    ensures r.MissingHref? <==> Found(card.title).Some? && Found(card.title).value.innerAnchor == Some(Anchor(None))
    ensures r.Record? ==>
      var j := r.job;
      && FilledFrom(card.title, j.title, "")
      && FilledFrom(card.company, j.company, "Unknown Company")
      && FilledFrom(card.location, j.location, "Tampa Bay Area")
      && (card.description.primary.Some? ==> j.description == Truncate(card.description.primary.value.text, DESCRIPTION_LIMIT))
      && (card.description.primary.None? && card.description.fallback.Some? ==>
            j.description == Truncate(card.description.fallback.value.text, DESCRIPTION_LIMIT))
      && (card.description.primary.None? && card.description.fallback.None? ==> j.description == "No description available")
      && |j.description| <= DESCRIPTION_LIMIT
      && (card.date.primary.None? && card.date.fallback.None? <==> j.datePosted.None?)
      && (j.datePosted.Some? ==> FilledFrom(card.date, j.datePosted.value, ""))
      && (Found(card.title).value.innerAnchor.None? ==> j.url == "")
      && (Found(card.title).value.innerAnchor.Some? ==>
            j.url == join(INDEED_BASE_URL, Found(card.title).value.innerAnchor.value.href.value))
      && j.experienceLevel.None?
      && j.source == INDEED_SOURCE
  {
    match Found(card.title)
    case None => NoTitle
    case Some(t) =>
      if t.innerAnchor.Some? && t.innerAnchor.value.href.None? then
        MissingHref
      else
        var url := if t.innerAnchor.Some? then join(INDEED_BASE_URL, t.innerAnchor.value.href.value) else "";
        var description :=
          match Found(card.description)
          case Some(e) => Truncate(e.text, DESCRIPTION_LIMIT)
          case None => "No description available";
        var datePosted :=
          match Found(card.date)
          case Some(e) => Some(e.text)
          case None => None;
        Record(JobListing(
          t.text,
          TextOr(card.company, "Unknown Company"),
          TextOr(card.location, "Tampa Bay Area"),
          description,
          url,
          datePosted,
          None,
          INDEED_SOURCE))
  }

  /** The records of the Indeed card loop over `cards`, in card order. */
  function IndeedRecords(cards: seq<Card>, join: UrlJoin): seq<JobListing>
  {
    if cards == [] then []
    else
      var init := IndeedRecords(cards[..|cards| - 1], join);
      match CardRecord(cards[|cards| - 1], join)
      case Record(j) => init + [j]
      case _ => init
  }

  lemma {:induction false} IndeedRecordsBound(cards: seq<Card>, join: UrlJoin)
    ensures |IndeedRecords(cards, join)| <= |cards|
  {
    if cards != [] {
      IndeedRecordsBound(cards[..|cards| - 1], join);
    }
  }

  /** Every record comes from a card that had a title and parsed. */
  lemma {:induction false} IndeedRecordsSound(cards: seq<Card>, join: UrlJoin)
    ensures forall k :: 0 <= k < |IndeedRecords(cards, join)| ==>
      exists i :: 0 <= i < |cards| && CardRecord(cards[i], join) == Record(IndeedRecords(cards, join)[k])
  {
    if cards != [] {
      var init := cards[..|cards| - 1];
      var r, r0 := IndeedRecords(cards, join), IndeedRecords(init, join);
      IndeedRecordsSound(init, join);
      assert r[..|r0|] == r0;
      forall k | 0 <= k < |r|
        ensures exists i :: 0 <= i < |cards| && CardRecord(cards[i], join) == Record(r[k])
      {
        if k < |r0| {
          assert r[k] == r0[k];
          var i :| 0 <= i < |init| && CardRecord(init[i], join) == Record(r0[k]);
          assert cards[i] == init[i];
        } else {
          assert CardRecord(cards[|cards| - 1], join) == Record(r[k]);
        }
      }
      assert r == IndeedRecords(cards, join);
    } else {
      assert IndeedRecords(cards, join) == [];
    }
  }

  /** Every card that parses contributes its record. */
  lemma {:induction false} IndeedRecordsComplete(cards: seq<Card>, join: UrlJoin, i: int)
    requires 0 <= i < |cards| && CardRecord(cards[i], join).Record?
    ensures CardRecord(cards[i], join).job in IndeedRecords(cards, join)
  {
    var init := cards[..|cards| - 1];
    if i < |cards| - 1 {
      assert init[i] == cards[i];
      IndeedRecordsComplete(init, join, i);
    }
  }

  /** Records of later cards come after those of earlier cards. */
  lemma {:induction false} IndeedRecordsAppend(a: seq<Card>, b: seq<Card>, join: UrlJoin)
    ensures IndeedRecords(a + b, join) == IndeedRecords(a, join) + IndeedRecords(b, join)
    decreases |b|
  {
    if b == [] {
      assert a + b == a;
    } else {
      var b' := b[..|b| - 1];
      assert (a + b)[..|a + b| - 1] == a + b';
      assert (a + b)[|a + b| - 1] == b[|b| - 1];
      IndeedRecordsAppend(a, b', join);
    }
  }

  // ---------------------------------------------------------------------------
  // Park and recreation sites

  /** An anchor whose href matched the careers pattern: its stripped text and its href. */
  datatype Link = Link(text: string, href: string)

  /** The constants that tell the five park-site scrapers apart. */
  datatype ParkSite = ParkSite(
    url: string,
    keywords: seq<string>,
    company: string,
    location: string,
    description: string,
    source: string)

  const PARK_LINK_LIMIT: nat := 10
  const COUNTY_KEYWORDS: seq<string> := ["park", "recreation", "outdoor", "nature", "environmental"]
  const STATE_PARK_KEYWORDS: seq<string> := ["park", "ranger", "recreation", "outdoor", "nature", "environmental"]

  const HILLSBOROUGH_PARKS := ParkSite(
    "https://www.hillsboroughcounty.org/en/government/departments/human-resources",
    COUNTY_KEYWORDS, "Hillsborough County", "Hillsborough County, FL",
    "County park and recreation position", "Hillsborough County Parks")
  const PINELLAS_PARKS := ParkSite(
    "https://www.pinellas.gov/Government/Human-Resources",
    COUNTY_KEYWORDS, "Pinellas County", "Pinellas County, FL",
    "County park and recreation position", "Pinellas County Parks")
  const TAMPA_PARKS := ParkSite(
    "https://www.tampa.gov/careers",
    COUNTY_KEYWORDS, "City of Tampa", "Tampa, FL",
    "City park and recreation position", "Tampa Parks & Recreation")
  const STPETE_PARKS := ParkSite(
    "https://www.stpete.org/government/city_departments/human_resources/employment_opportunities.php",
    COUNTY_KEYWORDS, "City of St. Petersburg", "St. Petersburg, FL",
    "City park and recreation position", "St. Pete Parks & Recreation")
  const FL_STATE_PARKS := ParkSite(
    "https://www.floridastateparks.org/employment",
    STATE_PARK_KEYWORDS, "Florida State Parks", "Tampa Bay Area, FL",
    "State park position", "Florida State Parks")

  /** `any(keyword in title.lower() for keyword in keywords)`. */
  predicate Relevant(site: ParkSite, title: string)
  {
    exists k :: k in site.keywords && Contains(Lower(title), k)
  }

  function LinkRecord(site: ParkSite, link: Link, join: UrlJoin): JobListing
  {
    JobListing(link.text, site.company, site.location, site.description, join(site.url, link.href), None, None, site.source)
  }

  /** `job` is the record kept for `link`: the link's text and resolved href, the site's
      fixed company, location, description and source, and neither date nor level. */
  predicate LinkFields(site: ParkSite, link: Link, join: UrlJoin, job: JobListing)
  {
    && job.title == link.text && job.url == join(site.url, link.href)
    && job.company == site.company && job.location == site.location
    && job.description == site.description && job.source == site.source
    && job.datePosted.None? && job.experienceLevel.None?
  }

  /** The records of a park site's link loop over `links`, in link order. */
  function SiteRecords(site: ParkSite, links: seq<Link>, join: UrlJoin): seq<JobListing>
  {
    if links == [] then []
    else
      var init := SiteRecords(site, links[..|links| - 1], join);
      var last := links[|links| - 1];
      if Relevant(site, last.text) then init + [LinkRecord(site, last, join)] else init
  }

  lemma {:induction false} SiteRecordsBound(site: ParkSite, links: seq<Link>, join: UrlJoin)
    ensures |SiteRecords(site, links, join)| <= |links|
  {
    if links != [] {
      SiteRecordsBound(site, links[..|links| - 1], join);
    }
  }

  /** The link a record comes from: a relevant link whose text, href and the site's fixed
      fields make up the record. */
  lemma {:induction false} SiteRecordSource(site: ParkSite, links: seq<Link>, join: UrlJoin, k: int) returns (i: int)
    requires 0 <= k < |SiteRecords(site, links, join)|
    ensures 0 <= i < |links| && Relevant(site, links[i].text)
    ensures LinkFields(site, links[i], join, SiteRecords(site, links, join)[k])
  {
    var init := links[..|links| - 1];
    var last := links[|links| - 1];
    var r, r0 := SiteRecords(site, links, join), SiteRecords(site, init, join);
    if k < |r0| {
      i := SiteRecordSource(site, init, join, k);
      assert r[k] == r0[k] && links[i] == init[i];
    } else {
      i := |links| - 1;
      assert r == r0 + [LinkRecord(site, last, join)];
    }
  }

  /** `job` is the record kept for link number `i`, a link whose text matches a keyword. */
  predicate KeptFrom(site: ParkSite, links: seq<Link>, join: UrlJoin, i: int, job: JobListing)
  {
    0 <= i < |links| && Relevant(site, links[i].text) && LinkFields(site, links[i], join, job)
  }

  /** Every record comes from a relevant link and carries the site's fixed fields. */
  lemma SiteRecordsSound(site: ParkSite, links: seq<Link>, join: UrlJoin)
    ensures forall job :: job in SiteRecords(site, links, join) ==> exists i :: KeptFrom(site, links, join, i, job)
  {
    forall job | job in SiteRecords(site, links, join)
      ensures exists i :: KeptFrom(site, links, join, i, job)
    {
      var k :| 0 <= k < |SiteRecords(site, links, join)| && SiteRecords(site, links, join)[k] == job;
      var i := SiteRecordSource(site, links, join, k);
      assert KeptFrom(site, links, join, i, job);
    }
  }

  /** Every relevant link gives a record. */
  lemma {:induction false} SiteRecordsComplete(site: ParkSite, links: seq<Link>, join: UrlJoin, i: int)
    requires 0 <= i < |links| && Relevant(site, links[i].text)
    ensures LinkRecord(site, links[i], join) in SiteRecords(site, links, join)
  {
    var init := links[..|links| - 1];
    if i < |links| - 1 {
      assert init[i] == links[i];
      SiteRecordsComplete(site, init, join, i);
    }
  }

  /** Records of later links come after those of earlier links. */
  lemma {:induction false} SiteRecordsAppend(site: ParkSite, a: seq<Link>, b: seq<Link>, join: UrlJoin)
    ensures SiteRecords(site, a + b, join) == SiteRecords(site, a, join) + SiteRecords(site, b, join)
    decreases |b|
  {
    if b == [] {
      assert a + b == a;
    } else {
      var b' := b[..|b| - 1];
      assert (a + b)[..|a + b| - 1] == a + b';
      assert (a + b)[|a + b| - 1] == b[|b| - 1];
      SiteRecordsAppend(site, a, b', join);
    }
  }

  /** The match is on substrings of the lower-cased text: "Parking Attendant" passes. */
  lemma ParkingMatches()
    ensures Relevant(HILLSBOROUGH_PARKS, "Parking Attendant")
  {
    var t := Lower("Parking Attendant");
    assert t[..4] == "park";
    assert StartsWith(t, "park");
    assert "park" in HILLSBOROUGH_PARKS.keywords && Contains(t, "park");
  }

  /** "ranger" is a keyword of the state-parks page only. */
  lemma RangerOnlyOnStateParks()
    ensures Relevant(FL_STATE_PARKS, "Ranger")
    ensures !Relevant(HILLSBOROUGH_PARKS, "Ranger")
  {
    var t := Lower("Ranger");
    assert t == "ranger";
    assert StartsWith(t, "ranger");
    assert "ranger" in FL_STATE_PARKS.keywords && Contains(t, "ranger");
    forall k | k in COUNTY_KEYWORDS ensures !Contains(t, k) {
      if Contains(t, k) {
        ContainsBounds(t, k);
      }
    }
  }
}
