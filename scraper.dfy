/** The scraper object: it fetches each source with the retry policy, extracts
    records, and accumulates them in its `jobs` list, falling back to five
    canned sample records when nothing at all was found. */
module Scraper {
  import opened Jobs
  import opened Text
  import opened Fetch
  import opened Extract

  // The five canned records used when a run finds nothing, one function each. The long
  // descriptions are written as concatenations of short literals (the same strings), which
  // keeps the verifier's work on them small.

  function SampleRanger(): JobListing
  {
    JobListing(
      "Park Ranger - Entry Level", "Hillsborough County Parks", "Tampa, FL",
      "Assist with park " + "maintenance, visitor " + "services, and " + "environmental education " + "programs. Great " + "opportunity for outdoor " + "enthusiasts!",
      "https://www.hillsboroughcounty.org/jobs", Some("Recent"), None, "Hillsborough County Parks")
  }

  function SampleSpecialist(): JobListing
  {
    JobListing(
      "Environmental Specialist", "Pinellas County", "St. Petersburg, FL",
      "Work on environmental " + "conservation projects " + "and outdoor education " + "programs in beautiful " + "Pinellas County parks.",
      "https://www.pinellas.gov/jobs", Some("Recent"), None, "Pinellas County Parks")
  }

  function SampleCoordinator(): JobListing
  {
    JobListing(
      "Recreation Coordinator", "City of Tampa", "Tampa, FL",
      "Plan and coordinate " + "outdoor recreational " + "activities and nature " + "programs for city " + "residents.",
      "https://www.tampa.gov/jobs", Some("Recent"), None, "Tampa Parks & Recreation")
  }

  function SampleBiologist(): JobListing
  {
    JobListing(
      "Wildlife Biologist Assistant", "Florida State Parks", "Tampa Bay Area, FL",
      "Support wildlife " + "research and " + "conservation efforts in " + "state parks throughout " + "the Tampa Bay region.",
      "https://www.floridastateparks.org/jobs", Some("Recent"), None, "Florida State Parks")
  }

  function SampleInstructor(): JobListing
  {
    JobListing(
      "Outdoor Education Instructor", "Tampa Bay Nature Center", "Tampa, FL",
      "Lead educational " + "programs about local " + "wildlife and ecosystems " + "for school groups and " + "families.",
      "https://example.com/apply", Some("Recent"), None, "Indeed.com")
  }

  /** `create_sample_jobs`. */
  function SampleJobs(): seq<JobListing>
  {
    [SampleRanger(), SampleSpecialist(), SampleCoordinator(), SampleBiologist(), SampleInstructor()]
  }

  /** Five records with the five documented titles, five different sources, all posted "Recent". */
  lemma SampleJobsShape()
    ensures |SampleJobs()| == 5
    ensures SampleJobs()[0].title == "Park Ranger - Entry Level"
    ensures SampleJobs()[1].title == "Environmental Specialist"
    ensures SampleJobs()[2].title == "Recreation Coordinator"
    ensures SampleJobs()[3].title == "Wildlife Biologist Assistant"
    ensures SampleJobs()[4].title == "Outdoor Education Instructor"
    ensures forall i, j :: 0 <= i < j < 5 ==> SampleJobs()[i].source != SampleJobs()[j].source
    ensures forall i :: 0 <= i < 5 ==> SampleJobs()[i].datePosted == Some("Recent")
  {
  }

  /** The HTTP outcomes each park site's fetch meets, one sequence per site. */
  datatype ParkResponses = ParkResponses(
    hillsborough: seq<Response<seq<Link>>>,
    pinellas: seq<Response<seq<Link>>>,
    tampa: seq<Response<seq<Link>>>,
    stPete: seq<Response<seq<Link>>>,
    stateParks: seq<Response<seq<Link>>>)
  {
    /** Every site's oracle answers each of the allowed attempts. */
    predicate Answered()
    {
      && MAX_RETRIES <= |hillsborough| && MAX_RETRIES <= |pinellas| && MAX_RETRIES <= |tampa|
      && MAX_RETRIES <= |stPete| && MAX_RETRIES <= |stateParks|
    }
  }

  /** What `scrape_indeed` returns: nothing when the fetch fails, else the records of the first 20 cards. */
  function IndeedJobs(responses: seq<Response<IndeedPage>>, join: UrlJoin): seq<JobListing>
    requires MAX_RETRIES <= |responses|
  {
    match Retry(responses, 0, MAX_RETRIES).result
    case None => []
    case Some(page) => IndeedRecords(Take(JobCards(page), INDEED_CARD_LIMIT), join)
  }

  /** What one park-site scraper returns: nothing when the fetch fails, else the records of the first 10 links. */
  function SiteJobs(site: ParkSite, responses: seq<Response<seq<Link>>>, join: UrlJoin): seq<JobListing>
    requires MAX_RETRIES <= |responses|
  {
    match Retry(responses, 0, MAX_RETRIES).result
    case None => []
    case Some(links) => SiteRecords(site, Take(links, PARK_LINK_LIMIT), join)
  }

  /** What `scrape_county_parks` returns: the five sites' records in their fixed order. */
  function CountyParkJobs(park: ParkResponses, join: UrlJoin): seq<JobListing>
    requires park.Answered()
  {
    SiteJobs(HILLSBOROUGH_PARKS, park.hillsborough, join)
      + SiteJobs(PINELLAS_PARKS, park.pinellas, join)
      + SiteJobs(TAMPA_PARKS, park.tampa, join)
      + SiteJobs(STPETE_PARKS, park.stPete, join)
      + SiteJobs(FL_STATE_PARKS, park.stateParks, join)
  }

  /** The job list after a run that started from `previous`. */
  function RunOutcome(previous: seq<JobListing>, indeed: seq<Response<IndeedPage>>, park: ParkResponses, join: UrlJoin): seq<JobListing>
    requires MAX_RETRIES <= |indeed| && park.Answered()
  {
    var found := previous + IndeedJobs(indeed, join) + CountyParkJobs(park, join);
    if |found| == 0 then SampleJobs() else found
  }

  class OutdoorJobScraper {
    const emailAddress: string
    var jobs: seq<JobListing>

    constructor (emailAddress: string)
      ensures this.emailAddress == emailAddress && jobs == []
    {
      this.emailAddress := emailAddress;
      jobs := [];
    }

    /** Fetch with retries. Attempt `i` meets `responses[i]`; each attempt first sleeps the
        politeness delay; a failure other than the last sleeps `2^attempt` seconds; the last
        failure gives `None`. */
    method MakeRequest<P>(responses: seq<Response<P>>, maxRetries: int) returns (result: Option<P>, pauses: seq<Pause>, requests: nat)
      requires maxRetries <= |responses|
      ensures FetchRun(result, pauses, requests) == Retry(responses, 0, maxRetries)
    {
      pauses, requests := [], 0;
      var attempt: nat := 0;
      while attempt < maxRetries
        invariant requests == attempt
        invariant var rest := Retry(responses, attempt, maxRetries);
          Retry(responses, 0, maxRetries) == FetchRun(rest.result, pauses + rest.pauses, requests + rest.requests)
      {
        pauses := pauses + [Politeness];
        requests := requests + 1;
        match responses[attempt] {
          case Ok(page) =>
            assert Retry(responses, attempt, maxRetries) == FetchRun(Some(page), [Politeness], 1);
            result := Some(page);
            return;
          case Failed =>
            if attempt < maxRetries - 1 {
              pauses := pauses + [Backoff(Pow2(attempt))];
            } else {
              assert Retry(responses, attempt, maxRetries) == FetchRun(None, [Politeness], 1);
              result := None;
              return;
            }
        }
        attempt := attempt + 1;
      }
      result := None;
    }

    /** `scrape_indeed`: fetch the result page, then run the card loop over its first 20 cards. */
    method ScrapeIndeed(responses: seq<Response<IndeedPage>>, join: UrlJoin) returns (found: seq<JobListing>)
      requires MAX_RETRIES <= |responses|
      ensures found == IndeedJobs(responses, join)
      ensures |found| <= INDEED_CARD_LIMIT
      ensures forall j :: j in found ==> j.source == INDEED_SOURCE
    {
      found := [];
      var page, pauses, requests := MakeRequest(responses, MAX_RETRIES);
      if page.None? {
        return;
      }
      var cards := Take(JobCards(page.value), INDEED_CARD_LIMIT);
      for i := 0 to |cards|
        invariant found == IndeedRecords(cards[..i], join)
      {
        assert cards[..i + 1][..i] == cards[..i];
        match CardRecord(cards[i], join) {
          case Record(job) => found := found + [job];
          case NoTitle =>
          case MissingHref =>
        }
      }
      assert cards[..|cards|] == cards;
      IndeedRecordsBound(cards, join);
      IndeedRecordsSound(cards, join);
      forall j | j in found ensures j.source == INDEED_SOURCE {
        var k :| 0 <= k < |found| && found[k] == j;
        var c :| 0 <= c < |cards| && CardRecord(cards[c], join) == Record(found[k]);
      }
    }

    /** One park-site scraper: fetch the careers page, then keep each of its first 10 links
        whose lower-cased text contains one of the site's keywords. */
    method ScrapeParkSite(site: ParkSite, responses: seq<Response<seq<Link>>>, join: UrlJoin) returns (found: seq<JobListing>)
      requires MAX_RETRIES <= |responses|
      ensures found == SiteJobs(site, responses, join)
      ensures |found| <= PARK_LINK_LIMIT
      ensures forall j :: j in found ==>
        && j.company == site.company && j.location == site.location
        && j.description == site.description && j.source == site.source
        && Relevant(site, j.title)
    {
      found := [];
      var page, pauses, requests := MakeRequest(responses, MAX_RETRIES);
      if page.None? {
        return;
      }
      var links := Take(page.value, PARK_LINK_LIMIT);
      for i := 0 to |links|
        invariant found == SiteRecords(site, links[..i], join)
      {
        assert links[..i + 1][..i] == links[..i];
        var title := links[i].text;
        if exists k :: k in site.keywords && Contains(Lower(title), k) {
          found := found + [LinkRecord(site, links[i], join)];
        }
      }
      assert links[..|links|] == links;
      SiteRecordsBound(site, links, join);
      SiteRecordsSound(site, links, join);
      forall j | j in found
        ensures j.company == site.company && j.location == site.location
        ensures j.description == site.description && j.source == site.source
        ensures Relevant(site, j.title)
      {
        var l :| KeptFrom(site, links, join, l, j);
      }
    }

    /** `scrape_county_parks`: the five park sites in their fixed order. */
    method ScrapeCountyParks(park: ParkResponses, join: UrlJoin) returns (found: seq<JobListing>)
      requires park.Answered()
      ensures found == CountyParkJobs(park, join)
      ensures |found| <= 5 * PARK_LINK_LIMIT
    {
      var hillsborough := ScrapeParkSite(HILLSBOROUGH_PARKS, park.hillsborough, join);
      found := hillsborough;
      var pinellas := ScrapeParkSite(PINELLAS_PARKS, park.pinellas, join);
      found := found + pinellas;
      var tampa := ScrapeParkSite(TAMPA_PARKS, park.tampa, join);
      found := found + tampa;
      var stPete := ScrapeParkSite(STPETE_PARKS, park.stPete, join);
      found := found + stPete;
      var stateParks := ScrapeParkSite(FL_STATE_PARKS, park.stateParks, join);
      found := found + stateParks;
    }

    /** `run_scraping`: extend `jobs` with the Indeed records, then the park records; if the
        list is still empty, extend it with the sample records. Returns the list. */
    method RunScraping(indeed: seq<Response<IndeedPage>>, park: ParkResponses, join: UrlJoin) returns (result: seq<JobListing>)
      requires MAX_RETRIES <= |indeed| && park.Answered()
      modifies this
      ensures jobs == RunOutcome(old(jobs), indeed, park, join)
      ensures result == jobs
    {
      var indeedJobs := ScrapeIndeed(indeed, join);
      jobs := jobs + indeedJobs;
      var parkJobs := ScrapeCountyParks(park, join);
      jobs := jobs + parkJobs;
      if |jobs| == 0 {
        var sampleJobs := SampleJobs();
        jobs := jobs + sampleJobs;
      }
      result := jobs;
    }
  }

  /** A run that found anything keeps the earlier records first, then Indeed's, then the
      park sites', with no sample record added. */
  lemma RunOutcomeOrder(previous: seq<JobListing>, indeed: seq<Response<IndeedPage>>, park: ParkResponses, join: UrlJoin)
    requires MAX_RETRIES <= |indeed| && park.Answered()
    requires previous + IndeedJobs(indeed, join) + CountyParkJobs(park, join) != []
    ensures RunOutcome(previous, indeed, park, join) == previous + IndeedJobs(indeed, join) + CountyParkJobs(park, join)
    ensures |RunOutcome(previous, indeed, park, join)| == |previous| + |IndeedJobs(indeed, join)| + |CountyParkJobs(park, join)|
  {
  }

  /** A run never leaves the list empty, so its caller always has a record to send. */
  lemma RunOutcomeNonEmpty(previous: seq<JobListing>, indeed: seq<Response<IndeedPage>>, park: ParkResponses, join: UrlJoin)
    requires MAX_RETRIES <= |indeed| && park.Answered()
    ensures |RunOutcome(previous, indeed, park, join)| >= 1
  {
  }

  /** A run finds at most 20 Indeed records and 10 per park site beyond what the list held. */
  lemma {:induction false} RunOutcomeBound(previous: seq<JobListing>, indeed: seq<Response<IndeedPage>>, park: ParkResponses, join: UrlJoin)
    requires MAX_RETRIES <= |indeed| && park.Answered()
    ensures |RunOutcome(previous, indeed, park, join)| <= |previous| + INDEED_CARD_LIMIT + 5 * PARK_LINK_LIMIT
  {
    match Retry(indeed, 0, MAX_RETRIES).result {
      case None =>
      case Some(page) => IndeedRecordsBound(Take(JobCards(page), INDEED_CARD_LIMIT), join);
    }
    SiteJobsBound(HILLSBOROUGH_PARKS, park.hillsborough, join);
    SiteJobsBound(PINELLAS_PARKS, park.pinellas, join);
    SiteJobsBound(TAMPA_PARKS, park.tampa, join);
    SiteJobsBound(STPETE_PARKS, park.stPete, join);
    SiteJobsBound(FL_STATE_PARKS, park.stateParks, join);
  }

  lemma SiteJobsBound(site: ParkSite, responses: seq<Response<seq<Link>>>, join: UrlJoin)
    requires MAX_RETRIES <= |responses|
    ensures |SiteJobs(site, responses, join)| <= PARK_LINK_LIMIT
  {
    match Retry(responses, 0, MAX_RETRIES).result {
      case None =>
      case Some(links) => SiteRecordsBound(site, Take(links, PARK_LINK_LIMIT), join);
    }
  }

  /** A park site whose fetch fails three times gives no record. */
  lemma SiteDownGivesNothing(site: ParkSite, responses: seq<Response<seq<Link>>>, join: UrlJoin)
    requires MAX_RETRIES <= |responses|
    requires forall i :: 0 <= i < MAX_RETRIES ==> responses[i].Failed?
    ensures SiteJobs(site, responses, join) == []
  {
    RetryAllFail(responses, 0, MAX_RETRIES);
  }

  /** Every fetch of a fresh run failing three times leaves exactly the five sample records. */
  lemma AllSourcesDownGivesSamples(indeed: seq<Response<IndeedPage>>, park: ParkResponses, join: UrlJoin)
    requires MAX_RETRIES <= |indeed| && park.Answered()
    requires forall i :: 0 <= i < MAX_RETRIES ==> indeed[i].Failed?
    requires forall i :: 0 <= i < MAX_RETRIES ==>
      && park.hillsborough[i].Failed? && park.pinellas[i].Failed? && park.tampa[i].Failed?
      && park.stPete[i].Failed? && park.stateParks[i].Failed?
    ensures RunOutcome([], indeed, park, join) == SampleJobs()
  {
    RetryAllFail(indeed, 0, MAX_RETRIES);
    assert IndeedJobs(indeed, join) == [];
    assert CountyParkJobs(park, join) == [] by {
      SiteDownGivesNothing(HILLSBOROUGH_PARKS, park.hillsborough, join);
      SiteDownGivesNothing(PINELLAS_PARKS, park.pinellas, join);
      SiteDownGivesNothing(TAMPA_PARKS, park.tampa, join);
      SiteDownGivesNothing(STPETE_PARKS, park.stPete, join);
      SiteDownGivesNothing(FL_STATE_PARKS, park.stateParks, join);
    }
  }
}
