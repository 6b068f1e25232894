/** The run as `main` strings it together: scrape, then build the digest from the
    records the scraper holds. */
module Pipeline {
  import opened Jobs
  import opened Fetch
  import opened Extract
  import opened Scraper
  import opened Digest

  /** The digest of the five sample records: a total of 5, five sections in record order,
      one record each, and a "Posted: Recent" line in every record block. */
  lemma SampleDigest(date: string)
    ensures Grouped(SampleJobs()).WellFormed()
    ensures Page(Grouped(SampleJobs()), date)[0] == Opening(date, 5)
    ensures |Headers(Page(Grouped(SampleJobs()), date))| == 5
    ensures forall i :: 0 <= i < 5 ==> Headers(Page(Grouped(SampleJobs()), date))[i] == (SampleJobs()[i].source, 1)
    ensures forall i :: 0 <= i < 5 ==> PostedLines(JobHtml(SampleJobs()[i])) == ["Recent"]
  {
    var jobs := SampleJobs();
    SampleJobsShape();
    GroupedTotal(jobs);
    DistinctSourcesGrouping(jobs);
    PageShape(Grouped(jobs), date);
    forall i | 0 <= i < 5 ensures PostedLines(JobHtml(jobs[i])) == ["Recent"] {
      JobHtmlShape(jobs[i]);
    }
  }

  /** A fresh run always yields records, so `main` always goes on to send a digest; when every
      fetch fails three times that digest has five one-record sections. */
  lemma AllSourcesDownDigest(indeed: seq<Response<IndeedPage>>, park: ParkResponses, join: UrlJoin, date: string)
    requires MAX_RETRIES <= |indeed| && park.Answered()
    requires forall i :: 0 <= i < MAX_RETRIES ==> indeed[i].Failed?
    requires forall i :: 0 <= i < MAX_RETRIES ==>
      && park.hillsborough[i].Failed? && park.pinellas[i].Failed? && park.tampa[i].Failed?
      && park.stPete[i].Failed? && park.stateParks[i].Failed?
    ensures RunOutcome([], indeed, park, join) != []
    ensures Grouped(RunOutcome([], indeed, park, join)).WellFormed()
    ensures |Headers(Page(Grouped(RunOutcome([], indeed, park, join)), date))| == 5
    ensures forall i :: 0 <= i < 5 ==> Headers(Page(Grouped(RunOutcome([], indeed, park, join)), date))[i].1 == 1
  {
    AllSourcesDownGivesSamples(indeed, park, join);
    SampleDigest(date);
  }
}
