# Outdoor job scraper: a Dafny model of its record logic

`outdoor_job_scraper.py` does seven things:

- It fetches an Indeed search page and five park-and-recreation career pages around Tampa Bay.
- Each fetch uses a retry policy with exponential backoff.
- It turns the page elements into `JobListing` records.
- It appends them to the scraper's job list.
- It falls back to five canned sample records when nothing was found.
- It groups the records by source.
- It builds an HTML digest e-mail that shows a total and one section per source.

This project models that record logic and proves what it promises.

- `jobs.dfy` (module `Jobs`): the `JobListing` record, `Option`, and Python truthiness of an optional string.
- `text.dfy` (module `Text`): `lower()` restricted to ASCII letters, and the substring test `k in s`.
- `fetch.dfy` (module `Fetch`): the retry policy of `make_request` as a function of the HTTP outcome of each attempt. It records the sleeps it makes.
- `extract.dfy` (module `Extract`): the Indeed card rules and the park-site link filter. A parsed page is abstracted:
  - an Indeed page is a list of cards, each with a primary and a fallback lookup per field;
  - a park page is the list of career links.
- `scraper.dfy` (module `Scraper`): the class `OutdoorJobScraper` with its mutable `jobs` list. Its methods `MakeRequest`, `ScrapeIndeed` and `ScrapeParkSite` are loops, and `ScrapeCountyParks` and `RunScraping` are straight-line code; each is proved equal to a specification function. It also holds the sample records.
- `digest.dfy` (module `Digest`): the grouping loop of `create_email`, and the structure of `_generate_html_content` as a sequence of fragments, one per `+=` of the source.
- `pipeline.dfy` (module `Pipeline`): the digest that `main` gets for the sample records, and for a run in which every site is down.

The five `_scrape_*_parks` methods are copies of one loop that differ only in URL, keywords and fixed field values. They are modelled as one method, `ScrapeParkSite`, over a `ParkSite` descriptor. The five descriptors `HILLSBOROUGH_PARKS`, `PINELLAS_PARKS`, `TAMPA_PARKS`, `STPETE_PARKS` and `FL_STATE_PARKS` carry the source's constants.

One decision follows from bs4 semantics. A found tag is always truthy, so `card.find(a) or card.find(b)` uses the fallback only when the primary lookup finds nothing.

`title_elem.find('a')['href']` raises `KeyError` when the anchor has no `href`. The per-card `except` catches it and the card is skipped. The model keeps that as the outcome `MissingHref`.

The five sample records have five different sources, so their digest has five sections of one record each (`Pipeline.SampleDigest`).

## Model

| member | source | states |
|---|---|---|
| Jobs.Take | outdoor_job_scraper.py:121 | `s[:n]` on a list: the first `min(n, len)` elements, unchanged and in order |
| Text.Lower | outdoor_job_scraper.py:207 | lower-casing keeps the length and maps each letter A-Z to its lower-case letter; no upper-case letter remains and every other character is kept |
| Text.ContainsIffOccurs | outdoor_job_scraper.py:207 | the substring test holds exactly when the keyword occurs at some index of the text |
| Text.ContainsBounds | outdoor_job_scraper.py:207 | a match is no longer than the text, equals it when as long, and starts with a character of the text |
| Fetch.RetryPolitenessPerRequest | outdoor_job_scraper.py:83-86 | the number of 1-second politeness delays equals the number of requests |
| Fetch.RetryResult | outdoor_job_scraper.py:83-96 | at most `max_retries` requests; a page comes back exactly when some allowed attempt succeeds; it is the page of the last request, and every earlier request failed |
| Fetch.RetryFirstSuccess | outdoor_job_scraper.py:83-92 | the first successful attempt `k` returns its page after `k+1` requests, with backoffs of `2^attempt`, …, `2^(k-1)` seconds |
| Fetch.RetryFirstSuccessLog | outdoor_job_scraper.py:83-92 | up to the first success `k` the sleep log is, for each earlier attempt `i`, a politeness delay then a `2^i`-second backoff, and finally the politeness delay of attempt `k` |
| Fetch.RetryAllFail | outdoor_job_scraper.py:89-95 | when every remaining attempt fails: `None`, one request per attempt, and a backoff doubling from `2^attempt` after every failure but the last |
| Fetch.RetryAllFailLog | outdoor_job_scraper.py:89-95 | when every remaining attempt fails the sleep log is a politeness delay and a doubling backoff per failure but the last, ending with the last attempt's politeness delay |
| Fetch.FetchAllFail | outdoor_job_scraper.py:83-95 | all `max_retries` attempts failing gives `None` (no exception), `max_retries` requests, the log politeness, `2^0`, politeness, `2^1`, …, politeness, and so exactly `max_retries - 1` backoffs of `2^i` seconds |
| Fetch.FetchNoAttempts | outdoor_job_scraper.py:83-96 | with `max_retries <= 0`: no request, no sleep, and `None` |
| Fetch.ThreeFailures | outdoor_job_scraper.py:81-95 | three failures under the default limit of 3 sleep 1 s, back off 1 s, sleep 1 s, back off 2 s, sleep 1 s, and return `None` |
| Scraper.OutdoorJobScraper.MakeRequest | outdoor_job_scraper.py:81-96 | the retry loop produces exactly the result, sleep log and request count of the retry policy |
| Extract.Truncate | outdoor_job_scraper.py:140 | `s[:200]`: at most 200 characters, a prefix of the text, and the whole text when short enough |
| Extract.CardRecord | outdoor_job_scraper.py:124-158 | a card is skipped exactly when neither title selector matches, or when the title's first anchor has no href (the caught KeyError); otherwise each field is taken from the primary element, else the fallback, else "Unknown Company" / "Tampa Bay Area" / "No description available" / `None`, the description is cut to 200 characters, the url is `urljoin(base, href)` or "" without an anchor, and the source is "Indeed.com" |
| Extract.IndeedRecordsBound | outdoor_job_scraper.py:121-162 | the card loop gives at most one record per card |
| Extract.IndeedRecordsSound | outdoor_job_scraper.py:121-158 | every record is the record of some card that had a title, and an href if its title holds an anchor |
| Extract.IndeedRecordsComplete | outdoor_job_scraper.py:121-158 | every card that parses contributes its record |
| Extract.IndeedRecordsAppend | outdoor_job_scraper.py:121-158 | records appear in card order |
| Extract.SiteRecordSource | outdoor_job_scraper.py:205-216 | record number `k` comes from a link `i` whose lower-cased text contains a keyword, with that link's text as title, `urljoin(page, href)` as url, the site's fixed fields and no date |
| Extract.SiteRecordsBound | outdoor_job_scraper.py:205-216 | the link loop gives at most one record per link |
| Extract.SiteRecordsSound | outdoor_job_scraper.py:205-216 | every record comes from a link whose lower-cased text contains one of the site's keywords, and carries that link's text as title, `urljoin(page, href)` as url, the site's fixed company, location, description and source, and no date |
| Extract.SiteRecordsComplete | outdoor_job_scraper.py:205-216 | every link whose lower-cased text contains a keyword gives a record |
| Extract.SiteRecordsAppend | outdoor_job_scraper.py:205-216 | records appear in link order |
| Extract.ParkingMatches | outdoor_job_scraper.py:207 | the test matches substrings: "Parking Attendant" is kept by a county site |
| Extract.RangerOnlyOnStateParks | outdoor_job_scraper.py:303-315 | "Ranger" is kept by the state-parks page, whose keyword list adds "ranger", and not by a county page |
| Scraper.OutdoorJobScraper.ScrapeIndeed | outdoor_job_scraper.py:98-165 | an empty list when the fetch fails; otherwise the card-loop records of the first 20 cards of the beacon list, or of the `data-jk` list when that is empty; at most 20 records, all with source "Indeed.com" |
| Scraper.OutdoorJobScraper.ScrapeParkSite | outdoor_job_scraper.py:195-220 | an empty list when the fetch fails; otherwise the records of the relevant links among the first 10; at most 10 records, each with the site's fixed fields and a title that matches a keyword |
| Scraper.OutdoorJobScraper.ScrapeCountyParks | outdoor_job_scraper.py:167-193 | Hillsborough, Pinellas, Tampa, St. Petersburg and State Parks records, in that order; at most 50 |
| Scraper.SiteJobsBound | outdoor_job_scraper.py:205 | one park site yields at most 10 records |
| Scraper.SiteDownGivesNothing | outdoor_job_scraper.py:201-202 | a site whose fetch fails three times contributes nothing |
| Scraper.OutdoorJobScraper.constructor | outdoor_job_scraper.py:60-75 | a new scraper keeps the e-mail address and has an empty job list |
| Scraper.OutdoorJobScraper.RunScraping | outdoor_job_scraper.py:392-414 | `jobs` becomes the old jobs, then Indeed's, then the five park sites' records, or the sample records when that is empty; the new list is returned |
| Scraper.RunOutcomeOrder | outdoor_job_scraper.py:397-403 | when anything was found, the list is exactly old ++ Indeed ++ parks, with no sample record, and its length is the sum |
| Scraper.RunOutcomeNonEmpty | outdoor_job_scraper.py:403-406 | a run never leaves the job list empty |
| Scraper.RunOutcomeBound | outdoor_job_scraper.py:392-408 | a run adds at most 70 records (20 from Indeed, 10 per park site) |
| Scraper.AllSourcesDownGivesSamples | outdoor_job_scraper.py:392-408 | a fresh scraper whose six fetches all fail ends with exactly the five sample records |
| Scraper.SampleJobsShape | outdoor_job_scraper.py:341-390 | five sample records with the five documented titles in order, five different sources, all posted "Recent" |
| Digest.SourceOrderMembers | outdoor_job_scraper.py:463-468 | a source is a dictionary key exactly when some record has it |
| Digest.SourceOrderDistinct | outdoor_job_scraper.py:463-468 | no key appears twice |
| Digest.SourceOrderCount | outdoor_job_scraper.py:463-468 | the number of groups is the number of distinct sources |
| Digest.SourceOrderFirstSeen | outdoor_job_scraper.py:463-468 | keys are in first-seen order: each record of a later key comes after some record of every earlier key |
| Digest.WithSourceSound | outdoor_job_scraper.py:465-468 | a group holds only records with its source |
| Digest.WithSourceAppend | outdoor_job_scraper.py:464-468 | a group keeps input order |
| Digest.WithSourceUnlisted | outdoor_job_scraper.py:464-468 | a source that is not a key has no records |
| Digest.WithSourceFrom | outdoor_job_scraper.py:464-468 | every member of a group is a record of the input |
| Digest.DistinctSourcesGrouping | outdoor_job_scraper.py:463-468 | when all sources differ, the keys are the sources in record order and each group is that one record |
| Digest.CountBySourceTotal | outdoor_job_scraper.py:463-468 | the group sizes sum to the number of records |
| Digest.GroupedTotal | outdoor_job_scraper.py:463-487 | the grouping is a well-formed insertion-ordered dictionary whose `total_jobs` is `len(jobs)` |
| Digest.GroupBySource | outdoor_job_scraper.py:463-468 | the dictionary-building loop gives exactly that grouping, and its total is the number of records |
| Digest.JobsContent | outdoor_job_scraper.py:629-642 | the record loop emits, per record, a block, a "Posted:" line when the date is truthy, and the block's end |
| Digest.GenerateHtmlContent | outdoor_job_scraper.py:485-656 | the page is the opening with the date and the total, one section per key in key order (header with the source and its group size, its records, section end), and the footer |
| Digest.JobHtmlShape | outdoor_job_scraper.py:629-642 | one record gives one block, no section header, and a "Posted:" line showing its date exactly when the date is truthy |
| Digest.JobPostedIffTruthy | outdoor_job_scraper.py:639-640 | a record's output holds a "Posted:" line exactly when `date_posted` is truthy |
| Digest.JobsHtmlShape | outdoor_job_scraper.py:629-642 | the records of a section give one block each and no section header |
| Digest.SectionsHtmlShape | outdoor_job_scraper.py:623-644 | one header per key, in key order, each with its group's size; one block per grouped record |
| Digest.PageShape | outdoor_job_scraper.py:485-656 | the page opens with the date and the total, lists one header per key with its size, and holds one block per grouped record |
| Digest.CreateEmail | outdoor_job_scraper.py:457-471 | the digest's total is the number of records, it has one section per distinct source in first-seen order, each section's count is the number of records with that source, and it has one block per record |
| Pipeline.SampleDigest | outdoor_job_scraper.py:341-390 | the sample digest shows a total of 5, five one-record sections in record order, and "Posted: Recent" under every record |
| Pipeline.AllSourcesDownDigest | outdoor_job_scraper.py:698-706 | when every fetch fails the job list is not empty, so `main` sends a digest, and that digest has five sections of one record each |

## Left out

- The HTTP session, its headers, `session.get`, `raise_for_status` and the request timeout are network I/O. Each attempt's outcome is an input sequence of `Ok(page)` / `Failed`.
- `time.sleep` and `delay_request` are not executed. The sleeps are returned as a log of `Politeness` (the 1.0-second delay) and `Backoff(2^attempt)` pauses.
- `make_request` only catches `RequestException`. Any other exception from the parser or the session propagates, and is not modelled.
- BeautifulSoup parsing, `find` / `find_all`, `get_text(strip=True)` and the `career|job|employment` href regex are replaced by abstract cards and links whose texts are already stripped.
- `urljoin` is a library call. It is a function parameter (`UrlJoin`) that the model does not look into.
- The Indeed query string built from `params` is not modelled. The fetch is an oracle, so the URL plays no part.
- `Text.Lower`: does not model Unicode case mapping; only the ASCII letters A to Z are lower-cased.
- An exception inside a park scraper's link loop would keep the records appended before it, because its `except` is outside the loop. Apart from the not-modelled `urljoin` and parser calls, nothing in the loop can raise, so that case is not modelled. The Indeed card loop catches exceptions per card; the one that arises from modelled data, the missing href, is modelled.
- `save_to_json` and its use in `run_scraping`, together with `json` / `asdict` serialisation, are file I/O.
- `GmailSender.__init__`, `authenticate`, the OAuth token files, `send_email`, base64 encoding and the MIME message (subject, From, To) are external API and library plumbing.
- `datetime.now()` is ambient. The date shown in the digest is a string parameter of `CreateEmail`.
- The environment lookup and messages of `main`, and all logging, are side effects.
- The literal CSS and HTML template text is not reproduced. The page is the sequence of fragments the source appends, and field values are interpolated unescaped, as in the source.
- `Digest.GenerateHtmlContent`: the source appends the record blocks to one growing string. The model builds each section's record blocks with the separate method `Digest.JobsContent` and then appends them. The resulting fragment sequence is the same.
