/** The job record shared by the scraper and the digest builder. */
module Jobs {

  datatype Option<+T> = None | Some(value: T)

  /** One job posting. `datePosted` and `experienceLevel` are optional;
      every other field is a plain string. Records are never updated. */
  datatype JobListing = JobListing(
    title: string,
    company: string,
    location: string,
    description: string,
    url: string,
    datePosted: Option<string>,
    experienceLevel: Option<string>,
    source: string)

  /** Truthiness of an optional string: `None` and the empty string are false. */
  predicate Truthy(s: Option<string>)
  {
    s.Some? && s.value != ""
  }

  /** The first `n` elements of `s`, or all of them when `s` is shorter (a slice `s[:n]`). */
  function Take<T>(s: seq<T>, n: nat): (r: seq<T>)
    ensures |r| <= n && |r| <= |s|
    ensures |s| <= n ==> r == s
    ensures n <= |s| ==> |r| == n
    ensures forall i :: 0 <= i < |r| ==> r[i] == s[i]
  {
    if |s| <= n then s else s[..n]
  }
}
