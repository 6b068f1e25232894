/** The e-mail digest: records grouped by source (first-seen order of sources,
    input order within a source) and the page built from the groups: a total
    count, one section per source with its count, one block per record, and a
    "Posted:" line for records whose date is truthy. The page is modelled as
    the sequence of fragments the source appends, without the literal template
    text; interpolated fields are carried as they are, unescaped. */
module Digest {
  import opened Jobs

  // ---------------------------------------------------------------------------
  // Grouping

  /** The distinct sources of `jobs`, in the order they are first seen. */
  function SourceOrder(jobs: seq<JobListing>): seq<string>
  {
    if jobs == [] then []
    else
      var order := SourceOrder(jobs[..|jobs| - 1]);
      var s := jobs[|jobs| - 1].source;
      if s in order then order else order + [s]
  }

  /** The records of `jobs` whose source is `s`, in input order. */
  function WithSource(jobs: seq<JobListing>, s: string): seq<JobListing>
  {
    if jobs == [] then []
    else
      var init := WithSource(jobs[..|jobs| - 1], s);
      if jobs[|jobs| - 1].source == s then init + [jobs[|jobs| - 1]] else init
  }

  function Sources(jobs: seq<JobListing>): set<string>
  {
    set j | j in jobs :: j.source
  }

  predicate Distinct(s: seq<string>)
  {
    forall i, j :: 0 <= i < j < |s| ==> s[i] != s[j]
  }

  /** An insertion-ordered dictionary from source to its records: the keys in
      insertion order and the map itself. */
  datatype SourceGroups = SourceGroups(order: seq<string>, groups: map<string, seq<JobListing>>)
  {
    predicate WellFormed()
    {
      && Distinct(order)
      && (forall s :: s in groups ==> s in order)
      && (forall s :: s in order ==> s in groups)
    }
  }

  /** The grouping of `jobs` by source. */
  function Grouped(jobs: seq<JobListing>): SourceGroups
  {
    SourceGroups(SourceOrder(jobs), map s | s in SourceOrder(jobs) :: WithSource(jobs, s))
  }

  /** The sum of the group sizes over `order`. */
  function SumSizes(order: seq<string>, groups: map<string, seq<JobListing>>): nat
    requires forall k :: k in order ==> k in groups
  {
    if order == [] then 0
    else SumSizes(order[..|order| - 1], groups) + |groups[order[|order| - 1]]|
  }

  /** `total_jobs`: the sum of the sizes of all groups. */
  function TotalJobs(g: SourceGroups): nat
    requires g.WellFormed()
  {
    SumSizes(g.order, g.groups)
  }

  /** A source is listed exactly when some record has it. */
  lemma {:induction false} SourceOrderMembers(jobs: seq<JobListing>)
    ensures forall s :: s in SourceOrder(jobs) <==> exists i :: 0 <= i < |jobs| && jobs[i].source == s
  {
    if jobs != [] {
      var init := jobs[..|jobs| - 1];
      SourceOrderMembers(init);
      forall s ensures s in SourceOrder(jobs) <==> exists i :: 0 <= i < |jobs| && jobs[i].source == s {
        if s in SourceOrder(init) {
          var i :| 0 <= i < |init| && init[i].source == s;
          assert jobs[i].source == s;
        }
        if i :| 0 <= i < |jobs| && jobs[i].source == s {
          if i < |init| {
            assert init[i].source == s;
          }
        }
      }
    }
  }

  /** No source is listed twice. */
  lemma {:induction false} SourceOrderDistinct(jobs: seq<JobListing>)
    ensures Distinct(SourceOrder(jobs))
  {
    if jobs != [] {
      SourceOrderDistinct(jobs[..|jobs| - 1]);
    }
  }

  lemma {:induction false} DistinctCardinality(s: seq<string>)
    requires Distinct(s)
    ensures |set x | x in s| == |s|
  {
    if s != [] {
      var init := s[..|s| - 1];
      assert Distinct(init);
      DistinctCardinality(init);
      assert (set x | x in s) == (set x | x in init) + {s[|s| - 1]};
      assert s[|s| - 1] !in init;
    }
  }

  /** There are as many listed sources as distinct source values. */
  lemma SourceOrderCount(jobs: seq<JobListing>)
    ensures |SourceOrder(jobs)| == |Sources(jobs)|
  {
    SourceOrderMembers(jobs);
    SourceOrderDistinct(jobs);
    DistinctCardinality(SourceOrder(jobs));
    assert (set x | x in SourceOrder(jobs)) == Sources(jobs) by {
      forall x | x in Sources(jobs) ensures x in SourceOrder(jobs) {
        var j :| j in jobs && j.source == x;
        var i :| 0 <= i < |jobs| && jobs[i] == j;
      }
    }
  }

  /** Sources are listed in first-seen order: every record of a later source comes after
      some record of each earlier source. */
  lemma {:induction false} SourceOrderFirstSeen(jobs: seq<JobListing>)
    ensures forall i, j, q :: 0 <= i < j < |SourceOrder(jobs)| && 0 <= q < |jobs| && jobs[q].source == SourceOrder(jobs)[j] ==>
      exists p :: 0 <= p < q && jobs[p].source == SourceOrder(jobs)[i]
  {
    if jobs != [] {
      var init := jobs[..|jobs| - 1];
      var order, order0 := SourceOrder(jobs), SourceOrder(init);
      var x := jobs[|jobs| - 1];
      SourceOrderFirstSeen(init);
      SourceOrderMembers(init);
      assert order[..|order0|] == order0;
      assert |order| == |order0| || (|order| == |order0| + 1 && order[|order0|] == x.source && x.source !in order0);
      forall i, j, q | 0 <= i < j < |order| && 0 <= q < |jobs| && jobs[q].source == order[j]
        ensures exists p :: 0 <= p < q && jobs[p].source == order[i]
      {
        assert order[i] == order0[i] && order0[i] in order0;
        if q == |init| {
          var p :| 0 <= p < |init| && init[p].source == order0[i];
          assert jobs[p] == init[p];
        } else {
          assert init[q] == jobs[q];
          assert order[j] in order0;
          assert j < |order0|;
          assert order[j] == order0[j];
          var p :| 0 <= p < q && init[p].source == order0[i];
          assert jobs[p] == init[p];
        }
      }
      assert order == SourceOrder(jobs);
    }
  }

  /** Each group holds only records with its source. */
  lemma {:induction false} WithSourceSound(jobs: seq<JobListing>, s: string)
    ensures forall j :: j in WithSource(jobs, s) ==> j.source == s
  {
    if jobs != [] {
      WithSourceSound(jobs[..|jobs| - 1], s);
    }
  }

  /** A group keeps input order: the records of an earlier part come first. */
  lemma {:induction false} WithSourceAppend(a: seq<JobListing>, b: seq<JobListing>, s: string)
    ensures WithSource(a + b, s) == WithSource(a, s) + WithSource(b, s)
    decreases |b|
  {
    if b == [] {
      assert a + b == a;
    } else {
      assert (a + b)[..|a + b| - 1] == a + b[..|b| - 1];
      WithSourceAppend(a, b[..|b| - 1], s);
    }
  }

  /** A source that is not listed has no records. */
  lemma WithSourceUnlisted(jobs: seq<JobListing>, s: string)
    requires s !in SourceOrder(jobs)
    ensures WithSource(jobs, s) == []
  {
    SourceOrderMembers(jobs);
    WithSourceSound(jobs, s);
    if WithSource(jobs, s) != [] {
      WithSourceFrom(jobs, s, WithSource(jobs, s)[0]);
    }
  }

  /** A member of a group is a record of the input. */
  lemma {:induction false} WithSourceFrom(jobs: seq<JobListing>, s: string, j: JobListing)
    requires j in WithSource(jobs, s)
    ensures exists i :: 0 <= i < |jobs| && jobs[i] == j && j.source == s
  {
    var init := jobs[..|jobs| - 1];
    if j in WithSource(init, s) {
      WithSourceFrom(init, s, j);
      var i :| 0 <= i < |init| && init[i] == j && j.source == s;
      assert jobs[i] == j;
    } else {
      assert jobs[|jobs| - 1] == j && j.source == s;
    }
  }

  /** When no two records share a source, every record forms its own group and the
      sources are listed in record order. */
  lemma {:induction false} DistinctSourcesGrouping(jobs: seq<JobListing>)
    requires forall i, j :: 0 <= i < j < |jobs| ==> jobs[i].source != jobs[j].source
    ensures |SourceOrder(jobs)| == |jobs|
    ensures forall i :: 0 <= i < |jobs| ==> SourceOrder(jobs)[i] == jobs[i].source
    ensures forall i :: 0 <= i < |jobs| ==> WithSource(jobs, jobs[i].source) == [jobs[i]]
  {
    if jobs != [] {
      var init := jobs[..|jobs| - 1];
      var x := jobs[|jobs| - 1];
      DistinctSourcesGrouping(init);
      SourceOrderMembers(init);
      assert x.source !in SourceOrder(init);
      WithSourceUnlisted(init, x.source);
      forall i | 0 <= i < |init| ensures WithSource(jobs, jobs[i].source) == [jobs[i]] {
        assert init[i] == jobs[i];
      }
    }
  }

  /** The sizes of the groups of `order` in `jobs`, summed. */
  function CountBySource(order: seq<string>, jobs: seq<JobListing>): nat
  {
    if order == [] then 0
    else CountBySource(order[..|order| - 1], jobs) + |WithSource(jobs, order[|order| - 1])|
  }

  lemma {:induction false} CountBySourceStep(order: seq<string>, jobs: seq<JobListing>, x: JobListing)
    requires Distinct(order)
    ensures CountBySource(order, jobs + [x]) == CountBySource(order, jobs) + (if x.source in order then 1 else 0)
  {
    assert (jobs + [x])[..|jobs + [x]| - 1] == jobs;
    if order != [] {
      var init := order[..|order| - 1];
      assert Distinct(init);
      CountBySourceStep(init, jobs, x);
      assert x.source in order <==> x.source in init || x.source == order[|order| - 1];
      assert !(x.source in init && x.source == order[|order| - 1]);
    }
  }

  /** The group sizes sum to the number of records. */
  lemma {:induction false} CountBySourceTotal(jobs: seq<JobListing>)
    ensures CountBySource(SourceOrder(jobs), jobs) == |jobs|
  {
    if jobs != [] {
      var init := jobs[..|jobs| - 1];
      var x := jobs[|jobs| - 1];
      assert jobs == init + [x];
      var order0 := SourceOrder(init);
      CountBySourceTotal(init);
      SourceOrderDistinct(init);
      CountBySourceStep(order0, init, x);
      if x.source !in order0 {
        var order := order0 + [x.source];
        assert order[..|order| - 1] == order0;
        WithSourceUnlisted(init, x.source);
        assert WithSource(jobs, x.source) == [x];
      }
    }
  }

  lemma {:induction false} SumSizesGrouped(order: seq<string>, jobs: seq<JobListing>, groups: map<string, seq<JobListing>>)
    requires forall k :: k in order ==> k in groups && groups[k] == WithSource(jobs, k)
    ensures SumSizes(order, groups) == CountBySource(order, jobs)
  {
    if order != [] {
      SumSizesGrouped(order[..|order| - 1], jobs, groups);
    }
  }

  /** The grouping is a well-formed dictionary whose total is the number of records. */
  lemma GroupedTotal(jobs: seq<JobListing>)
    ensures Grouped(jobs).WellFormed()
    ensures TotalJobs(Grouped(jobs)) == |jobs|
  {
    SourceOrderDistinct(jobs);
    SumSizesGrouped(SourceOrder(jobs), jobs, Grouped(jobs).groups);
    CountBySourceTotal(jobs);
  }

  /** `create_email`'s grouping loop. */
  method GroupBySource(jobs: seq<JobListing>) returns (g: SourceGroups)
    ensures g == Grouped(jobs)
    ensures g.WellFormed() && TotalJobs(g) == |jobs|
  {
    var order: seq<string> := [];
    var groups: map<string, seq<JobListing>> := map[];
    for i := 0 to |jobs|
      invariant order == SourceOrder(jobs[..i])
      invariant forall s :: s in groups ==> s in order
      invariant forall s :: s in order ==> s in groups
      invariant forall s :: s in groups ==> groups[s] == WithSource(jobs[..i], s)
    {
      assert jobs[..i + 1][..i] == jobs[..i];
      var source := jobs[i].source;
      if source !in groups {
        WithSourceUnlisted(jobs[..i], source);
        order := order + [source];
        groups := groups[source := []];
      }
      groups := groups[source := groups[source] + [jobs[i]]];
    }
    assert jobs[..|jobs|] == jobs;
    g := SourceGroups(order, groups);
    GroupedTotal(jobs);
  }

  // ---------------------------------------------------------------------------
  // The page

  /** The pieces `_generate_html_content` appends, in order. */
  datatype Fragment =
    | Opening(date: string, totalJobs: int)         // head, header with the date, summary with the total
    | SectionHeader(source: string, count: int)     // section start with "<source> (<count> jobs)"
    | JobBlock(title: string, company: string, location: string, description: string, url: string)
    | PostedLine(datePosted: string)                // "Posted: <date>"
    | JobClose
    | SectionClose
    | Closing                                       // footer and end of document

  function JobHtml(job: JobListing): seq<Fragment>
  {
    [JobBlock(job.title, job.company, job.location, job.description, job.url)]
      + (if Truthy(job.datePosted) then [PostedLine(job.datePosted.value)] else [])
      + [JobClose]
  }

  function JobsHtml(jobs: seq<JobListing>): seq<Fragment>
  {
    if jobs == [] then [] else JobsHtml(jobs[..|jobs| - 1]) + JobHtml(jobs[|jobs| - 1])
  }

  function SectionHtml(source: string, jobs: seq<JobListing>): seq<Fragment>
  {
    [SectionHeader(source, |jobs|)] + JobsHtml(jobs) + [SectionClose]
  }

  function SectionsHtml(order: seq<string>, groups: map<string, seq<JobListing>>): seq<Fragment>
    requires forall k :: k in order ==> k in groups
  {
    if order == [] then []
    else
      var last := order[|order| - 1];
      SectionsHtml(order[..|order| - 1], groups) + SectionHtml(last, groups[last])
  }

  /** The whole page for a grouping. */
  function Page(g: SourceGroups, date: string): seq<Fragment>
    requires g.WellFormed()
  {
    [Opening(date, TotalJobs(g))] + SectionsHtml(g.order, g.groups) + [Closing]
  }

  /** `_generate_html_content`'s loop over the records of one section. */
  method JobsContent(jobs: seq<JobListing>) returns (html: seq<Fragment>)
    ensures html == JobsHtml(jobs)
  {
    html := [];
    for j := 0 to |jobs|
      invariant html == JobsHtml(jobs[..j])
    {
      var job := jobs[j];
      var block := [JobBlock(job.title, job.company, job.location, job.description, job.url)];
      if Truthy(job.datePosted) {
        block := block + [PostedLine(job.datePosted.value)];
      }
      block := block + [JobClose];
      JobsHtmlStep(jobs, j);
      html := html + block;
    }
    assert jobs[..|jobs|] == jobs;
  }

  /** `_generate_html_content`. */
  method GenerateHtmlContent(g: SourceGroups, date: string) returns (html: seq<Fragment>)
    requires g.WellFormed()
    ensures html == Page(g, date)
  {
    var order, groups := g.order, g.groups;
    var totalJobs := SumSizes(order, groups);
    var body := [];
    for i := 0 to |order|
      invariant body == SectionsHtml(order[..i], groups)
    {
      var source := order[i];
      var jobs := groups[source];
      var section := JobsContent(jobs);
      SectionsHtmlStep(order, groups, i);
      body := body + ([SectionHeader(source, |jobs|)] + section + [SectionClose]);
    }
    assert order[..|order|] == order;
    html := [Opening(date, totalJobs)] + body + [Closing];
  }

  lemma JobsHtmlStep(jobs: seq<JobListing>, j: nat)
    requires j < |jobs|
    ensures JobsHtml(jobs[..j + 1]) == JobsHtml(jobs[..j]) + JobHtml(jobs[j])
  {
    assert jobs[..j + 1][..j] == jobs[..j];
  }

  lemma SectionsHtmlStep(order: seq<string>, groups: map<string, seq<JobListing>>, i: nat)
    requires forall k :: k in order ==> k in groups
    requires i < |order|
    ensures SectionsHtml(order[..i + 1], groups) == SectionsHtml(order[..i], groups) + SectionHtml(order[i], groups[order[i]])
  {
    assert order[..i + 1][..i] == order[..i];
  }

  /** The section headers of a fragment sequence: source and count, in order. */
  function Headers(f: seq<Fragment>): seq<(string, int)>
  {
    if f == [] then []
    else (if f[0].SectionHeader? then [(f[0].source, f[0].count)] else []) + Headers(f[1..])
  }

  /** The number of record blocks in a fragment sequence. */
  function BlockCount(f: seq<Fragment>): nat
  {
    if f == [] then 0 else (if f[0].JobBlock? then 1 else 0) + BlockCount(f[1..])
  }

  /** The dates shown on "Posted:" lines, in order. */
  function PostedLines(f: seq<Fragment>): seq<string>
  {
    if f == [] then []
    else (if f[0].PostedLine? then [f[0].datePosted] else []) + PostedLines(f[1..])
  }

  lemma {:induction false} HeadersAppend(a: seq<Fragment>, b: seq<Fragment>)
    ensures Headers(a + b) == Headers(a) + Headers(b)
    decreases |a|
  {
    if a == [] {
      assert a + b == b;
    } else {
      assert (a + b)[1..] == a[1..] + b;
      HeadersAppend(a[1..], b);
    }
  }

  lemma {:induction false} BlockCountAppend(a: seq<Fragment>, b: seq<Fragment>)
    ensures BlockCount(a + b) == BlockCount(a) + BlockCount(b)
    decreases |a|
  {
    if a == [] {
      assert a + b == b;
    } else {
      assert (a + b)[1..] == a[1..] + b;
      BlockCountAppend(a[1..], b);
    }
  }

  /** A record's block: no section header, one record block, and a "Posted:" line with its
      date exactly when the date is truthy. */
  lemma JobHtmlShape(job: JobListing)
    ensures Headers(JobHtml(job)) == []
    ensures BlockCount(JobHtml(job)) == 1
    ensures PostedLines(JobHtml(job)) == if Truthy(job.datePosted) then [job.datePosted.value] else []
  {
    var f := JobHtml(job);
    var block := JobBlock(job.title, job.company, job.location, job.description, job.url);
    if Truthy(job.datePosted) {
      var posted := PostedLine(job.datePosted.value);
      assert f == [block, posted, JobClose];
      assert [block, posted, JobClose][1..] == [posted, JobClose];
      assert [posted, JobClose][1..] == [JobClose];
      assert [JobClose][1..] == [];
      assert Headers([JobClose]) == [] && BlockCount([JobClose]) == 0 && PostedLines([JobClose]) == [];
      assert Headers([posted, JobClose]) == [] && BlockCount([posted, JobClose]) == 0;
      assert PostedLines([posted, JobClose]) == [job.datePosted.value];
    } else {
      assert f == [block, JobClose];
      assert [block, JobClose][1..] == [JobClose];
      assert [JobClose][1..] == [];
    }
  }

  /** A record's block shows a "Posted:" line exactly when its date is truthy. */
  lemma JobPostedIffTruthy(job: JobListing)
    ensures (exists k :: 0 <= k < |JobHtml(job)| && JobHtml(job)[k].PostedLine?) <==> Truthy(job.datePosted)
  {
    if Truthy(job.datePosted) {
      assert JobHtml(job)[1].PostedLine?;
    }
  }

  /** Record blocks add no section header, and one block per record. */
  lemma {:induction false} JobsHtmlShape(jobs: seq<JobListing>)
    ensures Headers(JobsHtml(jobs)) == []
    ensures BlockCount(JobsHtml(jobs)) == |jobs|
  {
    if jobs != [] {
      var last := jobs[|jobs| - 1];
      JobsHtmlShape(jobs[..|jobs| - 1]);
      HeadersAppend(JobsHtml(jobs[..|jobs| - 1]), JobHtml(last));
      BlockCountAppend(JobsHtml(jobs[..|jobs| - 1]), JobHtml(last));
      JobHtmlShape(last);
    }
  }

  /** One section per source, in order, each with the size of its group; one block per record. */
  lemma {:induction false} SectionsHtmlShape(order: seq<string>, groups: map<string, seq<JobListing>>)
    requires forall k :: k in order ==> k in groups
    ensures |Headers(SectionsHtml(order, groups))| == |order|
    ensures forall i :: 0 <= i < |order| ==> Headers(SectionsHtml(order, groups))[i] == (order[i], |groups[order[i]]|)
    ensures BlockCount(SectionsHtml(order, groups)) == SumSizes(order, groups)
  {
    if order != [] {
      var init := order[..|order| - 1];
      var last := order[|order| - 1];
      SectionsHtmlShape(init, groups);
      var s := SectionHtml(last, groups[last]);
      HeadersAppend(SectionsHtml(init, groups), s);
      BlockCountAppend(SectionsHtml(init, groups), s);
      HeadersAppend([SectionHeader(last, |groups[last]|)], JobsHtml(groups[last]));
      BlockCountAppend([SectionHeader(last, |groups[last]|)], JobsHtml(groups[last]));
      HeadersAppend([SectionHeader(last, |groups[last]|)] + JobsHtml(groups[last]), [SectionClose]);
      BlockCountAppend([SectionHeader(last, |groups[last]|)] + JobsHtml(groups[last]), [SectionClose]);
      JobsHtmlShape(groups[last]);
      assert Headers(s) == [(last, |groups[last]|)];
    }
  }

  /** The page opens with the date and the total, then one section per key in key order
      with its group's size, and holds one block per record of the groups. */
  lemma PageShape(g: SourceGroups, date: string)
    requires g.WellFormed()
    ensures Page(g, date)[0] == Opening(date, TotalJobs(g))
    ensures |Headers(Page(g, date))| == |g.order|
    ensures forall i :: 0 <= i < |g.order| ==> Headers(Page(g, date))[i] == (g.order[i], |g.groups[g.order[i]]|)
    ensures BlockCount(Page(g, date)) == TotalJobs(g)
  {
    var body := SectionsHtml(g.order, g.groups);
    SectionsHtmlShape(g.order, g.groups);
    HeadersAppend([Opening(date, TotalJobs(g))], body);
    BlockCountAppend([Opening(date, TotalJobs(g))], body);
    HeadersAppend([Opening(date, TotalJobs(g))] + body, [Closing]);
    BlockCountAppend([Opening(date, TotalJobs(g))] + body, [Closing]);
  }

  /** `create_email`'s content: group, then build the page. The total shown is the number of
      records, there is one section per distinct source in first-seen order, each section's count
      is the number of records with that source, and there is one block per record. */
  method CreateEmail(jobs: seq<JobListing>, date: string) returns (html: seq<Fragment>)
    ensures Grouped(jobs).WellFormed() && html == Page(Grouped(jobs), date)
    ensures html[0] == Opening(date, |jobs|)
    ensures |Headers(html)| == |SourceOrder(jobs)| == |Sources(jobs)|
    ensures forall i :: 0 <= i < |SourceOrder(jobs)| ==>
      Headers(html)[i] == (SourceOrder(jobs)[i], |WithSource(jobs, SourceOrder(jobs)[i])|)
    ensures BlockCount(html) == |jobs|
  {
    var g := GroupBySource(jobs);
    html := GenerateHtmlContent(g, date);
    PageShape(g, date);
    SourceOrderCount(jobs);
  }
}
