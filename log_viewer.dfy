/** The trial-log parser of the log viewer: a flat log of lines becomes a
    sequence of jobs, each holding the sections found in it. The tree widgets
    of the viewer are replaced by the `Job` and `Section` records they display. */
module LogViewer {
  import opened Strings
  import opened Wrappers

  /** Icon class of a job, picked from its title. */
  datatype JobKind = SearchJob | CrossValidateJob | PlainJob

  /** Icon class of a section, picked from its title. */
  datatype SectionKind = SummarySection | ResultSection

  /** A section: its title line and its text (the title line followed by its
      data lines, joined with the line separator). */
  datatype Section = Section(title: string, kind: SectionKind, body: string)

  datatype Job = Job(title: string, kind: JobKind, sections: seq<Section>)

  /** The two reserved marker lines of the log and the platform line separator. */
  datatype Format = Format(jobMarker: string, sectionMarker: string, lineSep: string)

  /** The markers are the labels of two cases of one `switch`, so they differ. */
  predicate ValidFormat(f: Format) {
    f.jobMarker != f.sectionMarker
  }

  const NoValidJobs := "Trial log had no valid jobs in it."

  function JobKindOf(title: string): JobKind {
    if StartsWith(title, "Search ") then SearchJob
    else if StartsWith(title, "Cross-Validate ") then CrossValidateJob
    else PlainJob
  }

  function SectionKindOf(title: string): SectionKind {
    if StartsWith(title, "Summary ") then SummarySection else ResultSection
  }

  /** `storeSection`: the open section (if any) with the text gathered for it. */
  function Close(f: Format, open: Option<string>, text: seq<string>): seq<Section> {
    match open
    case None => []
    case Some(t) => [Section(t, SectionKindOf(t), Join(text, f.lineSep))]
  }

  /** The body of a job, read from `ls` (the lines after its title): the
      sections found so far are `acc`, `open` is the title of the open section
      and `text` the lines gathered since it opened. The result holds all the
      job's sections and the lines left after the job-start marker that ended
      it (none at end of input). */
  function ScanJob(f: Format, ls: seq<string>, acc: seq<Section>, open: Option<string>, text: seq<string>)
    : (r: (seq<Section>, seq<string>))
    ensures |r.1| <= |ls|
    decreases |ls|
  {
    if |ls| == 0 then (acc + Close(f, open, text), [])
    else if ls[0] == f.jobMarker then (acc + Close(f, open, text), ls[1..])
    else if ls[0] == f.sectionMarker then
      if |ls| > 1 then ScanJob(f, ls[2..], acc + Close(f, open, text), Some(ls[1]), [ls[1]])
      else (acc + Close(f, open, text), [])
    else ScanJob(f, ls[1..], acc, open, text + [ls[0]])
  }

  /** `readJob` on the lines after a job-start marker: the job, when it has a
      section, and the lines that follow it. */
  function ReadJobSpec(f: Format, ls: seq<string>): (r: (Option<Job>, seq<string>))
    requires |ls| > 0
    ensures |r.1| < |ls|
  {
    var (secs, rest) := ScanJob(f, ls[1..], [], None, []);
    (if |secs| > 0 then Some(Job(ls[0], JobKindOf(ls[0]), secs)) else None, rest)
  }

  /** What every kept job looks like: it has a section, and the kinds of the
      job and of its sections follow from their titles. */
  predicate JobShape(j: Job) {
    && |j.sections| > 0
    && j.kind == JobKindOf(j.title)
    && forall k :: 0 <= k < |j.sections| ==> j.sections[k].kind == SectionKindOf(j.sections[k].title)
  }

  /** The jobs kept from the lines after a job-start marker. */
  function ParseJobs(f: Format, ls: seq<string>): (jobs: seq<Job>)
    decreases |ls|
  {
    if |ls| == 0 then []
    else
      var (job, rest) := ReadJobSpec(f, ls);
      (if job.Some? then [job.value] else []) + ParseJobs(f, rest)
  }

  /** The lines after the first job-start marker, or none when there is none. */
  function SkipToFirstJob(f: Format, ls: seq<string>): (r: seq<string>)
    decreases |ls|
  {
    if |ls| == 0 then []
    else if ls[0] == f.jobMarker then ls[1..]
    else SkipToFirstJob(f, ls[1..])
  }

  /** The jobs of a whole trial log. */
  function ParseLog(f: Format, lines: seq<string>): seq<Job> {
    ParseJobs(f, SkipToFirstJob(f, lines))
  }

  /** `readJob`: reads one job starting at its title line `lines[start]`.
      `ok` tells whether the job had a section (the job is dropped if not). */
  method ReadJob(f: Format, lines: seq<string>, start: nat) returns (ok: bool, job: Job, next: nat)
    requires ValidFormat(f)
    requires start < |lines|
    ensures start < next <= |lines|
    ensures ReadJobSpec(f, lines[start..]) == (if ok then Some(job) else None, lines[next..])
    ensures ok <==> |job.sections| > 0
  {
    ghost var target := ScanJob(f, lines[start + 1..], [], None, []);
    assert lines[start..][1..] == lines[start + 1..];
    var line := lines[start];
    var title := line;
    var sections: seq<Section> := [];
    var currentText: seq<string> := [];
    var sectionTitle: Option<string> := None;
    var endOfJob := false;
    var i := start + 1;
    ok := false;
    while i < |lines| && !endOfJob
      invariant start + 1 <= i <= |lines|
      invariant ok <==> |sections| > 0
      invariant !endOfJob ==> ScanJob(f, lines[i..], sections, sectionTitle, currentText) == target
      invariant endOfJob ==> (sections + Close(f, sectionTitle, currentText), lines[i..]) == target
    {
      assert lines[i..][0] == lines[i] && lines[i..][1..] == lines[i + 1..];
      ghost var here := lines[i..];
      line := lines[i];
      i := i + 1;
      if line == f.jobMarker {
        endOfJob := true;
      } else if line == f.sectionMarker {
        assert here[0] == f.sectionMarker && here[0] != f.jobMarker;
        ghost var closed := sections + Close(f, sectionTitle, currentText);
        if sectionTitle.Some? {
          sections := sections + [Section(sectionTitle.value, SectionKindOf(sectionTitle.value), Join(currentText, f.lineSep))];
          ok := true;
          sectionTitle := None;
        }
        assert sectionTitle == None && sections + [] == sections;
        assert sections == closed;
        if i < |lines| {
          assert here[2..] == lines[i + 1..] && here[1] == lines[i];
          line := lines[i];
          i := i + 1;
          sectionTitle := Some(line);
          currentText := [line];
        } else {
          assert lines[i..] == [];
        }
      } else {
        assert here[0] != f.sectionMarker && here[0] != f.jobMarker;
        currentText := currentText + [line];
      }
    }
    assert !endOfJob ==> lines[i..] == [];
    if sectionTitle.Some? {
      sections := sections + [Section(sectionTitle.value, SectionKindOf(sectionTitle.value), Join(currentText, f.lineSep))];
      ok := true;
    } else {
      assert sections + Close(f, sectionTitle, currentText) == sections;
    }
    assert target == (sections, lines[i..]);
    job := Job(title, JobKindOf(title), sections);
    next := i;
  }

  /** `loadTrialLog`: the jobs of the log, whether any was kept, and the
      error shown when none was. */
  method LoadTrialLog(f: Format, lines: seq<string>) returns (jobs: seq<Job>, ok: bool, error: Option<string>)
    requires ValidFormat(f)
    ensures jobs == ParseLog(f, lines)
    ensures ok <==> |jobs| > 0
    ensures error == if ok then None else Some(NoValidJobs)
  {
    var i := 0;
    var found := false;
    // Find the first job: each test consumes a line, the marker included.
    while i < |lines| && !found
      invariant 0 <= i <= |lines|
      invariant SkipToFirstJob(f, lines) == if found then lines[i..] else SkipToFirstJob(f, lines[i..])
    {
      assert lines[i..][1..] == lines[i + 1..];
      found := lines[i] == f.jobMarker;
      i := i + 1;
    }
    assert !found ==> lines[i..] == [];
    jobs := [];
    ok := false;
    while i < |lines|
      invariant 0 <= i <= |lines|
      invariant jobs + ParseJobs(f, lines[i..]) == ParseLog(f, lines)
      invariant ok <==> |jobs| > 0
    {
      var kept, job, next := ReadJob(f, lines, i);
      if kept {
        jobs := jobs + [job];
        ok := true;
      }
      i := next;
    }
    error := if ok then None else Some(NoValidJobs);
  }

  // ---------------------------------------------------------------------
  // Properties of the parser.

  /** The sections found while scanning a job extend those found before, and
      each new one has the kind its title calls for. */
  lemma {:induction false} ScanJobShape(f: Format, ls: seq<string>, acc: seq<Section>, open: Option<string>, text: seq<string>)
    ensures var r := ScanJob(f, ls, acc, open, text);
      && |acc| <= |r.0| && r.0[..|acc|] == acc
      && forall k :: |acc| <= k < |r.0| ==> r.0[k].kind == SectionKindOf(r.0[k].title)
    decreases |ls|
  {
    if |ls| == 0 || ls[0] == f.jobMarker || (ls[0] == f.sectionMarker && |ls| <= 1) {
      assert (acc + Close(f, open, text))[..|acc|] == acc;
    } else if ls[0] == f.sectionMarker {
      var acc' := acc + Close(f, open, text);
      ScanJobShape(f, ls[2..], acc', Some(ls[1]), [ls[1]]);
      var r := ScanJob(f, ls[2..], acc', Some(ls[1]), [ls[1]]);
      assert r.0[..|acc'|][..|acc|] == acc;
      forall k | |acc| <= k < |acc'| ensures r.0[k].kind == SectionKindOf(r.0[k].title) {
        assert r.0[k] == acc'[k];
      }
    } else {
      ScanJobShape(f, ls[1..], acc, open, text + [ls[0]]);
    }
  }

  /** Every job the parser keeps has a section, and the kinds of the job and
      of its sections follow its and their titles. */
  lemma {:induction false} ParsedJobsShape(f: Format, ls: seq<string>)
    ensures forall k :: 0 <= k < |ParseJobs(f, ls)| ==> JobShape(ParseJobs(f, ls)[k])
    decreases |ls|
  {
    if |ls| > 0 {
      ScanJobShape(f, ls[1..], [], None, []);
      var (job, rest) := ReadJobSpec(f, ls);
      ParsedJobsShape(f, rest);
    }
  }

  /** Lines before the first job-start marker do not matter. */
  lemma {:induction false} LinesBeforeFirstJobIgnored(f: Format, pre: seq<string>, rest: seq<string>)
    requires f.jobMarker !in pre
    ensures SkipToFirstJob(f, pre + rest) == SkipToFirstJob(f, rest)
    ensures ParseLog(f, pre + rest) == ParseLog(f, rest)
    decreases |pre|
  {
    if |pre| == 0 {
      assert pre + rest == rest;
    } else {
      assert (pre + rest)[0] == pre[0] && (pre + rest)[1..] == pre[1..] + rest;
      LinesBeforeFirstJobIgnored(f, pre[1..], rest);
    }
  }

  /** A log without a job-start marker has no jobs. */
  lemma NoMarkerNoJobs(f: Format, lines: seq<string>)
    requires f.jobMarker !in lines
    ensures ParseLog(f, lines) == []
  {
    LinesBeforeFirstJobIgnored(f, lines, []);
    assert lines + [] == lines;
  }

  /** A section as written to the log: its title line and its data lines. */
  datatype SectionText = SectionText(title: string, data: seq<string>)

  /** A job as written to the log: its title line, data lines before its
      first section, and its sections. */
  datatype JobText = JobText(title: string, preamble: seq<string>, sections: seq<SectionText>)

  /** A line that is neither marker. */
  predicate DataLines(f: Format, ls: seq<string>) {
    forall k :: 0 <= k < |ls| ==> ls[k] != f.jobMarker && ls[k] != f.sectionMarker
  }

  /** Titles may be any line; data lines are not markers. */
  predicate WellFormed(f: Format, js: seq<JobText>) {
    forall k :: 0 <= k < |js| ==>
      && DataLines(f, js[k].preamble)
      && forall m :: 0 <= m < |js[k].sections| ==> DataLines(f, js[k].sections[m].data)
  }

  function RenderSections(f: Format, ss: seq<SectionText>): seq<string>
    decreases |ss|
  {
    if |ss| == 0 then []
    else [f.sectionMarker, ss[0].title] + ss[0].data + RenderSections(f, ss[1..])
  }

  function RenderJob(f: Format, j: JobText): seq<string> {
    [f.jobMarker, j.title] + j.preamble + RenderSections(f, j.sections)
  }

  /** The log lines written for a sequence of jobs. */
  function RenderJobs(f: Format, js: seq<JobText>): seq<string>
    decreases |js|
  {
    if |js| == 0 then [] else RenderJob(f, js[0]) + RenderJobs(f, js[1..])
  }

  /** What the viewer should show for written sections: the title, its kind
      and the title line followed by the data lines as the body. */
  function ExpectedSections(f: Format, ss: seq<SectionText>): (r: seq<Section>)
    ensures |r| == |ss|
    decreases |ss|
  {
    if |ss| == 0 then []
    else
      var t := ss[0].title;
      [Section(t, SectionKindOf(t), Join([t] + ss[0].data, f.lineSep))] + ExpectedSections(f, ss[1..])
  }

  /** What the viewer should show for written jobs: the jobs with a section,
      in order; the lines before a job's first section are not shown. */
  function ExpectedJobs(f: Format, js: seq<JobText>): seq<Job>
    decreases |js|
  {
    if |js| == 0 then []
    else
      var j := js[0];
      (if |j.sections| > 0 then [Job(j.title, JobKindOf(j.title), ExpectedSections(f, j.sections))] else [])
        + ExpectedJobs(f, js[1..])
  }

  /** What may follow the last section of a job: nothing, a dangling section
      marker, or the next job. */
  predicate JobEnd(f: Format, rest: seq<string>) {
    rest == [] || rest == [f.sectionMarker] || rest[0] == f.jobMarker
  }

  function AfterJob(f: Format, rest: seq<string>): seq<string> {
    if |rest| > 0 && rest[0] == f.jobMarker then rest[1..] else []
  }

  lemma {:induction false} ScanData(f: Format, d: seq<string>, rest: seq<string>,
                                     acc: seq<Section>, open: Option<string>, text: seq<string>)
    requires DataLines(f, d)
    ensures ScanJob(f, d + rest, acc, open, text) == ScanJob(f, rest, acc, open, text + d)
    decreases |d|
  {
    if |d| == 0 {
      assert d + rest == rest && text + d == text;
    } else {
      assert (d + rest)[0] == d[0] && (d + rest)[1..] == d[1..] + rest;
      assert DataLines(f, d[1..]);
      ScanData(f, d[1..], rest, acc, open, text + [d[0]]);
      assert text + [d[0]] + d[1..] == text + d;
    }
  }

  lemma ScanEnd(f: Format, rest: seq<string>, acc: seq<Section>, open: Option<string>, text: seq<string>)
    requires ValidFormat(f) && JobEnd(f, rest)
    ensures ScanJob(f, rest, acc, open, text) == (acc + Close(f, open, text), AfterJob(f, rest))
  {
  }

  lemma ScanSectionStart(f: Format, t: string, x: seq<string>, acc: seq<Section>, open: Option<string>, text: seq<string>)
    requires ValidFormat(f)
    ensures ScanJob(f, [f.sectionMarker, t] + x, acc, open, text) == ScanJob(f, x, acc + Close(f, open, text), Some(t), [t])
  {
    var ls := [f.sectionMarker, t] + x;
    assert ls[0] == f.sectionMarker && ls[1] == t && ls[2..] == x;
  }

  lemma {:induction false} ScanSections(f: Format, ss: seq<SectionText>, rest: seq<string>,
                                         acc: seq<Section>, open: Option<string>, text: seq<string>)
    requires ValidFormat(f)
    requires forall m :: 0 <= m < |ss| ==> DataLines(f, ss[m].data)
    requires JobEnd(f, rest)
    ensures ScanJob(f, RenderSections(f, ss) + rest, acc, open, text)
         == (acc + Close(f, open, text) + ExpectedSections(f, ss), AfterJob(f, rest))
    decreases |ss|
  {
    if |ss| == 0 {
      assert RenderSections(f, ss) + rest == rest;
      ScanEnd(f, rest, acc, open, text);
      assert acc + Close(f, open, text) + [] == acc + Close(f, open, text);
    } else {
      var s := ss[0];
      var tail := RenderSections(f, ss[1..]) + rest;
      RenderSectionsStep(f, ss, rest);
      var acc' := acc + Close(f, open, text);
      ScanSectionStart(f, s.title, s.data + tail, acc, open, text);
      ScanData(f, s.data, tail, acc', Some(s.title), [s.title]);
      ScanSections(f, ss[1..], rest, acc', Some(s.title), [s.title] + s.data);
      ExpectedSectionsStep(f, ss);
      AppendAssoc(acc', Close(f, Some(s.title), [s.title] + s.data), ExpectedSections(f, ss[1..]));
    }
  }

  lemma RenderSectionsStep(f: Format, ss: seq<SectionText>, rest: seq<string>)
    requires |ss| > 0
    ensures RenderSections(f, ss) + rest
         == [f.sectionMarker, ss[0].title] + (ss[0].data + (RenderSections(f, ss[1..]) + rest))
  {
    var head, data, later := [f.sectionMarker, ss[0].title], ss[0].data, RenderSections(f, ss[1..]);
    assert RenderSections(f, ss) == head + data + later;
    AppendAssoc4(head, data, later, rest);
  }

  lemma AppendAssoc4<T>(a: seq<T>, b: seq<T>, c: seq<T>, d: seq<T>)
    ensures a + b + c + d == a + (b + (c + d))
  {
  }

  lemma ExpectedSectionsStep(f: Format, ss: seq<SectionText>)
    requires |ss| > 0
    ensures ExpectedSections(f, ss)
         == Close(f, Some(ss[0].title), [ss[0].title] + ss[0].data) + ExpectedSections(f, ss[1..])
  {
  }

  lemma AppendAssoc<T>(a: seq<T>, b: seq<T>, c: seq<T>)
    ensures a + b + c == a + (b + c)
  {
  }

  lemma ReadRenderedJob(f: Format, j: JobText, later: seq<string>)
    requires ValidFormat(f) && WellFormed(f, [j])
    requires JobEnd(f, later)
    ensures ReadJobSpec(f, [j.title] + (j.preamble + (RenderSections(f, j.sections) + later)))
         == (if |j.sections| > 0 then Some(Job(j.title, JobKindOf(j.title), ExpectedSections(f, j.sections))) else None,
             AfterJob(f, later))
  {
    assert [j][0] == j;
    var ls := [j.title] + (j.preamble + (RenderSections(f, j.sections) + later));
    assert ls[0] == j.title && ls[1..] == j.preamble + (RenderSections(f, j.sections) + later);
    ScanData(f, j.preamble, RenderSections(f, j.sections) + later, [], None, []);
    ScanSections(f, j.sections, later, [], None, [] + j.preamble);
    assert [] + Close(f, None, [] + j.preamble) + ExpectedSections(f, j.sections) == ExpectedSections(f, j.sections);
  }

  lemma ParseJobsStep(f: Format, ls: seq<string>)
    requires |ls| > 0
    ensures var (job, rest) := ReadJobSpec(f, ls);
      ParseJobs(f, ls) == (if job.Some? then [job.value] else []) + ParseJobs(f, rest)
  {
  }

  lemma DropMarker(m: string, t: string, p: seq<string>, q: seq<string>, r: seq<string>, tr: seq<string>)
    ensures ([m, t] + p + q + r)[1..] + tr == [t] + (p + (q + (r + tr)))
  {
    assert ([m, t] + p + q + r)[1..] == [t] + p + q + r;
  }

  lemma RenderJobsLines(f: Format, js: seq<JobText>, trailer: seq<string>)
    requires |js| > 0
    ensures var j := js[0];
      RenderJobs(f, js)[1..] + trailer
        == [j.title] + (j.preamble + (RenderSections(f, j.sections) + (RenderJobs(f, js[1..]) + trailer)))
  {
    var j := js[0];
    assert RenderJobs(f, js) == [f.jobMarker, j.title] + j.preamble + RenderSections(f, j.sections) + RenderJobs(f, js[1..]);
    DropMarker(f.jobMarker, j.title, j.preamble, RenderSections(f, j.sections), RenderJobs(f, js[1..]), trailer);
  }

  lemma WellFormedSplit(f: Format, js: seq<JobText>)
    requires WellFormed(f, js) && |js| > 0
    ensures WellFormed(f, [js[0]]) && WellFormed(f, js[1..])
  {
    assert [js[0]][0] == js[0];
    forall k | 0 <= k < |js[1..]| ensures js[1..][k] == js[k + 1] { }
  }

  lemma RenderJobsStart(f: Format, js: seq<JobText>, trailer: seq<string>)
    requires trailer == [] || trailer == [f.sectionMarker]
    ensures var later := RenderJobs(f, js) + trailer;
      && JobEnd(f, later)
      && AfterJob(f, later) == (if |js| == 0 then [] else RenderJobs(f, js)[1..] + trailer)
  {
    if |js| == 0 {
      assert RenderJobs(f, js) + trailer == trailer;
    } else {
      assert RenderJobs(f, js)[0] == f.jobMarker;
    }
  }

  lemma {:induction false} ParseRenderedJobs(f: Format, js: seq<JobText>, trailer: seq<string>)
    requires ValidFormat(f) && WellFormed(f, js)
    requires |js| > 0
    requires trailer == [] || trailer == [f.sectionMarker]
    ensures ParseJobs(f, RenderJobs(f, js)[1..] + trailer) == ExpectedJobs(f, js)
    decreases |js|
  {
    var j := js[0];
    var later := RenderJobs(f, js[1..]) + trailer;
    var ls := RenderJobs(f, js)[1..] + trailer;
    RenderJobsLines(f, js, trailer);
    WellFormedSplit(f, js);
    RenderJobsStart(f, js[1..], trailer);
    ReadRenderedJob(f, j, later);
    ParseJobsStep(f, ls);
    if |js| > 1 {
      ParseRenderedJobs(f, js[1..], trailer);
    }
  }

  /** Round trip: a log written from jobs, after any lines without a
      job-start marker, parses back to exactly the jobs that have sections,
      in order, each section's body being its title line and its data lines
      joined with the line separator. Titles are taken as they are, even
      when they are marker lines. */
  lemma ParseRenderedLog(f: Format, junk: seq<string>, js: seq<JobText>)
    requires ValidFormat(f) && WellFormed(f, js)
    requires f.jobMarker !in junk
    ensures ParseLog(f, junk + RenderJobs(f, js)) == ExpectedJobs(f, js)
  {
    LinesBeforeFirstJobIgnored(f, junk, RenderJobs(f, js));
    if |js| > 0 {
      var ls := RenderJobs(f, js);
      assert ls[0] == f.jobMarker;
      ParseRenderedJobs(f, js, []);
      assert ls[1..] + [] == ls[1..];
    }
  }

  /** A section marker on the last line opens no section. */
  lemma DanglingSectionMarker(f: Format, junk: seq<string>, js: seq<JobText>)
    requires ValidFormat(f) && WellFormed(f, js)
    requires f.jobMarker !in junk
    ensures ParseLog(f, junk + RenderJobs(f, js) + [f.sectionMarker]) == ExpectedJobs(f, js)
  {
    var ls := RenderJobs(f, js) + [f.sectionMarker];
    assert junk + RenderJobs(f, js) + [f.sectionMarker] == junk + ls;
    LinesBeforeFirstJobIgnored(f, junk, ls);
    if |js| > 0 {
      assert ls[0] == f.jobMarker;
      ParseRenderedJobs(f, js, [f.sectionMarker]);
      assert ls[1..] == RenderJobs(f, js)[1..] + [f.sectionMarker];
    } else {
      assert ls == [f.sectionMarker];
      assert SkipToFirstJob(f, ls) == SkipToFirstJob(f, []);
    }
  }
}
