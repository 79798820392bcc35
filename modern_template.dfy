/**
 * The Modern resume template as a document tree: a header with the name and
 * a contact line, then the sections that have something to show, in a fixed
 * order, each with one entry per item.
 *
 * Markup is abstracted to what is shown: a `Plain` text run, or a `Markdown`
 * source that the page renders through a markdown library.
 */
module ModernTemplate {
  import opened Collections
  import opened Types

  /** A JavaScript value in the location array: `null` or a string. */
  datatype JsValue = Null | Str(s: string)

  /** `Boolean(v)`: `null` and the empty string are falsy. */
  predicate Truthy(v: JsValue)
  {
    v.Str? && v.s != ""
  }

  /** How `Array.prototype.join` renders an element: `null` as the empty string. */
  function Rendered(v: JsValue): string
  {
    match v
    case Null => ""
    case Str(s) => s
  }

  function LocationParts(c: Contact): seq<JsValue>
  {
    [if c.stateShown then Str(c.state) else Null, if c.countryShown then Str(c.country) else Null]
  }

  /** `locationString`: the shown, non-empty parts of state and country, joined by ", ". */
  function LocationString(c: Contact): (r: string)
    ensures var st, co := c.stateShown && c.state != "", c.countryShown && c.country != "";
      r == if st && co then c.state + ", " + c.country
           else if st then c.state
           else if co then c.country
           else ""
  {
    LocationCases(c);
    Join(Map(Filter(LocationParts(c), Truthy), Rendered), ", ")
  }

  lemma LocationCases(c: Contact)
    ensures var st, co := c.stateShown && c.state != "", c.countryShown && c.country != "";
      Join(Map(Filter(LocationParts(c), Truthy), Rendered), ", ") ==
        if st && co then c.state + ", " + c.country
        else if st then c.state
        else if co then c.country
        else ""
  {
    var parts := LocationParts(c);
    assert parts == [parts[0]] + [parts[1]];
    FilterConcat([parts[0]], [parts[1]], Truthy);
    assert [parts[0]][1..] == [] && [parts[1]][1..] == [];
    var kept := Filter(parts, Truthy);
    assert kept == (if Truthy(parts[0]) then [parts[0]] else []) + (if Truthy(parts[1]) then [parts[1]] else []);
    var shown := Map(kept, Rendered);
    if Truthy(parts[0]) && Truthy(parts[1]) {
      assert shown == [c.state, c.country];
      assert shown[1..] == [c.country];
    } else if Truthy(parts[0]) {
      assert shown == [c.state];
    } else if Truthy(parts[1]) {
      assert shown == [c.country];
    } else {
      assert shown == [];
    }
  }

  /** The location string is empty exactly when neither state nor country is shown with a value. */
  lemma LocationEmpty(c: Contact)
    ensures LocationString(c) == "" <==> !(c.stateShown && c.state != "") && !(c.countryShown && c.country != "")
  {
  }

  /** One item of the contact line. */
  datatype HeaderItem = Span(text: string) | Bar | Link(caption: string, href: string)

  /** The contact line under the name. */
  function ContactLine(c: Contact): (r: seq<HeaderItem>)
    ensures |r| % 2 == 1
    ensures forall i :: 0 <= i < |r| ==> (r[i].Bar? <==> i % 2 == 1)
    ensures |r| == 5 + (if LocationString(c) != "" then 2 else 0) + (if c.personalWebsite != "" then 2 else 0)
    ensures LocationString(c) != "" ==> r[0] == Span(LocationString(c))
    ensures Link("Website", c.personalWebsite) in r <==> c.personalWebsite != ""
    ensures Link("LinkedIn", c.linkedinUrl) in r
    ensures var k := if LocationString(c) != "" then 2 else 0;
      r[k..k + 5] == [Span(c.email), Bar, Span(c.phone), Bar, Link("LinkedIn", c.linkedinUrl)]
    ensures c.personalWebsite != "" ==> r[|r| - 2..] == [Bar, Link("Website", c.personalWebsite)]
    ensures c.personalWebsite == "" ==> r[|r| - 1] == Link("LinkedIn", c.linkedinUrl)
  {
    var location := LocationString(c);
    var head: seq<HeaderItem> := if location != "" then [Span(location), Bar] else [];
    var middle := [Span(c.email), Bar, Span(c.phone), Bar, Link("LinkedIn", c.linkedinUrl)];
    var tail: seq<HeaderItem> := if c.personalWebsite != "" then [Bar, Link("Website", c.personalWebsite)] else [];
    ContactLineLayout(head, middle, tail);
    assert Link("Website", c.personalWebsite) !in head + middle;
    head + middle + tail
  }

  /** An optional leading pair, five middle items and an optional trailing pair keep bars at the odd positions. */
  lemma ContactLineLayout(head: seq<HeaderItem>, middle: seq<HeaderItem>, tail: seq<HeaderItem>)
    requires head == [] || (|head| == 2 && !head[0].Bar? && head[1].Bar?)
    requires |middle| == 5 && forall i :: 0 <= i < 5 ==> (middle[i].Bar? <==> i % 2 == 1)
    requires tail == [] || (|tail| == 2 && tail[0].Bar? && !tail[1].Bar?)
    ensures |head + middle + tail| % 2 == 1
    ensures forall i :: 0 <= i < |head + middle + tail| ==> ((head + middle + tail)[i].Bar? <==> i % 2 == 1)
    ensures (head + middle + tail)[|head|..|head| + 5] == middle
    ensures (head + middle + tail)[|head| + 5..] == tail
  {
    var r := head + middle + tail;
    forall i | 0 <= i < |r| ensures r[i].Bar? <==> i % 2 == 1 {
      if i < |head| {
        assert r[i] == head[i];
      } else if i < |head| + 5 {
        assert r[i] == middle[i - |head|];
      } else {
        assert r[i] == tail[i - |head| - 5];
      }
    }
    assert r[|head|..|head| + 5] == middle;
  }

  /** A piece of an entry. */
  datatype Node = Plain(text: string) | Markdown(source: string)

  datatype SectionView = SectionView(title: string, entries: seq<seq<Node>>)

  datatype Document = Document(name: string, contactLine: seq<HeaderItem>, sections: seq<SectionView>)

  /** Role, dates, company and location as text; only the description goes through markdown. */
  function ExperienceView(e: Experience): (v: seq<Node>)
    ensures |v| == 5 && v[4] == Markdown(e.description)
    ensures forall i :: 0 <= i < 4 ==> v[i].Plain?
    ensures v[0] == Plain(e.role) && v[1] == Plain(e.startDate + " - " + e.endDate)
    ensures v[2] == Plain(e.company) && v[3] == Plain(e.location)
  {
    [Plain(e.role), Plain(e.startDate + " - " + e.endDate), Plain(e.company), Plain(e.location), Markdown(e.description)]
  }

  /** Title, dates and organization as text; only the description goes through markdown. */
  function ProjectView(p: Project): (v: seq<Node>)
    ensures |v| == 4 && v[3] == Markdown(p.description)
    ensures forall i :: 0 <= i < 3 ==> v[i].Plain?
    ensures v[0] == Plain(p.title) && v[1] == Plain(p.startDate + " - " + p.endDate)
    ensures v[2] == Plain(p.organization)
  {
    [Plain(p.title), Plain(p.startDate + " - " + p.endDate), Plain(p.organization), Markdown(p.description)]
  }

  /** The degree, followed by ", Minor in <minor>" when there is a minor. */
  function DegreeLine(e: Education): (r: string)
    ensures |r| >= |e.degree| && r[..|e.degree|] == e.degree
    ensures r == e.degree <==> e.minor == ""
    ensures e.minor != "" ==> r[|e.degree|..] == ", Minor in " + e.minor
  {
    e.degree + if e.minor != "" then ", Minor in " + e.minor else ""
  }

  function EducationView(e: Education): (v: seq<Node>)
    ensures |v| >= 3 && v[..3] == [Plain(e.institution), Plain(e.graduationYear), Plain(DegreeLine(e))]
    ensures |v| == 3 + (if e.gpa != "" then 1 else 0) + (if e.additionalInfo != "" then 1 else 0)
    ensures e.gpa != "" ==> v[3] == Plain("GPA: " + e.gpa)
    ensures Markdown(e.additionalInfo) in v <==> e.additionalInfo != ""
  {
    var head := [Plain(e.institution), Plain(e.graduationYear), Plain(DegreeLine(e))];
    var gpa := if e.gpa != "" then [Plain("GPA: " + e.gpa)] else [];
    var info := if e.additionalInfo != "" then [Markdown(e.additionalInfo)] else [];
    assert Markdown(e.additionalInfo) !in head + gpa;
    head + gpa + info
  }

  function CertificationView(c: Certification): (v: seq<Node>)
    ensures |v| >= 3 && v[..3] == [Plain(c.certificateName), Plain(c.issueYear), Plain(c.issuingOrganization)]
    ensures |v| == 3 + (if c.relevance != "" then 1 else 0)
    ensures Markdown(c.relevance) in v <==> c.relevance != ""
  {
    [Plain(c.certificateName), Plain(c.issueYear), Plain(c.issuingOrganization)]
    + (if c.relevance != "" then [Markdown(c.relevance)] else [])
  }

  const SectionOrder: seq<string> := ["Summary", "Experience", "Projects", "Education", "Certifications", "Skills"]

  /** Every section the template knows, in page order, each paired with whether it is shown. */
  function Candidates(r: Resume): seq<(bool, SectionView)>
  {
    [ (r.summary != "", SectionView("Summary", [[Plain(r.summary)]])),
      (|r.experience| > 0, SectionView("Experience", Map(r.experience, ExperienceView))),
      (|r.projects| > 0, SectionView("Projects", Map(r.projects, ProjectView))),
      (|r.education| > 0, SectionView("Education", Map(r.education, EducationView))),
      (|r.certifications| > 0, SectionView("Certifications", Map(r.certifications, CertificationView))),
      (r.skills != "", SectionView("Skills", [[Plain(r.skills)]])) ]
  }

  /** Whether a candidate is shown, and the section it shows. */
  predicate Shown(c: (bool, SectionView)) { c.0 }
  function View(c: (bool, SectionView)): SectionView { c.1 }

  function Titles(sections: seq<SectionView>): seq<string>
  {
    Map(sections, (s: SectionView) => s.title)
  }

  /** The sections the page shows. */
  function Sections(r: Resume): (sections: seq<SectionView>)
    ensures |sections| <= |SectionOrder|
    ensures forall s :: s in sections ==> s.title in SectionOrder && s.entries != []
  {
    var kept := Filter(Candidates(r), Shown);
    var sections := Map(kept, View);
    forall s | s in sections ensures s.title in SectionOrder && s.entries != [] {
      var j :| 0 <= j < |kept| && kept[j].1 == s;
      CandidateShown(r, kept[j]);
    }
    sections
  }

  /** A candidate that is shown is one of the six titles and has at least one entry. */
  lemma CandidateShown(r: Resume, c: (bool, SectionView))
    requires c in Candidates(r) && c.0
    ensures c.1.title in SectionOrder && c.1.entries != []
  {
    var i :| 0 <= i < |Candidates(r)| && Candidates(r)[i] == c;
    assert SectionOrder[i] == c.1.title;
  }

  /** A section holds the views of the items of the list its title names, in list order. */
  ghost predicate EntriesOf(r: Resume, s: SectionView)
  {
    && (s.title == "Summary" ==> s.entries == [[Plain(r.summary)]])
    && (s.title == "Experience" ==> s.entries == Map(r.experience, ExperienceView))
    && (s.title == "Projects" ==> s.entries == Map(r.projects, ProjectView))
    && (s.title == "Education" ==> s.entries == Map(r.education, EducationView))
    && (s.title == "Certifications" ==> s.entries == Map(r.certifications, CertificationView))
    && (s.title == "Skills" ==> s.entries == [[Plain(r.skills)]])
  }

  /** The whole page. */
  function Render(r: Resume): (d: Document)
    ensures d.name == r.contact.fullName && d.contactLine == ContactLine(r.contact)
    ensures IsSubsequence(Titles(d.sections), SectionOrder)
    ensures "Summary" in Titles(d.sections) <==> r.summary != ""
    ensures "Experience" in Titles(d.sections) <==> |r.experience| > 0
    ensures "Projects" in Titles(d.sections) <==> |r.projects| > 0
    ensures "Education" in Titles(d.sections) <==> |r.education| > 0
    ensures "Certifications" in Titles(d.sections) <==> |r.certifications| > 0
    ensures "Skills" in Titles(d.sections) <==> r.skills != ""
    ensures forall s :: s in d.sections ==> EntriesOf(r, s)
  {
    SectionsInOrder(r);
    SectionVisibility(r);
    AllSectionEntries(r);
    Document(r.contact.fullName, ContactLine(r.contact), Sections(r))
  }

  // ---------------------------------------------------------------------
  // Which sections appear, in which order, with which entries

  lemma CandidateTitles(r: Resume)
    ensures |Candidates(r)| == |SectionOrder|
    ensures forall i :: 0 <= i < |SectionOrder| ==> Candidates(r)[i].1.title == SectionOrder[i]
  {
  }

  /** The shown sections are exactly the candidates whose flag is set. */
  lemma InSections(r: Resume, s: SectionView)
    ensures s in Sections(r) <==> exists i :: 0 <= i < |SectionOrder| && Candidates(r)[i] == (true, s)
  {
    var kept := Filter(Candidates(r), Shown);
    if s in Sections(r) {
      var j :| 0 <= j < |kept| && kept[j].1 == s;
      assert kept[j] in Candidates(r);
    }
    if exists i :: 0 <= i < |SectionOrder| && Candidates(r)[i] == (true, s) {
      var i :| 0 <= i < |SectionOrder| && Candidates(r)[i] == (true, s);
      assert (true, s) in kept;
      var j :| 0 <= j < |kept| && kept[j] == (true, s);
      assert Sections(r)[j] == s;
    }
  }

  /** Sections appear in the order Summary, Experience, Projects, Education, Certifications, Skills. */
  lemma SectionsInOrder(r: Resume)
    ensures IsSubsequence(Titles(Sections(r)), SectionOrder)
  {
    var title := (c: (bool, SectionView)) => c.1.title;
    FilterIsSubsequence(Candidates(r), Shown);
    MapSubsequence(Filter(Candidates(r), Shown), Candidates(r), title);
    CandidateTitles(r);
    assert Map(Candidates(r), title) == SectionOrder;
    assert Titles(Sections(r)) == Map(Filter(Candidates(r), Shown), title);
  }

  /** A section's title is on the page exactly when that section has content. */
  lemma SectionVisibility(r: Resume)
    ensures "Summary" in Titles(Sections(r)) <==> r.summary != ""
    ensures "Experience" in Titles(Sections(r)) <==> |r.experience| > 0
    ensures "Projects" in Titles(Sections(r)) <==> |r.projects| > 0
    ensures "Education" in Titles(Sections(r)) <==> |r.education| > 0
    ensures "Certifications" in Titles(Sections(r)) <==> |r.certifications| > 0
    ensures "Skills" in Titles(Sections(r)) <==> r.skills != ""
  {
    TitleShown(r, 0);
    TitleShown(r, 1);
    TitleShown(r, 2);
    TitleShown(r, 3);
    TitleShown(r, 4);
    TitleShown(r, 5);
  }

  lemma TitleShown(r: Resume, i: nat)
    requires i < |SectionOrder|
    ensures SectionOrder[i] in Titles(Sections(r)) <==> Candidates(r)[i].0
  {
    CandidateTitles(r);
    assert forall j :: 0 <= j < |SectionOrder| && j != i ==> SectionOrder[j] != SectionOrder[i];
    ShownTitle(Candidates(r), i);
  }

  /** In a list of candidates with distinct titles, a candidate's title is shown exactly when the candidate is. */
  lemma ShownTitle(candidates: seq<(bool, SectionView)>, i: nat)
    requires i < |candidates|
    requires forall j :: 0 <= j < |candidates| && j != i ==> candidates[j].1.title != candidates[i].1.title
    ensures candidates[i].1.title in Titles(Map(Filter(candidates, Shown), View)) <==> candidates[i].0
  {
    var kept := Filter(candidates, Shown);
    var shown := Map(kept, View);
    var t := candidates[i].1.title;
    if t in Titles(shown) {
      var k :| 0 <= k < |shown| && Titles(shown)[k] == t;
      assert kept[k] in candidates && Shown(kept[k]);
      var j :| 0 <= j < |candidates| && candidates[j] == kept[k];
      assert j == i;
    }
    if candidates[i].0 {
      assert candidates[i] in kept;
      var k :| 0 <= k < |kept| && kept[k] == candidates[i];
      assert Titles(shown)[k] == t;
    }
  }

  lemma AllSectionEntries(r: Resume)
    ensures forall s :: s in Sections(r) ==> EntriesOf(r, s)
  {
    forall s | s in Sections(r) ensures EntriesOf(r, s) {
      SectionEntries(r, s);
    }
  }

  /** Each shown section holds one entry per item of its list, in list order. */
  lemma SectionEntries(r: Resume, s: SectionView)
    requires s in Sections(r)
    ensures s.title == "Summary" ==> s.entries == [[Plain(r.summary)]]
    ensures s.title == "Experience" ==>
      |s.entries| == |r.experience| && forall i :: 0 <= i < |r.experience| ==> s.entries[i] == ExperienceView(r.experience[i])
    ensures s.title == "Projects" ==>
      |s.entries| == |r.projects| && forall i :: 0 <= i < |r.projects| ==> s.entries[i] == ProjectView(r.projects[i])
    ensures s.title == "Education" ==>
      |s.entries| == |r.education| && forall i :: 0 <= i < |r.education| ==> s.entries[i] == EducationView(r.education[i])
    ensures s.title == "Certifications" ==>
      |s.entries| == |r.certifications| && forall i :: 0 <= i < |r.certifications| ==> s.entries[i] == CertificationView(r.certifications[i])
    ensures s.title == "Skills" ==> s.entries == [[Plain(r.skills)]]
  {
    InSections(r, s);
  }
}
