/**
 * The plain-text rendering of a resume that is sent along with a job
 * description for analysis: a fixed preamble, then one or two lines per
 * experience, education and project entry, then the skills.
 *
 * `ResumeLines` says which lines the text consists of; the method
 * `FormatResumeAsText` builds the text the way the program does, by appending
 * to an accumulator, and is proved to produce exactly those lines.
 */
module ResumeText {
  import opened Collections
  import opened Types

  /** The lines of `lines`, each followed by a line feed. */
  function Unlines(lines: seq<string>): string
  {
    if lines == [] then "" else Unlines(lines[..|lines| - 1]) + lines[|lines| - 1] + "\n"
  }

  lemma UnlinesSnoc(lines: seq<string>, line: string)
    ensures Unlines(lines + [line]) == Unlines(lines) + line + "\n"
  {
    assert (lines + [line])[..|lines|] == lines;
  }

  lemma {:induction false} UnlinesAppend(a: seq<string>, b: seq<string>)
    ensures Unlines(a + b) == Unlines(a) + Unlines(b)
  {
    if b == [] {
      assert a + b == a;
    } else {
      var init, last := b[..|b| - 1], b[|b| - 1];
      assert a + b == (a + init) + [last];
      assert b == init + [last];
      UnlinesAppend(a, init);
      UnlinesSnoc(a + init, last);
      UnlinesSnoc(init, last);
    }
  }

  function NameLine(c: Contact): string { "Name: " + c.fullName }
  function ContactTextLine(c: Contact): string { "Contact: " + c.email + ", " + c.phone }
  function LinksLine(c: Contact): string { "Links: LinkedIn: " + c.linkedinUrl + ", Website: " + c.personalWebsite }

  function ExperienceHeading(e: Experience): string
  {
    "- " + e.role + " at " + e.company + " (" + e.startDate + " - " + e.endDate + ")"
  }

  function ExperienceDetail(e: Experience): string { "  - " + e.description }

  function ExperienceLines(e: Experience): seq<string> { [ExperienceHeading(e), ExperienceDetail(e)] }

  function EducationLine(d: Education): string
  {
    "- " + d.degree + ", " + d.institution + " (" + d.graduationYear + ")"
  }

  function ProjectLine(p: Project): string { "- " + p.title + " - " + p.organization }

  function Preamble(r: Resume): seq<string>
  {
    [NameLine(r.contact), ContactTextLine(r.contact), LinksLine(r.contact), "", "Summary:", r.summary, "", "Experience:"]
  }

  /** The lines of the plain-text resume. */
  function ResumeLines(r: Resume): (lines: seq<string>)
    ensures |lines| == 15 + 2 * |r.experience| + |r.education| + |r.projects|
    ensures lines[0] == NameLine(r.contact) && lines[|lines| - 1] == r.skills
  {
    FlatMapPairs(r.experience, ExperienceLines);
    Preamble(r)
    + FlatMap(r.experience, ExperienceLines)
    + ["", "Education:"] + Map(r.education, EducationLine)
    + ["", "Projects:"] + Map(r.projects, ProjectLine)
    + ["", "Skills:", r.skills]
  }

  /** `formatResumeAsText`. */
  method FormatResumeAsText(r: Resume) returns (text: string)
    ensures text == Unlines(ResumeLines(r))
  {
    ghost var lines: seq<string> := [];
    Append(lines, NameLine(r.contact));
    text := NameLine(r.contact) + "\n";
    lines := lines + [NameLine(r.contact)];
    assert text == Unlines(lines);
    Append(lines, ContactTextLine(r.contact));
    text := text + ContactTextLine(r.contact) + "\n";
    lines := lines + [ContactTextLine(r.contact)];
    assert text == Unlines(lines);
    AppendWithBlank(lines, LinksLine(r.contact));
    text := text + LinksLine(r.contact) + "\n\n";
    lines := lines + [LinksLine(r.contact), ""];
    assert text == Unlines(lines);
    AppendSummary(lines, r.summary);
    text := text + "Summary:\n" + r.summary + "\n\n";
    lines := lines + ["Summary:", r.summary, ""];
    assert text == Unlines(lines);
    Append(lines, "Experience:");
    text := text + "Experience:\n";
    lines := lines + ["Experience:"];
    assert text == Unlines(lines);
    assert lines == Preamble(r);

    UnlinesAppend(lines, FlatMap(r.experience, ExperienceLines));
    text := AppendLinePairs(text, r.experience, ExperienceLines);
    lines := lines + FlatMap(r.experience, ExperienceLines);
    assert text == Unlines(lines);
    AppendHeader(lines, "Education:");
    text := text + "\n";
    text := text + "Education:\n";
    lines := lines + ["", "Education:"];
    assert text == Unlines(lines);

    UnlinesAppend(lines, Map(r.education, EducationLine));
    text := AppendLines(text, r.education, EducationLine);
    lines := lines + Map(r.education, EducationLine);
    assert text == Unlines(lines);
    AppendHeader(lines, "Projects:");
    text := text + "\n";
    text := text + "Projects:\n";
    lines := lines + ["", "Projects:"];
    assert text == Unlines(lines);

    UnlinesAppend(lines, Map(r.projects, ProjectLine));
    text := AppendLines(text, r.projects, ProjectLine);
    lines := lines + Map(r.projects, ProjectLine);
    assert text == Unlines(lines);
    AppendSkills(lines, r.skills);
    text := text + "\n";
    text := text + "Skills:\n";
    text := text + r.skills + "\n";
    lines := lines + ["", "Skills:", r.skills];
    assert text == Unlines(lines);
  }

  /** A blank line, then a section header. */
  lemma AppendHeader(lines: seq<string>, header: string)
    ensures Unlines(lines + ["", header]) == Unlines(lines) + "\n" + (header + "\n")
  {
    AppendTwo(lines, "", header);
  }

  lemma AppendSkills(lines: seq<string>, skills: string)
    ensures Unlines(lines + ["", "Skills:", skills]) == Unlines(lines) + "\n" + "Skills:\n" + skills + "\n"
  {
    AppendThree(lines, "", "Skills:", skills);
    assert "Skills:" + "\n" == "Skills:\n";
  }

  lemma AppendWithBlank(lines: seq<string>, a: string)
    ensures Unlines(lines + [a, ""]) == Unlines(lines) + a + "\n\n"
  {
    AppendTwo(lines, a, "");
    assert "\n" + "" + "\n" == "\n\n";
  }

  lemma AppendSummary(lines: seq<string>, summary: string)
    ensures Unlines(lines + ["Summary:", summary, ""]) == Unlines(lines) + "Summary:\n" + summary + "\n\n"
  {
    AppendThree(lines, "Summary:", summary, "");
    assert "Summary:" + "\n" == "Summary:\n";
    assert "\n" + "" + "\n" == "\n\n";
  }

  /**
   * A `forEach` that appends two lines per entry, as the experience loop
   * does: the first line of the entry's pair, then the second.
   */
  method AppendLinePairs<T>(text: string, entries: seq<T>, lines: T -> seq<string>) returns (out: string)
    requires forall x :: x in entries ==> |lines(x)| == 2
    ensures out == text + Unlines(FlatMap(entries, lines))
  {
    out := text;
    for i := 0 to |entries|
      invariant out == text + Unlines(FlatMap(entries[..i], lines))
    {
      var pair := lines(entries[i]);
      PairStep(entries, lines, i);
      out := out + pair[0] + "\n";
      out := out + pair[1] + "\n";
    }
    assert entries[..|entries|] == entries;
  }

  /** One more entry adds the two lines of its pair. */
  lemma PairStep<T>(entries: seq<T>, lines: T -> seq<string>, i: nat)
    requires i < |entries| && |lines(entries[i])| == 2
    ensures Unlines(FlatMap(entries[..i + 1], lines)) ==
      Unlines(FlatMap(entries[..i], lines)) + lines(entries[i])[0] + "\n" + lines(entries[i])[1] + "\n"
  {
    var x := entries[i];
    assert entries[..i + 1] == entries[..i] + [x];
    assert lines(x) == [lines(x)[0], lines(x)[1]];
    FlatMapSnoc(entries[..i], x, lines);
    AppendTwo(FlatMap(entries[..i], lines), lines(x)[0], lines(x)[1]);
  }

  /** A `forEach` that appends one line per entry, as the education and project loops do. */
  method AppendLines<T>(text: string, entries: seq<T>, line: T -> string) returns (out: string)
    ensures out == text + Unlines(Map(entries, line))
  {
    out := text;
    for i := 0 to |entries|
      invariant out == text + Unlines(Map(entries[..i], line))
    {
      out := out + line(entries[i]) + "\n";
      assert Map(entries[..i + 1], line) == Map(entries[..i], line) + [line(entries[i])];
      Append(Map(entries[..i], line), line(entries[i]));
    }
    assert entries[..|entries|] == entries;
  }

  lemma Append(lines: seq<string>, a: string)
    ensures Unlines(lines + [a]) == Unlines(lines) + a + "\n"
  {
    UnlinesSnoc(lines, a);
  }

  lemma AppendTwo(lines: seq<string>, a: string, b: string)
    ensures Unlines(lines + [a, b]) == Unlines(lines) + a + "\n" + b + "\n"
  {
    assert lines + [a, b] == (lines + [a]) + [b];
    UnlinesSnoc(lines, a);
    UnlinesSnoc(lines + [a], b);
  }

  lemma AppendThree(lines: seq<string>, a: string, b: string, c: string)
    ensures Unlines(lines + [a, b, c]) == Unlines(lines) + a + "\n" + b + "\n" + c + "\n"
  {
    assert lines + [a, b, c] == (lines + [a, b]) + [c];
    AppendTwo(lines, a, b);
    UnlinesSnoc(lines + [a, b], c);
  }

  // ---------------------------------------------------------------------
  // The layout of the text

  /** Eight preamble lines and two lines per experience come first. */
  lemma ResumeLinesHead(r: Resume)
    ensures |ResumeLines(r)| == 15 + 2 * |r.experience| + |r.education| + |r.projects|
    ensures ResumeLines(r)[..8] == Preamble(r)
    ensures forall i :: 0 <= i < |r.experience| ==>
      ResumeLines(r)[8 + 2 * i] == ExperienceHeading(r.experience[i]) && ResumeLines(r)[9 + 2 * i] == ExperienceDetail(r.experience[i])
  {
    FlatMapPairs(r.experience, ExperienceLines);
    var lines, experienceLines := ResumeLines(r), FlatMap(r.experience, ExperienceLines);
    var rest := ["", "Education:"] + Map(r.education, EducationLine)
      + ["", "Projects:"] + Map(r.projects, ProjectLine) + ["", "Skills:", r.skills];
    assert lines == Preamble(r) + experienceLines + rest;
    forall i | 0 <= i < |r.experience|
      ensures lines[8 + 2 * i] == ExperienceHeading(r.experience[i]) && lines[9 + 2 * i] == ExperienceDetail(r.experience[i])
    {
      assert lines[8 + 2 * i] == experienceLines[2 * i];
      assert lines[9 + 2 * i] == experienceLines[2 * i + 1];
    }
  }

  /**
   * After them: a blank line and the "Education:" header, one line per
   * education entry, a blank line and the "Projects:" header, one line per
   * project, then a blank line, "Skills:" and the skills.
   */
  lemma ResumeLinesTail(r: Resume)
    ensures var lines, e, d := ResumeLines(r), 2 * |r.experience|, |r.education|;
      && |lines| == 15 + e + d + |r.projects|
      && lines[8 + e] == "" && lines[9 + e] == "Education:"
      && (forall j :: 0 <= j < d ==> lines[10 + e + j] == EducationLine(r.education[j]))
      && lines[10 + e + d] == "" && lines[11 + e + d] == "Projects:"
      && (forall k :: 0 <= k < |r.projects| ==> lines[12 + e + d + k] == ProjectLine(r.projects[k]))
      && lines[|lines| - 3..] == ["", "Skills:", r.skills]
  {
    FlatMapPairs(r.experience, ExperienceLines);
    var head := Preamble(r) + FlatMap(r.experience, ExperienceLines);
    assert |head| == 8 + 2 * |r.experience|;
    var education := Map(r.education, EducationLine);
    var projects := Map(r.projects, ProjectLine);
    assert ResumeLines(r) == head + (["", "Education:"] + education) + (["", "Projects:"] + projects) + ["", "Skills:", r.skills];
  }

  /** The text opens with the name line and the contact line. */
  lemma TextOpening(r: Resume)
    ensures Unlines(ResumeLines(r)) ==
      "Name: " + r.contact.fullName + "\n" + ("Contact: " + r.contact.email + ", " + r.contact.phone + "\n")
      + Unlines(ResumeLines(r)[2..])
  {
    var lines := ResumeLines(r);
    assert lines == [lines[0], lines[1]] + lines[2..];
    UnlinesAppend([lines[0], lines[1]], lines[2..]);
    assert [lines[0], lines[1]] == [lines[0]] + [lines[1]];
    Append([lines[0]], lines[1]);
    Append([], lines[0]);
  }

  /** The text ends with the skills and a line feed. */
  lemma TextEnding(r: Resume)
    ensures var text := Unlines(ResumeLines(r));
      |text| > |r.skills| && text[|text| - |r.skills| - 1..] == r.skills + "\n"
  {
    var lines := ResumeLines(r);
    assert lines[|lines| - 1] == r.skills;
  }

  /** Certifications and the contact's state and country never reach the text. */
  lemma TextIgnores(r: Resume, certifications: seq<Certification>, country: string, state: string, countryShown: bool, stateShown: bool)
    ensures var r' := r.(certifications := certifications,
                        contact := r.contact.(country := country, state := state, countryShown := countryShown, stateShown := stateShown));
      ResumeLines(r') == ResumeLines(r)
  {
  }
}
