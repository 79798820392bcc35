# ResumeFlow core, modelled in Dafny

ResumeFlow is a browser-based resume builder. The user fills in a structured
resume record through a form editor and previews it in a printable template.
They can export it, or paste a job description and see which of its keywords
the resume already has. This project models the computational core of that
application and proves what it promises:

- **Keyword extraction** (`Keywords`, services/keywordService.ts). The text is
  lower-cased, every character that is neither a word character nor white
  space is deleted, and the rest is split on runs of white space. Tokens of
  length ≤ 2 and stop words are dropped, and repetitions are removed, keeping
  first occurrences.
- **The ATS keyword panel** (`KeywordAnalyzer`, components/KeywordAnalyzer.tsx).
  This covers the resume text the resume keywords come from, the split of the
  job keywords into matched and missing ones, and the panel's state: the
  blank-input guard of the analyse button, and the settling of the analysis
  request.
- **The section-list editor** (`EditorSection`, components/EditorSection.tsx,
  duplicated inline in index.tsx). It appends a blank entry with an id made from the section title and the
  timestamp,
  removes the entries with a given id, and changes one field of the entry at a
  position. The last works on a copied array, as the source does. The editor
  is generic over the entry type through a `Schema` of accessor functions.
- **The resume-record updaters** (`Editor`, components/Editor.tsx, duplicated
  in index.tsx). These are the contact-field change, the skills/summary
  change, each section's list replacement, and each section's blank entry.
- **The Modern template** (`ModernTemplate`). It covers the location string,
  the contact line of the header, which sections appear and in which order,
  and what each entry shows.
- **The plain-text serialiser** `formatResumeAsText` (`ResumeText`,
  services/geminiService.ts). It is an imperative method that grows an
  accumulator in three loops, proved equal to a declarative list of lines.
- **The preview pane** (`Preview`, index.tsx). It covers the page-count
  arithmetic, the font stack and the file name of the DOCX export.

The resume record itself (types.ts) is in `Types`. `Collections` and
`Strings` hold the JavaScript built-ins the core relies on:
`Array.prototype.filter/map/join`, the insertion-ordered `Set`,
`toLowerCase`, `trim`, and the `\s`/`\w` character classes. Case mapping
and `\w` are modelled over ASCII letters; `\s` is the fixed set of
ECMAScript white-space and line-terminator characters.

The keyword extractor's `[...new Set(words)]` keeps the order of first
occurrence, and `Keywords.KeywordOrder` proves it.

Date.now(), the DOM's measured content height and the outcome of the
analysis request are inputs of the model. They appear as parameters (`now`,
`measured`, `outcome`).

## Model

| member | source | states |
|---|---|---|
| Keywords.ExtractKeywords | services/keywordService.ts:1-32 | Empty text gives no keywords. The result has no duplicates. A word is a keyword exactly when it is a surviving token, and every keyword is longer than two characters and is not a stop word. |
| Keywords.Normalize | services/keywordService.ts:25-26 | The normalised text is the lower-cased input with exactly the word and white-space characters kept: it is a subsequence of the lower-cased input, each of its characters is kept, and each word or space character occurs in it exactly as often as in the lower-cased input. |
| Keywords.Split | services/keywordService.ts:27 | There is always at least one piece. A leading white-space run yields an empty first piece, and otherwise the first piece starts with the first character. |
| Keywords.Tokens | services/keywordService.ts:24-28 | The tokens are exactly the pieces of the split of the normalised text that are longer than two characters and not stop words. No token holds white space, and each of its characters occurs in the normalised text. |
| Collections.Dedup | services/keywordService.ts:31 | The insertion-ordered set keeps every element of the input, adds none, and holds no duplicates. |
| Keywords.SplitPieces | services/keywordService.ts:27 | No piece of a white-space split contains white space, and every character of a piece comes from the input. |
| Keywords.NormalizedChars | services/keywordService.ts:25-26 | A character that survives lower-casing and punctuation removal and is not white space is a lower-case ASCII letter, a digit or `_`. |
| Keywords.KeywordChars | services/keywordService.ts:24-28 | Every keyword consists of lower-case ASCII letters, digits and underscores only. |
| Keywords.KeywordOrder | services/keywordService.ts:31 | Keywords appear in the order of their first surviving occurrence in the text. |
| Keywords.EmptyGuardRedundant | services/keywordService.ts:2-4 | The result equals the deduplicated tokens for every text, the empty one included, so the early return changes nothing. |
| Keywords.BlankHasNoKeywords | services/keywordService.ts:24-28 | Text made only of white space has no keywords. |
| Keywords.ExtractIgnoresCase | services/keywordService.ts:25 | Upper-casing the text first gives the same keywords. |
| Keywords.BulletEntryUnreachable | services/keywordService.ts:20-28 | The misencoded bullet entry never occurs among the split pieces, and removing it from the stop words leaves every token list unchanged. |
| Keywords.PunctuationIsDeleted | services/keywordService.ts:26-27 | A punctuation character between two runs of keyword characters is deleted and glues them into one token, e.g. "data-driven" gives "datadriven". |
| Keywords.NormalizeGlues | services/keywordService.ts:25-26 | Normalising keyword characters around one punctuation character yields the two runs concatenated. |
| Keywords.NormalizeConcat | services/keywordService.ts:25-26 | Normalisation distributes over a join with a space. |
| Keywords.SplitWithoutSpace | services/keywordService.ts:27 | A string without white space splits into itself alone. |
| Keywords.SplitConcat | services/keywordService.ts:27-28 | Among the pieces that pass a filter rejecting the empty string, the pieces of a join with white space are those of the left part followed by those of the right part. |
| Keywords.TokensConcat | services/keywordService.ts:24-28 | The tokens of two texts joined by a space are the tokens of the first followed by those of the second. |
| Keywords.SwapSameKeywords | services/keywordService.ts:1-32 | Swapping two space-separated parts of a text leaves its set of keywords unchanged. |
| Keywords.TokensOfKeywords | services/keywordService.ts:24-28 | Keywords joined by spaces tokenise back into exactly those keywords. |
| Keywords.ExtractKeywordsIdempotent | services/keywordService.ts:1-32 | Extracting from the keywords joined by spaces gives the same keywords in the same order. |
| KeywordAnalyzer.KeywordSourceText | components/KeywordAnalyzer.tsx:39 | The text starts with the summary and a space, and ends with a space and the skills. |
| KeywordAnalyzer.ResumeKeywords | components/KeywordAnalyzer.tsx:38-41 | The resume keywords have no duplicates and each is longer than two characters and not a stop word. |
| KeywordAnalyzer.TokensOfJoin | components/KeywordAnalyzer.tsx:39 | A word is a token of the descriptions joined by spaces exactly when it is a token of one of them. |
| KeywordAnalyzer.ResumeKeywordSources | components/KeywordAnalyzer.tsx:38-41 | A word is a resume keyword exactly when it is a token of the summary, of some experience description or of the skills. Contact, projects, education and certifications contribute nothing. |
| KeywordAnalyzer.MatchKeywords | components/KeywordAnalyzer.tsx:45-46 | Matched keywords are exactly the job keywords that are resume keywords, and missing keywords exactly the others. Each list keeps job order. Together they are a partition of the job keywords as a multiset, and their lengths sum to the job keyword count. |
| KeywordAnalyzer.Analyze | components/KeywordAnalyzer.tsx:43-46 | Both lists are empty for a blank job description. Matched and missing are characterised by membership, their lengths sum to the number of job keywords, and neither has duplicates. |
| KeywordAnalyzer.AnalyzeSwap | components/KeywordAnalyzer.tsx:43-46 | Swapping two space-separated parts of the job description leaves the matched and the missing keywords unchanged as sets. |
| KeywordAnalyzer.CanAnalyze | components/KeywordAnalyzer.tsx:19 | Analysis goes ahead exactly when the job description has a character that is not white space. |
| KeywordAnalyzer.MatchDisjoint | components/KeywordAnalyzer.tsx:45-46 | No keyword is both matched and missing. |
| KeywordAnalyzer.AnalyzerPanel.constructor | components/KeywordAnalyzer.tsx:14-17 | The panel starts with an empty job description, no result, no error and not loading. |
| KeywordAnalyzer.AnalyzerPanel.SetJobDescription | components/KeywordAnalyzer.tsx:69 | The text area sets the job description and nothing else. |
| KeywordAnalyzer.AnalyzerPanel.BeginAnalysis | components/KeywordAnalyzer.tsx:19-26 | Analysis starts exactly when the job description has a non-white-space character. A blank one sets the error "Please paste a job description." and changes nothing else. Otherwise the error and the result are cleared and loading starts. |
| KeywordAnalyzer.AnalyzerPanel.FinishAnalysis | components/KeywordAnalyzer.tsx:27-35 | A reply becomes the result. A failure sets "Failed to analyze. Please try again." and keeps the old result. Loading stops either way. |
| EditorSection.NewId | components/EditorSection.tsx:15 | The new id starts with the lower-cased title and a dash, and the rest is a decimal numeral without a leading zero whose value is the timestamp. |
| EditorSection.NewIdInjective | components/EditorSection.tsx:15 | Ids made for the same title at different times are different. |
| Strings.DecimalValue | components/EditorSection.tsx:15 | The decimal rendering of a number consists of digits and reads back to that number. |
| Strings.DecimalInjective | components/EditorSection.tsx:15 | Different numbers render as different numerals. |
| EditorSection.AddItem | components/EditorSection.tsx:14-17 | Exactly one entry is appended. Earlier entries are unchanged and in order, and the new entry has the new id and every field of the blank entry. The inline copy at index.tsx:330-333 is identical. |
| EditorSection.AddItemIds | components/EditorSection.tsx:14-17 | The ids after an addition are the old ids followed by the new id. |
| EditorSection.RemoveItem | components/EditorSection.tsx:19-21 | Exactly the entries with a different id are kept, in their order, and a list without that id is returned unchanged. The inline copy at index.tsx:335-337 is identical. |
| EditorSection.RemoveItemIds | components/EditorSection.tsx:19-21 | The ids after removal are the old ids with the removed id filtered out. |
| EditorSection.RemoveUndoesAdd | components/EditorSection.tsx:14-21 | Removing the id of a just-added entry, when no other entry had it, gives back the original list. |
| EditorSection.ChangeItem | components/EditorSection.tsx:23-28 | On a copy of the list: same length, every other entry unchanged, and the entry at the index with the named field set to the value, its id and other fields kept. The inline copy at index.tsx:339-344 is identical. |
| Types.Contact.WithText | types.ts:1-12 | Setting a text field of the contact changes that field and no other field or flag. |
| Types.Contact.WithFlag | types.ts:1-12 | Setting a flag of the contact changes that flag and no other flag or field. |
| Types.ContactDeterminedByFields | types.ts:1-12 | Two contacts that agree on every field and flag are equal. |
| Types.Experience.With | types.ts:14-22 | Setting an experience field changes that field only and keeps the id. |
| Types.Project.With | types.ts:24-32 | Setting a project field changes that field only and keeps the id. |
| Types.Education.With | types.ts:34-43 | Setting an education field changes that field only and keeps the id. |
| Types.Certification.With | types.ts:45-51 | Setting a certification field changes that field only and keeps the id. |
| Editor.ContactChange | components/Editor.tsx:13-22 | A checkbox writes its checked state to its flag and a text input writes its value to its field. Every other contact field and flag, and the rest of the resume, stay as they were. The inline copy at index.tsx:399-408 is identical. |
| Editor.ContactChangeOverwrites | components/Editor.tsx:17-20 | Of two changes to the same contact field, the second wins. |
| Editor.ContactChangeSameValue | components/Editor.tsx:17-20 | Writing back a field's current value leaves the resume unchanged. |
| Editor.SimpleChange | components/Editor.tsx:24-27 | The named top-level text (skills or summary) gets the value. The other text and every list and the contact are unchanged. The inline copy at index.tsx:410-413 is identical. |
| Editor.SimpleChangeLaws | components/Editor.tsx:24-27 | Writing back the current text changes nothing, and of two writes the second wins. |
| Editor.SetItems | components/Editor.tsx:84-149 | A section's replacement sets that section's list and leaves the other sections, the contact, skills and summary unchanged. |
| Editor.SetItemsOwnList | components/Editor.tsx:84-149 | Setting a section to its own list changes nothing. |
| Editor.BlankEntriesAreEmpty | components/Editor.tsx:85-150 | Every field of each section's blank entry is the empty string. |
| Editor.SchemasLawful | components/EditorSection.tsx:16-26 | For all four entry types, the object spreads used by the editor set the id or one field and keep everything else. |
| Editor.AddEntry | components/Editor.tsx:80-152 | "Add to <section>" makes that section's list the old list followed by the section's blank entry carrying the id `<lower-cased title>-<timestamp>`, so its ids gain exactly that id. The other sections, the contact, skills and summary are unchanged. |
| Editor.RemoveEntry | components/Editor.tsx:80-152 | "Remove" leaves in that section exactly the old entries whose id differs from the given one, unchanged and in their order, and filters the id out of the section's ids. The other sections, the contact, skills and summary are unchanged. |
| ModernTemplate.LocationString | components/templates/ModernTemplate.tsx:13-16 | State and country each appear only when shown and non-empty. ", " appears only between two present parts, never leading, trailing or doubled. |
| ModernTemplate.LocationCases | components/templates/ModernTemplate.tsx:13-16 | The filter-and-join expression equals the four-case table. |
| ModernTemplate.LocationEmpty | components/templates/ModernTemplate.tsx:13-16 | The location is empty exactly when neither state nor country is shown with a value. |
| ModernTemplate.ContactLine | components/templates/ModernTemplate.tsx:29-45 | Spans and links alternate with separators, with bars exactly at odd positions. The location and its bar come first, only for a non-empty location. Then come the email, a bar, the phone, a bar and the LinkedIn link. A bar and the Website link end the line exactly when there is a website; otherwise the LinkedIn link ends it. |
| ModernTemplate.ExperienceView | components/templates/ModernTemplate.tsx:52-67 | An experience shows five pieces, in this order: the role, "start - end", the company and the location as text, then the description through markdown. |
| ModernTemplate.ProjectView | components/templates/ModernTemplate.tsx:73-85 | A project shows four pieces, in this order: the title, "start - end" and the organization as text, then the description through markdown. |
| ModernTemplate.DegreeLine | components/templates/ModernTemplate.tsx:97 | The degree, followed by ", Minor in <minor>" exactly when there is a minor. |
| ModernTemplate.EducationView | components/templates/ModernTemplate.tsx:92-105 | Institution, year and degree line come first. The GPA line comes next when there is a GPA, and the additional info is shown exactly when it is non-empty. |
| ModernTemplate.CertificationView | components/templates/ModernTemplate.tsx:113-125 | Name, year and issuer come first, and the relevance is shown exactly when it is non-empty. |
| ModernTemplate.Render | components/templates/ModernTemplate.tsx:25-135 | The page shows the full name and the contact line. Its section titles follow the order Summary, Experience, Projects, Education, Certifications, Skills. Summary and Skills appear exactly when non-empty, and each list section exactly when its list is non-empty. Each shown section holds the views of the items of its list, in list order. |
| ModernTemplate.Sections | components/templates/ModernTemplate.tsx:48-134 | At most six sections are shown, each titled with one of the six section names and each with at least one entry. |
| ModernTemplate.InSections | components/templates/ModernTemplate.tsx:48-134 | A section is on the page exactly when it is a candidate whose condition holds. |
| ModernTemplate.SectionsInOrder | components/templates/ModernTemplate.tsx:48-134 | The titles on the page are a subsequence of the fixed section order. |
| ModernTemplate.TitleShown | components/templates/ModernTemplate.tsx:48-134 | Each section's title is on the page exactly when that section's condition holds. |
| ModernTemplate.SectionVisibility | components/templates/ModernTemplate.tsx:48-134 | Summary and Skills appear exactly when non-empty, and the four list sections exactly when their lists are non-empty. |
| ModernTemplate.SectionEntries | components/templates/ModernTemplate.tsx:48-134 | A shown section has one entry per item of its list, in list order, each being that item's view. |
| ResumeText.ResumeLines | services/geminiService.ts:7-36 | There are 15 + 2·experiences + educations + projects lines, the first is the name line and the last is the skills. |
| ResumeText.FormatResumeAsText | services/geminiService.ts:7-36 | The accumulated text is exactly the resume's lines, each followed by a line feed. |
| ResumeText.AppendLinePairs | services/geminiService.ts:14-17 | The experience loop appends the two lines of each entry, in list order. |
| ResumeText.PairStep | services/geminiService.ts:14-17 | One more experience adds its heading line and its description line. |
| ResumeText.AppendLines | services/geminiService.ts:21-29 | The education and project loops append one line per entry, in list order. |
| ResumeText.UnlinesAppend | services/geminiService.ts:7-36 | Appending lines to the text concatenates their renderings. |
| ResumeText.ResumeLinesHead | services/geminiService.ts:8-17 | There are 15 + 2·experiences + educations + projects lines. The eight preamble lines (name, contact, links, blank, "Summary:", summary, blank, "Experience:") come first, then two lines per experience in order. |
| ResumeText.ResumeLinesTail | services/geminiService.ts:18-33 | After the experiences come a blank line and "Education:", one line per education, a blank line and "Projects:", one line per project, and then a blank line, "Skills:" and the skills. |
| ResumeText.TextOpening | services/geminiService.ts:8-9 | The text begins with "Name: <full name>\n" and "Contact: <email>, <phone>\n". |
| ResumeText.TextEnding | services/geminiService.ts:32-33 | The text ends with the skills and a line feed. |
| ResumeText.TextIgnores | services/geminiService.ts:7-36 | Certifications and the contact's state and country, with their flags, never affect the text. |
| Preview.CeilDiv | index.tsx:597 | The quotient rounded up: the smallest q with q·d ≥ n. |
| Preview.PageCount | index.tsx:595-598 | At least one page, exactly one for no content, and for positive height (pages−1)·912 < height ≤ pages·912. |
| Preview.PageCountMonotone | index.tsx:595-598 | More content never gives fewer pages. |
| Preview.PreviewPane.constructor | index.tsx:585-587 | The pane starts with "font-sans", "text-sm" and one page. |
| Preview.PreviewPane.SetFontFamily | index.tsx:670 | The font selector sets the font family and nothing else. |
| Preview.PreviewPane.SetFontSize | index.tsx:683 | The size buttons set the font size and nothing else. |
| Preview.PreviewPane.CalculatePages | index.tsx:591-599 | With content mounted, the page count becomes the content's page count. Without it, nothing changes, and the count stays at least 1. |
| Preview.DocxFontFamily | index.tsx:630 | "font-sans" maps to "Calibri, sans-serif" and "font-serif" to "Georgia, serif", each exactly. Any other class maps to "Courier New, monospace". |
| Preview.DocxFileName | index.tsx:643 | The file name is the full name followed by "_Resume.docx". |
| Preview.DocxFileNameInjective | index.tsx:643 | Different full names give different file names. |

## Left out

- Unicode: `toLowerCase`, `toUpperCase`, `\s` and `\w` are modelled over ASCII letters and a fixed white-space set. Non-ASCII letters are deleted as punctuation, as `\w` without the `u` flag does. Full Unicode case mapping is not modelled, and `ExtractIgnoresCase` relies on the ASCII case model: JavaScript's `"ß".toUpperCase()` is "SS".
- Preview.PageCount: `Math.ceil` of a floating-point quotient is modelled as exact integer ceiling division, and the floating-point reasoning is not modelled. For an integer height below 2^53, the rounding error of `h / 912` is below 1/1024 and so smaller than the quotient's distance (at least 1/912) to the next integer. The two therefore agree for every integer `scrollHeight` of that size.
- Loading and saving the resume in `localStorage`, with the fallback to the default resume, is browser storage I/O and is not part of this model.
- The network call to the language model (`analyzeResumeWithGemini`), its client and its error strings are a foreign API. Its outcome is the `outcome` parameter of `FinishAnalysis`.
- The asynchrony of `handleAnalyze`: `BeginAnalysis` and `FinishAnalysis` model the steps before and after the awaited call. Interleaved user actions during the call are not modelled.
- PDF export (`html2pdf`, `window.print`) and the DOCX conversion and download (`htmlToDocx`, `saveAs`) are not modelled. Only their inputs are: the font stack and the file name.
- DOM measurement and the `ResizeObserver` are not modelled. The measured height is the `measured` parameter of `CalculatePages`.
- Markdown rendering (`marked.parse`) is not modelled: a `Markdown` node stands for the source text handed to it. The single-file application also renders the summary and skills through markdown, while the component template prints them as plain text. The model follows the component template.
- ModernTemplate.EducationView: the GPA line is stated by its position. "A `GPA:` line appears exactly when there is a GPA" does not hold, because the institution or degree text may itself read "GPA: …".
- The Classic and Minimal templates and the Header are markup with truthiness guards only, and are not modelled.
- The contact form's input kinds are fixed: a text input always names a text field and a checkbox always names a flag. A checkbox bound to a text field cannot be expressed.
- EditorSection.ChangeItem: requires the index to be in range. The editor only passes positions of rendered entries, and the source's behaviour for an out-of-range index (writing past the end of a JavaScript array) is not modelled.
- `Date.now()` is the `now` parameter.
- The contact's `show_on_resume` flag is part of the record and of the contact change. No template or serialiser in this model reads it.
