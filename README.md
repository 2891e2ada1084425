# Resume builder: a Dafny model of the document, its edits, the tips and the preview

This project models the core of a browser resume builder. A resume is one
record. It holds:

- a title;
- a template, one of professional, IT, marketing or design;
- optional contact fields: name, email, phone, location, LinkedIn link and portfolio link;
- an optional summary and optional QR data;
- three ordered collections of entries: work experience, education and custom sections. Each entry is addressed by a string identifier;
- a list of skills.

The model covers four pieces of the program:

- **The editor's transforms** (module `ResumeEditor`):
  - skills normalisation, for the text box and for an array;
  - the field-level update every edit goes through;
  - add, update-by-id and remove-by-id on each collection;
  - the text the skills box shows, which is the skills joined with ", ".
- **The tips panel** (module `ResumeTips`):
  - `generateTips` is written as the source writes it: an imperative method pushing tips onto a list, with a loop over the work entries;
  - that method is proved equal to a pure concatenation `Tips`;
  - `Tips` is proved to emit each message exactly when its rule fires.
- **The live preview** (module `ResumePreview`):
  - rendered to an abstract page: a background style and a list of blocks;
  - covers the template style, the portfolio link normalisation, the "Present" end date, the skill-chip filter and which sections appear.
- **The editor page** (module `EditorPage`):
  - the transform applied to a stored row when a resume is loaded;
  - the file name a resume is exported under.

Supporting modules:

- `Resume`: the datatypes.
- `Text`: JavaScript's `trim`, `split`, `join` and `startsWith`, and UTF-16 `length`.
- `Sequences`: `filter` and the map/filter-by-identifier idiom.

JavaScript semantics the model writes out:

- A string is "truthy" when it is present and not `""`.
- `trim` strips the ECMAScript white-space and line-terminator characters.
- `split` on a one-character separator always yields at least one piece.
- `.length` counts UTF-16 code units, so it is modelled as `Utf16Length`, not as the number of characters.

The expand-summary tip is guarded by `data.summary && …`, which is false for
`""`, so the expand-summary and add-summary tips never appear together;
`ResumeTips.SummaryWarningsExclusive` proves it.

## Model

| member | source | states |
|---|---|---|
| Resume.OrElse | src/components/resume/ResumePreview.tsx:46 | `o \|\| fallback`: the value when it is truthy, the fallback otherwise |
| Resume.ParseTemplate | src/types/resume.ts:30 | a stored template name is read as one of the four templates; a special template is only read from its own name |
| Resume.ParseTemplateName | src/types/resume.ts:30 | every template survives being stored by name and read back |
| Resume.BlankResume | src/types/resume.ts:27-43 | a document with the given identifier, title and template, every optional field absent and all four collections empty |
| Text.TrimStart | src/components/resume/ResumeEditor.tsx:32 | the leading-whitespace strip yields a suffix that is empty or starts with a visible character |
| Text.TrimEnd | src/components/resume/ResumeEditor.tsx:32 | the trailing-whitespace strip yields a prefix that is empty or ends with a visible character |
| Text.TrimStartDropsWhitespace | src/components/resume/ResumeEditor.tsx:32 | everything the leading strip drops is whitespace |
| Text.TrimEndDropsWhitespace | src/components/resume/ResumeEditor.tsx:32 | everything the trailing strip drops is whitespace |
| Text.Trim | src/components/resume/ResumeEditor.tsx:32 | `trim` gives a trimmed string no longer than its input, and leaves a trimmed string alone |
| Text.TrimKeepsChars | src/components/resume/ResumeEditor.tsx:32 | `trim` introduces no character |
| Text.TrimEmptyIffBlank | src/components/resume/ResumePreview.tsx:154 | `s.trim()` is empty exactly when `s` holds no visible character |
| Text.TrimLeadingSpace | src/components/resume/ResumeEditor.tsx:45 | `trim` undoes the space that `join(", ")` puts before a trimmed skill |
| Text.Join | src/components/resume/ResumeEditor.tsx:45 | joining no parts gives `""`, and joining one part gives that part |
| Text.Split | src/components/resume/ResumeEditor.tsx:31 | `split(",")` always gives at least one piece |
| Text.TrimSurroundingSpaces | src/components/resume/ResumeEditor.tsx:32 | `trim` removes one space on each side of a trimmed non-empty string |
| Text.SplitStep | src/components/resume/ResumeEditor.tsx:31 | one step of `split(",")`: a leading comma starts a new piece, any other character joins the first piece |
| Text.SplitPiecesFree | src/components/resume/ResumeEditor.tsx:31 | no piece of a split holds the separator |
| Text.JoinSplit | src/components/resume/ResumeEditor.tsx:31 | joining the pieces of a split with the separator gives back the text |
| Text.SplitJoin | src/components/resume/ResumeEditor.tsx:31 | splitting a join of separator-free pieces gives back the pieces |
| Text.Utf16Length | src/components/resume/ResumeTips.tsx:22 | JavaScript's `length` is between one and two units per character, and is zero only for `""` |
| Sequences.Filter | src/components/resume/ResumeEditor.tsx:29 | `filter` keeps a subsequence whose every element passes; nothing is lost when everything passes |
| Sequences.FilterPreserves | src/components/resume/ResumeEditor.tsx:33 | a property shared by all elements survives filtering |
| Sequences.SubsequenceMembers | src/components/resume/ResumeEditor.tsx:76 | every element of a subsequence occurs in the sequence |
| Sequences.FilterMembers | src/components/resume/ResumeEditor.tsx:76 | the filter keeps exactly the passing members |
| Sequences.FilterMultiplicity | src/components/resume/ResumeEditor.tsx:29 | `filter` keeps every copy of each passing element and no copy of the others |
| Sequences.FilterAppend | src/components/resume/ResumePreview.tsx:167 | filtering distributes over concatenation, so it never reorders |
| Sequences.FilterIdempotent | src/components/resume/ResumeEditor.tsx:29 | filtering twice with one test is filtering once |
| Sequences.RemoveById | src/components/resume/ResumeEditor.tsx:76 | `filter(x => x.id !== id)`: no entry carries `id` afterwards; every other entry stays, in order; nothing changes when `id` is absent |
| Sequences.RemoveByIdMultiplicity | src/components/resume/ResumeEditor.tsx:76 | removal keeps every copy of each entry with another identifier and no copy of an entry carrying `id` |
| Sequences.RemoveByIdDropsOne | src/components/resume/ResumeEditor.tsx:76 | with unique identifiers, removing a present identifier drops exactly one entry |
| Sequences.RemoveByIdKeepsUnique | src/components/resume/ResumeEditor.tsx:76 | removal never creates a duplicate identifier |
| Sequences.RemoveByIdFacts | src/components/resume/ResumeEditor.tsx:76 | removal keeps identifiers unique, and drops one entry when the identifier is present |
| Sequences.UpdateById | src/components/resume/ResumeEditor.tsx:67-69 | `map(x => x.id === id ? f(x) : x)`: same length and order; matching entries are transformed and the others are kept |
| Sequences.UpdateByIdFacts | src/components/resume/ResumeEditor.tsx:67-69 | an update matching nothing changes nothing; an identifier-preserving update keeps identifiers unique |
| Sequences.AppendFreshKeepsUnique | src/components/resume/ResumeEditor.tsx:63 | appending an entry with a fresh identifier keeps identifiers unique |
| ResumeEditor.TrimAll | src/components/resume/ResumeEditor.tsx:32 | `map(s => s.trim())`: every piece trimmed, none lost |
| ResumeEditor.TrimAllWithout | src/components/resume/ResumeEditor.tsx:32 | trimming the pieces adds no comma |
| ResumeEditor.DropEmptyMultiplicity | src/components/resume/ResumeEditor.tsx:29 | dropping the empty strings removes every copy of `""` and keeps every copy of everything else |
| ResumeEditor.NormalizeSkillList | src/components/resume/ResumeEditor.tsx:28-29 | on an array: a subsequence holding every non-empty entry as often as it occurs and no `""`; entries are not trimmed and duplicates stay |
| ResumeEditor.NormalizeSkillText | src/components/resume/ResumeEditor.tsx:30-33 | on text: a subsequence of the trimmed comma pieces holding every non-empty piece as often as it occurs and no `""`; every result is non-empty, trimmed and comma-free |
| ResumeEditor.NormalizeSkills | src/components/resume/ResumeEditor.tsx:27-33 | no normalised skill is empty; an array loses its empty entries and nothing else |
| ResumeEditor.NormalizeSkillsDropsEmptyPieces | src/components/resume/ResumeEditor.tsx:27-33 | for either kind of input, the result is the pieces in order, with exactly the empty ones dropped and every other one kept as often as it occurs |
| ResumeEditor.NormalizeSkillsExample | src/components/resume/ResumeEditor.tsx:30-33 | the text `"a, b ,, c"` normalises to `["a", "b", "c"]` |
| ResumeEditor.NormalizeSkillsIdempotent | src/components/resume/ResumeEditor.tsx:27-33 | normalising an already normalised list returns it unchanged |
| ResumeEditor.SpacedPieces | src/components/resume/ResumeEditor.tsx:45 | the pieces of `join(", ")` as seen by a split on ",": the first skill, then each later one behind a space |
| ResumeEditor.SpacedJoinTail | src/components/resume/ResumeEditor.tsx:45 | a leading space before `join(", ")` is the comma join of the space-prefixed skills |
| ResumeEditor.SpacedJoin | src/components/resume/ResumeEditor.tsx:45 | `join(", ")` equals the comma join of the spaced pieces |
| ResumeEditor.SplitTrimJoined | src/components/resume/ResumeEditor.tsx:30-32 | splitting the joined clean skills on "," and trimming gives them back |
| ResumeEditor.PiecesWithoutComma | src/components/resume/ResumeEditor.tsx:45 | the spaced pieces of clean skills hold no comma |
| ResumeEditor.TrimSpacedPieces | src/components/resume/ResumeEditor.tsx:32 | trimming the spaced pieces of clean skills gives back the skills |
| ResumeEditor.SkillsTextRoundTrip | src/components/resume/ResumeEditor.tsx:44-50 | normalising `skills.join(", ")` returns `skills` when every skill is non-empty, trimmed and comma-free |
| ResumeEditor.NormalizeSkillsTextIdempotent | src/components/resume/ResumeEditor.tsx:27-33 | normalising the joined result of a text normalisation returns that result |
| ResumeEditor.SkillsBoxText | src/components/resume/ResumeEditor.tsx:44-50 | the box text of clean skills normalises back to the stored skills |
| ResumeEditor.KeyDetermines | src/components/resume/ResumeEditor.tsx:40 | a document is determined by one key's value together with all the other keys |
| ResumeEditor.SetOptionalField | src/types/resume.ts:31-37 | writing one optional field sets it, and leaves every other field equal |
| ResumeEditor.SkillsWrite | src/components/resume/ResumeEditor.tsx:37 | writing the skills touches only the skills key |
| ResumeEditor.SetOptionalOverwrites | src/components/resume/ResumeEditor.tsx:40 | a second write of an optional field overwrites the first |
| ResumeEditor.UpdateFieldWrites | src/components/resume/ResumeEditor.tsx:35-41 | `updateField(f, v)`: key `f` holds `v`, or the normalised skills for `skills`; every other key is unchanged |
| ResumeEditor.UpdateFieldIdempotent | src/components/resume/ResumeEditor.tsx:35-41 | for every edit, skills included: writing twice is writing once, and writing the value already held changes nothing |
| ResumeEditor.SkillsBoxResubmit | src/components/resume/ResumeEditor.tsx:282-286 | after typing into the skills box, re-submitting the text the box then shows leaves the skills unchanged |
| ResumeEditor.ResubmitClean | src/components/resume/ResumeEditor.tsx:44-50 | re-submitting the box text of a document with clean skills changes nothing |
| ResumeEditor.UpdateFieldSkills | src/components/resume/ResumeEditor.tsx:36-38 | a skills edit stores the normalised input |
| ResumeEditor.ApplyWorkEdit | src/components/resume/ResumeEditor.tsx:68 | `{ ...exp, [field]: value }`: the named field takes the value and the others stay |
| ResumeEditor.WorkEditKeepsId | src/components/resume/ResumeEditor.tsx:68 | only an edit of `id` changes a work entry's identifier |
| ResumeEditor.ApplyEducationEdit | src/components/resume/ResumeEditor.tsx:96 | `{ ...edu, [field]: value }`: the named field takes the value and the others stay |
| ResumeEditor.EducationEditKeepsId | src/components/resume/ResumeEditor.tsx:96 | only an edit of `id` changes an education entry's identifier |
| ResumeEditor.ApplySectionEdit | src/components/resume/ResumeEditor.tsx:120 | `{ ...section, [field]: value }`: the named field takes the value and the others stay |
| ResumeEditor.AddWorkExperience | src/components/resume/ResumeEditor.tsx:53-64 | appends one default entry with the fresh identifier; earlier entries and every other key are unchanged; identifiers stay unique |
| ResumeEditor.UpdateWorkExperience | src/components/resume/ResumeEditor.tsx:66-71 | same length and order; matching entries get the edit and the others are unchanged; nothing changes when no entry matches |
| ResumeEditor.RemoveWorkExperience | src/components/resume/ResumeEditor.tsx:73-78 | no entry carries `id` afterwards; the others stay in order, each as often as before; one fewer entry with unique identifiers; unchanged when `id` is absent |
| ResumeEditor.AddEducation | src/components/resume/ResumeEditor.tsx:81-92 | appends one default entry with the fresh identifier; earlier entries and every other key are unchanged; identifiers stay unique |
| ResumeEditor.UpdateEducation | src/components/resume/ResumeEditor.tsx:94-99 | same length and order; matching entries get the edit and the others are unchanged; nothing changes when no entry matches |
| ResumeEditor.RemoveEducation | src/components/resume/ResumeEditor.tsx:101-106 | no entry carries `id` afterwards; the others stay in order, each as often as before; one fewer entry with unique identifiers; unchanged when `id` is absent |
| ResumeEditor.AddCustomSection | src/components/resume/ResumeEditor.tsx:109-116 | appends one section titled "Custom Section" with empty content; earlier sections and every other key are unchanged |
| ResumeEditor.UpdateCustomSection | src/components/resume/ResumeEditor.tsx:118-123 | same length and order; matching sections get the edit and the others are unchanged; nothing changes when no section matches |
| ResumeEditor.RemoveCustomSection | src/components/resume/ResumeEditor.tsx:125-130 | no section carries `id` afterwards; the others stay in order, each as often as before; one fewer section with unique identifiers; unchanged when `id` is absent |
| ResumeTips.DigitChar | src/components/resume/ResumeTips.tsx:35 | a digit value below ten is written as a decimal digit |
| ResumeTips.NatToString | src/components/resume/ResumeTips.tsx:35 | `${n}` is a non-empty string of decimal digits |
| ResumeTips.ParseNatToString | src/components/resume/ResumeTips.tsx:35 | reading a numeral back gives the number |
| ResumeTips.DetailTextNamesEntry | src/components/resume/ResumeTips.tsx:33-36 | a detail warning starts with the fixed prefix, and warnings about different entries read differently |
| ResumeTips.ThinPositionsExact | src/components/resume/ResumeTips.tsx:31-32 | the thin positions increase, and are exactly the 1-based positions of the entries with an empty or shorter-than-50 description |
| ResumeTips.DetailTipsAtThinPositions | src/components/resume/ResumeTips.tsx:31-38 | the loop's warnings are, one for one and in order, the warnings for the thin positions |
| ResumeTips.DetailTipsAreDetails | src/components/resume/ResumeTips.tsx:33-36 | the loop emits detail warnings only |
| ResumeTips.Count | src/components/resume/ResumeTips.tsx:15 | a message occurs no more often than the list is long |
| ResumeTips.CountOne | src/components/resume/ResumeTips.tsx:18 | a single pushed tip counts once for its own message |
| ResumeTips.CountMaybe | src/components/resume/ResumeTips.tsx:18 | a conditionally pushed tip counts once exactly when its condition holds |
| ResumeTips.CountAppend | src/components/resume/ResumeTips.tsx:15-73 | counting distributes over successive pushes |
| ResumeTips.CountDetails | src/components/resume/ResumeTips.tsx:31-38 | the loop emits one warning per thin entry, carrying its 1-based position, and nothing else |
| ResumeTips.CountFourMaybe | src/components/resume/ResumeTips.tsx:18-24 | four conditional pushes count as the sum of their conditions |
| ResumeTips.CountBasic | src/components/resume/ResumeTips.tsx:18-24 | the name, contact and summary rules each emit their message exactly when due |
| ResumeTips.CountExperience | src/components/resume/ResumeTips.tsx:27-39 | the experience rule emits one warning for no entries; otherwise one success plus the detail warnings |
| ResumeTips.CountSocial | src/components/resume/ResumeTips.tsx:52-54 | the LinkedIn warning and the portfolio success each appear exactly when due |
| ResumeTips.CountSingles | src/components/resume/ResumeTips.tsx:42-73 | the education, skills, template and completeness rules each emit their message exactly when due |
| ResumeTips.TipsFireExactly | src/components/resume/ResumeTips.tsx:14-76 | every message occurs exactly once when its rule's condition holds, and never otherwise |
| ResumeTips.OneExperienceAndEducationTip | src/components/resume/ResumeTips.tsx:27-43 | exactly one of the two experience tips, and exactly one of the two education tips |
| ResumeTips.OneSkillsTip | src/components/resume/ResumeTips.tsx:46-49 | exactly one skills tip, chosen by the number of skills |
| ResumeTips.OneTemplateTip | src/components/resume/ResumeTips.tsx:57-69 | exactly one template tip |
| ResumeTips.SummaryWarningsExclusive | src/components/resume/ResumeTips.tsx:22-24 | the expand-summary and add-summary warnings never both appear |
| ResumeTips.ComprehensiveLast | src/components/resume/ResumeTips.tsx:71-73 | the completeness success appears exactly when there is experience, education and at least five skills; it is then the last tip |
| ResumeTips.DetailWarningsInEntryOrder | src/components/resume/ResumeTips.tsx:27-39 | with experience, the success follows the basic warnings, and the detail warnings follow it in entry order |
| ResumeTips.BlankResumeTips | src/components/resume/ResumeTips.tsx:18-69 | an empty professional document gets exactly: name, contact, add-summary, add-experience, add-education, no-skills, LinkedIn and professional-template tips |
| ResumeTips.PushBasicTips | src/components/resume/ResumeTips.tsx:17-24 | the pushes of the name, contact and summary rules append exactly their group's tips |
| ResumeTips.PushExperienceTips | src/components/resume/ResumeTips.tsx:26-39 | the experience pushes, including the `forEach` loop, append exactly the experience group's tips |
| ResumeTips.PushSectionTips | src/components/resume/ResumeTips.tsx:41-49 | the education and skills pushes append one tip each |
| ResumeTips.PushClosingTips | src/components/resume/ResumeTips.tsx:51-73 | the social, template and completeness pushes append exactly their tips |
| ResumeTips.GenerateTips | src/components/resume/ResumeTips.tsx:14-76 | the list built by successive pushes is the rule-order concatenation `Tips`, about which `TipsFireExactly` and its corollaries hold |
| ResumePreview.TemplateStyle | src/components/resume/ResumePreview.tsx:13-24 | the style is plain white exactly for the professional template; the others get a gradient |
| ResumePreview.UnknownTemplatePlain | src/components/resume/ResumePreview.tsx:21-22 | any stored name other than it, marketing or design is styled plain white |
| ResumePreview.GradientsDiffer | src/components/resume/ResumePreview.tsx:13-24 | different templates get different styles |
| ResumePreview.PortfolioUrl | src/components/resume/ResumePreview.tsx:26-30 | a link starting with "http" is kept; another non-empty link gets "https://" in front; an absent or empty one gives "" |
| ResumePreview.PortfolioUrlIdempotent | src/components/resume/ResumePreview.tsx:26-30 | normalising a normalised link changes nothing |
| ResumePreview.DisplayedEnd | src/components/resume/ResumePreview.tsx:109 | a current entry ends "Present" whatever its end date; any other entry shows its end date |
| ResumePreview.WorkEntry | src/components/resume/ResumePreview.tsx:101-115 | a work entry shows its fields, with the displayed end date |
| ResumePreview.EducationEntry | src/components/resume/ResumePreview.tsx:128-141 | an education entry shows its fields, with the displayed end date |
| ResumePreview.ShownIffVisible | src/components/resume/ResumePreview.tsx:154 | `skill && skill.trim()` holds exactly when the skill has a visible character |
| ResumePreview.DisplayedSkills | src/components/resume/ResumePreview.tsx:154 | the chips are a subsequence of the stored skills holding every skill with a visible character as often as it is stored, and no other; untrimmed |
| ResumePreview.CleanSkillsAllShown | src/components/resume/ResumePreview.tsx:154 | clean skills are all shown, unchanged |
| ResumePreview.SkillsBoxAllShown | src/components/resume/ResumePreview.tsx:154 | every skill typed through the skills box is shown as a chip |
| ResumePreview.Present | src/components/resume/ResumePreview.tsx:49-80 | a contact item is shown exactly when its field is truthy |
| ResumePreview.HeaderName | src/components/resume/ResumePreview.tsx:46 | the heading is the full name, or "Your Name" when it is absent or empty |
| ResumePreview.CustomBlocks | src/components/resume/ResumePreview.tsx:167-176 | one block per custom section, in collection order |
| ResumePreview.WorkLines | src/components/resume/ResumePreview.tsx:101 | one line per work entry, in order |
| ResumePreview.EducationLines | src/components/resume/ResumePreview.tsx:128 | one line per education entry, in order |
| ResumePreview.Render | src/components/resume/ResumePreview.tsx:39-42 | the page carries the template's style and starts with the header |
| ResumePreview.ShowsAppend | src/components/resume/ResumePreview.tsx:43-186 | a kind of block shows in a concatenation exactly when it shows in one half |
| ResumePreview.ShowsOne | src/components/resume/ResumePreview.tsx:44 | a single block shows its own kind only |
| ResumePreview.ShowsOptional | src/components/resume/ResumePreview.tsx:85 | a conditional block shows its kind exactly when the condition holds |
| ResumePreview.ShowsCustom | src/components/resume/ResumePreview.tsx:167 | the custom blocks show the custom kind exactly when there are custom sections |
| ResumePreview.ShowsInParts | src/components/resume/ResumePreview.tsx:43-186 | a kind shows on the page exactly when it shows in one of the page's parts |
| ResumePreview.SectionsShownIff | src/components/resume/ResumePreview.tsx:85-186 | summary, work, education and skills sections appear exactly when their data is non-empty; custom blocks exactly when there are custom sections; the QR block exactly when the portfolio link is non-empty |
| ResumePreview.LeadingPartsShowTheirKind | src/components/resume/ResumePreview.tsx:85-145 | the header, summary, work and education parts hold their own kind only, exactly when their data is present |
| ResumePreview.TrailingPartsShowTheirKind | src/components/resume/ResumePreview.tsx:148-186 | the skills, custom and QR parts hold their own kind only, exactly when their data is present |
| ResumePreview.CustomBlocksInOrder | src/components/resume/ResumePreview.tsx:167-176 | the custom blocks of the page are the custom sections, one each, in collection order |
| ResumePreview.OtherPartsNotCustom | src/components/resume/ResumePreview.tsx:167 | only the custom part holds custom blocks |
| ResumePreview.BlankResumePreview | src/components/resume/ResumePreview.tsx:43-186 | an empty document renders only a header named "Your Name" on its template's background |
| ResumePreview.BlankSkillsSectionShown | src/components/resume/ResumePreview.tsx:148-154 | a skills list of blank entries still gets its skills section, with no chips |
| EditorPage.OrEmpty | src/pages/Editor.tsx:63-66 | `value \|\| []`: a missing collection becomes empty and a present one is passed through |
| EditorPage.Load | src/pages/Editor.tsx:60-67 | every scalar is copied; each missing collection becomes empty and each present one is kept; the template name is read as a template |
| EditorPage.Store | src/pages/Editor.tsx:60-67 | a document written back as a row has every collection present |
| EditorPage.LoadStore | src/pages/Editor.tsx:60-67 | a saved document loads back unchanged |
| EditorPage.StoreLoad | src/pages/Editor.tsx:60-67 | a row with every collection present and a known template name is exactly what its loaded document stores |
| EditorPage.LoadMissingCollections | src/pages/Editor.tsx:63-66 | a row with all collections null loads with all of them empty |
| EditorPage.ExportFileName | src/pages/Editor.tsx:186 | the file name ends in ".pdf"; it is the title plus ".pdf" for a non-empty title and "resume.pdf" otherwise |
| EditorPage.ExportFileNameStem | src/pages/Editor.tsx:186 | removing ".pdf" gives back the title, or "resume"; the stem is never empty |

## Left out

- Network and storage I/O is not modelled: fetching and saving a resume, the 30-second autosave timer, authentication, the dashboard and the landing page. They are remote calls, timers and navigation with no local logic.
- The PDF export pipeline is not modelled: DOM manipulation, rasterising to an image, jsPDF and the floating-point page-height scaling. Only the export file name is.
- Markup, icons and CSS classes other than the template style are not modelled. The QR code image is reduced to a block carrying its URL.
- The header's contact and link items are modelled as lists of the truthy values. The portfolio link shown in the header is the stored value, not the normalised one.
- `crypto.randomUUID()` is a parameter `newId` of each add operation, with the precondition that no entry of that collection already uses it. Randomness is not modelled.
- React state is not modelled: `useState`/`useEffect` and the `onChange` callback. An edit is a function from the current document to the next one. The skills box's text is `SkillsBoxText`, the join of the stored skills.
- `updateField` takes an open string key and an untyped value. The model types it as one of the closed `Edit` variants, so a value of the wrong type for its field cannot be written.
- `updateWorkExperience` and its siblings take an open key of the entry. The model types these as the closed `WorkEdit`, `EducationEdit` and `SectionEdit` variants.
- ResumeEditor.UpdateField: its contract is stated by the lemma `UpdateFieldWrites`, not as an `ensures` on the function itself.
- The load transform's template cast: the source casts the stored string without checking it. The model reads an unknown name as the professional template. Every consumer, the tips switch and the preview style, falls through to the professional case for such a name anyway.
- Database columns beyond the resume fields (timestamps, owner) are not modelled.
- ResumeTips.Wording: the fixed wordings are the program's own strings. Only the detail warnings are proved to read differently from one another (`DetailTextNamesEntry`); that the fixed wordings are pairwise distinct is not stated.
- ResumeTips.GenerateTips: the source's single function is modelled as four methods called in order, one per group of rules. The method that models the group with the `forEach` loop keeps that loop.
- The skills box's `updateField("skills", text)` call passes raw text. It is modelled as the `SkillsText` input of `NormalizeSkills`. The array input (`SkillsList`) models the other branch of `normalizeSkills`.
- There is no token-based skill entry in the code, and normalisation keeps duplicates. Neither duplicate rejection nor deduplication is modelled.
