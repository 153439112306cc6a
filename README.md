# CV builder front end — a Dafny model

This project models the browser side of a CV builder. Users keep a profile, analyse job postings, have an AI service tailor their CV to the latest posting, and export the CV as a PDF. Two copies of the front end exist in the repository. The earlier one lives under `pages/`, `services/` and `components/`; the current one lives under `cv-builder-frontend/src/`. Both are modelled where their core files differ.

The model covers:

- **The PDF export** (`PDFService.generateCVPDF`, both versions). The CV preview element is copied without the nodes marked `pdf-exclude`. The copy is mounted in an off-screen container at least one A4 page wide and captured as one tall image. The image is scaled to the page width and paginated onto A4 pages by a `while` loop. The copy's links are projected onto the pages. The file is saved under a name derived from the user's full name, and the container is removed again. Modules `PdfService`, `LegacyPdfService`, `PdfLayout`, `PdfWriter` (the jsPDF calls as state transitions on a `PdfDoc` class) and `Dom` (the element tree and `document.body` as a class).
- **The CV preview** (`CVPreview.jsx`). This covers:
  - URL normalisation, Markdown clean-up and language-level labels;
  - the "present" case of date formatting and the header's name and social links;
  - the summary carousel (a class holding `summaryIndex`);
  - the precedence of the AI's optimised lists over the user's;
  - the education fallback, which pushes into the user's own array (a class, because the push mutates it in place). Module `CvPreview`.
- **The job-analysis text parser** (`JobAnalysis.jsx`). This covers:
  - `extractValue` and `stripDecorations`;
  - the requirement-line classification into missing and matched skills and the `clean` regex;
  - the line-driven section parser of `renderAnalysisResult`, written as a `while` loop proved against a fold;
  - the responsibilities list. Module `JobAnalysis`.
- **The two profile editors** (`pages/Profile.jsx` and `components/profile/ProfileForm.jsx`). Each is a class over the form state with one method per handler. The list editing both share lives in `ProfileLists`. Modules `Profile` and `ProfileForm`.
- **The CV builder page** (both `CVBuilder.jsx` files). This is one class, `CvBuilder.CvBuilderPage`.
  - Each asynchronous handler is split at its `await` into a Start and a Finish method.
  - The two copies differ only in the alert for a failed AI request. The class's `detailedAiErrors` constant is true for the current page and false for the earlier one.
  - The data rules (latest job, translation payload, AI normalisation, export data) are functions in `CvBuilderData`.
- **The request helpers** (both `api.js` files): the user manager over `localStorage`, the request and response interceptors, the requests `generateCV` and `performMarketAnalysis` build, `handleApiError`, and the earlier copy's health check. Modules `Api` and `LegacyApi`, with the browser store in `Storage`.

Shared modules:

- `Json` holds JavaScript values with truthiness, `||`, `??`, property reads, spread and the `JSON.parse(JSON.stringify(...))` deep copy.
- `Numbers` holds `Number`, `parseInt` and `String` on the decimal subset the forms use.
- `Text` holds `trim`, `split`/`join`, the regular-expression replacements the code uses, and `toUpperCase`/`toLowerCase` for every character whose case mapping is or contains an ASCII letter.
- `Wrappers` holds `Option` and `Result`.

A JavaScript operation that throws is modelled as `None` or `Err`. Examples: a property read on `null`, spreading a value that is not iterable, `JSON.parse` of text that is not JSON, and `.replace` on a non-string. A request that rejects is a `None`/`Err` argument of the Finish method.

The list handlers of the profile editors pass an updater function to React's state setter. When that updater throws, React runs it again while rendering, the error escapes, and, with no error boundary around the page, the application unmounts. The editor classes record this in a `crashed` flag; the form keeps its last value.

Arrays may have holes: an assignment past the end of a list leaves them. The model keeps a hole apart from an explicit `undefined`. Reading or spreading a hole gives `undefined`; `map` keeps it as a hole; `filter` drops it; `JSON.stringify` writes it as `null`.

Behaviours the contracts make explicit:

- **Project links above the top.** A link whose box lies above the top of the copy gets a page number below 1. The guard only checks the upper bound, so `setPage` ignores the number and the annotation lands on whichever page is current (`PdfLayout.NonPositivePageLandsOnCurrent`).
- **Non-ASCII names.** The current service sanitises after the "CV" fallback has been applied. A name written only in non-ASCII letters (with no white space) therefore gives an empty file-name stem (`PdfService.SanitizeNonAscii`). The earlier service keeps such a name verbatim (`LegacyPdfService.SafeNameVerbatim`).
- **PDF name after an AI run.** Unless an English translation is shown, the export receives the normalised AI result, which has no `fullName`. Both services then name the file "CV" (`CvBuilder.ExportAfterAiNamedCv`).
- **A requirement line in both lists.** One line can be classified both missing and matched, and then shows in both lists (`JobAnalysis.LineInBothLists`).
- **Falsy ids.** The earlier `getUserId` turns a stored id of 0 into `null` (`LegacyApi.ZeroIdDropped`). The earlier `generateCV` sends the job ids `""` and `false`, which the current one drops (`LegacyApi.FalsyJobIdsDiffer`).
- **Toggling "ongoing" twice.** On the profile page this restores the flag but not the cleared end date (`Profile.ToggleTwice`).

## Model

| member | source | states |
|---|---|---|
| PdfService.GenerateCvPdf | cv-builder-frontend/src/services/pdfService.js:13-145 | The outcome is the export of the element (element, then capture, then name checks, in the source's order). Exactly one container holding the excluded-free copy, at the A4-or-wider width, was mounted, and the body's children are restored afterwards |
| PdfService.DefaultExportNeedsPreview | cv-builder-frontend/src/services/pdfService.js:13-19 | Called without an id, the export reports a missing element exactly when there is no `cv-preview` element |
| PdfService.Paginate | cv-builder-frontend/src/services/pdfService.js:87-100 | The loop emits exactly PageCount pages; page k shows the whole image at offset -k page heights |
| PdfService.Sanitize | cv-builder-frontend/src/services/pdfService.js:129 | The sanitised stem holds only ASCII letters, digits and `_` |
| PdfService.SafeName | cv-builder-frontend/src/services/pdfService.js:129 | The stem is missing (the call throws) exactly when the name is truthy but not a string; otherwise it holds only ASCII letters, digits and `_` |
| PdfService.FileName | cv-builder-frontend/src/services/pdfService.js:129-130 | A file name exists exactly when a stem does; it ends in `_ATS_CV.pdf` and holds only ASCII letters, digits, `_` and `.` |
| PdfService.FileCharsAppend | cv-builder-frontend/src/services/pdfService.js:130 | Appending the fixed tail to a clean stem keeps the name to those characters |
| PdfService.SanitizeIdempotent | cv-builder-frontend/src/services/pdfService.js:129 | Sanitising a sanitised name changes nothing |
| PdfService.SafeNameFallback | cv-builder-frontend/src/services/pdfService.js:129 | A missing or falsy name gives the stem "CV" |
| PdfService.SafeNameClean | cv-builder-frontend/src/services/pdfService.js:129-130 | Every stem the service saves under is clean and a fixed point of sanitising |
| PdfService.SanitizeBetweenWords | cv-builder-frontend/src/services/pdfService.js:129 | A white-space run between two words becomes exactly one `_` |
| PdfService.SanitizeNonAscii | cv-builder-frontend/src/services/pdfService.js:129 | A name with only non-ASCII, non-space characters leaves an empty stem, because the fallback applies before sanitising |
| LegacyPdfService.GenerateCvPdf | services/pdfService.js:13-168 | Same outcome and mounting guarantees as the current service. The container is removed without a check, and the file name carries the timestamp |
| LegacyPdfService.Paginate | services/pdfService.js:92-107 | The loop emits PageCount pages laid out as in the current service, and its page counter equals the document's page count |
| LegacyPdfService.SafeName | services/pdfService.js:154 | The stem is missing (the call throws) exactly when the name is neither nullish nor a string; a stem is never empty |
| LegacyPdfService.FileName | services/pdfService.js:154-155 | A file name exists exactly when a stem does; it has no white space and ends in `-`, the clock's decimal reading and `.pdf` |
| LegacyPdfService.SafeNameFallback | services/pdfService.js:154 | A missing or empty name gives the stem "CV" |
| LegacyPdfService.SafeNameKeepsName | services/pdfService.js:154 | A non-empty name's stem is the name with each white-space run turned into `_` |
| LegacyPdfService.SafeNameNoSpace | services/pdfService.js:154 | No stem contains white space |
| LegacyPdfService.SafeNameVerbatim | services/pdfService.js:154 | A name without white space, in any script, is used as it is |
| PdfLayout.ContainerWidth | cv-builder-frontend/src/services/pdfService.js:27-33 | The container is at least as wide as the A4 width in pixels and as the element, and equals one of the two |
| PdfLayout.ImageHeight | cv-builder-frontend/src/services/pdfService.js:83-84 | Scaling to the page width keeps the image's aspect ratio |
| PdfLayout.PageCount | cv-builder-frontend/src/services/pdfService.js:87-100 | At least one page is emitted |
| PdfLayout.PageCountCovers | cv-builder-frontend/src/services/pdfService.js:87-100 | The pages cover the image and the last page is needed; the count is 1 exactly when the image fits one page |
| PdfLayout.PageCountLeast | cv-builder-frontend/src/services/pdfService.js:87-100 | No smaller positive number of pages covers the image |
| PdfLayout.PageCountUnique | cv-builder-frontend/src/services/pdfService.js:95-100 | The loop's exit condition pins the page count down |
| PdfLayout.PageCountAbove | cv-builder-frontend/src/services/pdfService.js:95 | While image remains below k pages, more than k pages will be emitted (the loop's variant) |
| PdfLayout.PaginatedPages | cv-builder-frontend/src/services/pdfService.js:91-98 | k paginated pages are k pages |
| PdfLayout.Paginated | cv-builder-frontend/src/services/pdfService.js:77-98 | The paginated document is a valid writer state |
| PdfLayout.PaginatedStep | cv-builder-frontend/src/services/pdfService.js:96-98 | One loop iteration (addPage, then addImage one page higher) extends the paginated document by exactly one page |
| PdfLayout.PagesTileImage | cv-builder-frontend/src/services/pdfService.js:87-100 | Every point of the image shows on exactly one emitted page: the bands have no gap and no overlap |
| PdfLayout.DomScale | cv-builder-frontend/src/services/pdfService.js:113 | The pixel-to-millimetre factor is positive |
| PdfLayout.ProjectLink | cv-builder-frontend/src/services/pdfService.js:106-120 | Position and size scale by one factor. The y on the page plus the preceding pages' height is the document y, and it lies within the page. The page number is at least 1 exactly for links at or below the copy's top |
| PdfLayout.ProjectAll | cv-builder-frontend/src/services/pdfService.js:103-120 | One projection per link, in document order |
| PdfLayout.PlaceLink | cv-builder-frontend/src/services/pdfService.js:122-125 | Drawing a link keeps the document valid and its page count unchanged |
| PdfLayout.PlaceLinks | cv-builder-frontend/src/services/pdfService.js:106-126 | The link loop keeps the document valid and its page count unchanged |
| PdfLayout.PlaceLinkOnItsPage | cv-builder-frontend/src/services/pdfService.js:122-125 | A link numbered at least 1 lands on its own page, or nowhere when that page does not exist; images stay |
| PdfLayout.PlaceLinksPerPage | cv-builder-frontend/src/services/pdfService.js:106-126 | Page k ends up with exactly the annotations of the links projected onto it, in document order |
| PdfLayout.PlaceLinksImages | cv-builder-frontend/src/services/pdfService.js:106-126 | Drawing links never moves or removes an image |
| PdfLayout.NonPositivePageLandsOnCurrent | cv-builder-frontend/src/services/pdfService.js:119-125 | A link above the copy's top passes the guard and is drawn on the current page |
| PdfLayout.DrawLinks | cv-builder-frontend/src/services/pdfService.js:103-126 | The loop's document is the fold of PlaceLink over the projected links of the copy |
| PdfLayout.Clone | cv-builder-frontend/src/services/pdfService.js:21-24 | The copy holds no excluded node below its root |
| PdfLayout.RenderedPages | cv-builder-frontend/src/services/pdfService.js:87-126 | The saved document has PageCount pages, and page k holds only the image at offset -k page heights |
| PdfLayout.RenderedPagesLinks | cv-builder-frontend/src/services/pdfService.js:103-126 | With no link above the copy's top, each page carries exactly its own links |
| PdfLayout.Export | cv-builder-frontend/src/services/pdfService.js:13-145 | A file is saved exactly when the element exists, the capture succeeds and the name is computable; otherwise the first failing check is reported |
| PdfWriter.PageAdded | cv-builder-frontend/src/services/pdfService.js:97 | addPage appends a blank page and makes it current, keeping the earlier pages |
| PdfWriter.ImageAdded | cv-builder-frontend/src/services/pdfService.js:91 | addImage adds to the current page only |
| PdfWriter.PageSet | cv-builder-frontend/src/services/pdfService.js:123 | setPage switches to an existing page and otherwise changes nothing |
| PdfWriter.LinkAdded | cv-builder-frontend/src/services/pdfService.js:124 | link annotates the current page only |
| PdfWriter.PdfDoc.constructor | cv-builder-frontend/src/services/pdfService.js:77 | A new document has one blank current page |
| PdfWriter.PdfDoc.NumberOfPages | cv-builder-frontend/src/services/pdfService.js:122 | The page count is the number of pages, at least 1 |
| PdfWriter.PdfDoc.AddPage | cv-builder-frontend/src/services/pdfService.js:97 | The document takes the PageAdded transition |
| PdfWriter.PdfDoc.AddImage | cv-builder-frontend/src/services/pdfService.js:91 | The document takes the ImageAdded transition |
| PdfWriter.PdfDoc.SetPage | cv-builder-frontend/src/services/pdfService.js:123 | The document takes the PageSet transition |
| PdfWriter.PdfDoc.Link | cv-builder-frontend/src/services/pdfService.js:124 | The document takes the LinkAdded transition |
| Dom.LinksBelow | cv-builder-frontend/src/services/pdfService.js:103 | Only `a[href]` elements are selected |
| Dom.LinksIn | cv-builder-frontend/src/services/pdfService.js:103 | Only `a[href]` elements are selected from a list of subtrees |
| Dom.Container.constructor | cv-builder-frontend/src/services/pdfService.js:27-36 | The container holds the given width and copy |
| Dom.RemoveFirst | cv-builder-frontend/src/services/pdfService.js:137 | removeChild drops one occurrence of a present child and nothing when it is absent |
| Dom.RemoveAppended | cv-builder-frontend/src/services/pdfService.js:38-39 | Removing what was just appended restores the children exactly |
| Dom.Body.constructor | cv-builder-frontend/src/services/pdfService.js:17 | The body starts with the page's elements and no containers |
| Dom.Body.GetElementById | cv-builder-frontend/src/services/pdfService.js:17-18 | The lookup finds an element exactly when the id is present |
| Dom.Body.AppendChild | cv-builder-frontend/src/services/pdfService.js:39 | The container is appended last; the elements are untouched |
| Dom.Body.RemoveChild | cv-builder-frontend/src/services/pdfService.js:137 | The child is removed; the elements are untouched |
| Dom.StripExcludedClean | cv-builder-frontend/src/services/pdfService.js:24 | After the removal no excluded node remains below the root |
| Dom.StripAllClean | cv-builder-frontend/src/services/pdfService.js:24 | After the removal no excluded node remains in a list of subtrees |
| Dom.StripExcludedNoop | cv-builder-frontend/src/services/pdfService.js:24 | A tree with nothing to exclude is copied unchanged |
| Dom.StripAllNoop | cv-builder-frontend/src/services/pdfService.js:24 | A list of subtrees with nothing to exclude is kept unchanged |
| Dom.StripExcluded | cv-builder-frontend/src/services/pdfService.js:24 | The root and its own attributes stay; no remaining child carries the class, and there are no more children than before |
| Dom.StripAll | cv-builder-frontend/src/services/pdfService.js:24 | No kept subtree root carries the class, and the list never grows |
| Dom.StripExcludedIdempotent | cv-builder-frontend/src/services/pdfService.js:24 | Removing the excluded nodes twice removes nothing more |
| CvPreview.NormalizeUrl | components/cv/CVPreview.jsx:39-42 | Empty stays empty; every other result has an http(s) scheme; a URL with one is kept; others get `https://` |
| CvPreview.NormalizeUrlIdempotent | components/cv/CVPreview.jsx:39-42 | Normalising twice normalises no further |
| CvPreview.NormalizeUrlKeepsInput | components/cv/CVPreview.jsx:39-42 | The input is always the tail of the result |
| CvPreview.CleanText | components/cv/CVPreview.jsx:44-47 | The result has no Markdown character and neither starts nor ends with white space |
| CvPreview.CollapseNoDoubleSpace | components/cv/CVPreview.jsx:46 | After the collapse no two white-space characters are adjacent |
| CvPreview.CleanTextNoDoubleSpace | components/cv/CVPreview.jsx:44-47 | Cleaned text has no two adjacent white-space characters |
| CvPreview.LanguageLevelText | components/cv/CVPreview.jsx:49-56 | A known level gets its label in the chosen language; an unknown level is shown as given; none gives "" |
| CvPreview.LanguageLevelCaseInsensitive | components/cv/CVPreview.jsx:49-56 | Spellings differing only in letter case get the same label |
| CvPreview.LanguageLevelDotlessI | components/cv/CVPreview.jsx:49-56 | "natıve" (with a dotless i) upper-cases to NATIVE and gets the native label in both languages |
| CvPreview.FormatDate | components/cv/CVPreview.jsx:58-71 | Ongoing wins over any date; a missing date is empty; an unparsable date is shown verbatim |
| CvPreview.HeaderName | components/cv/CVPreview.jsx:88 | The header always shows a name: the full name, else the legacy name, else the placeholder |
| CvPreview.SocialLink | components/cv/CVPreview.jsx:97-99 | The user's own link wins over the profile's, which wins over the legacy field |
| CvPreview.SocialLinkRendered | components/cv/CVPreview.jsx:137-146 | A shown social link always has an http(s) scheme and ends with the user's text |
| CvPreview.BaseSummary | components/cv/CVPreview.jsx:75 | The AI summary wins, then the user's summary, then "about me", then "" |
| CvPreview.Summaries | components/cv/CVPreview.jsx:76-78 | The AI list when it has elements; else the base summary alone when non-empty; else none |
| CvPreview.CurrentSummary | components/cv/CVPreview.jsx:85 | An index past the end or a falsy entry reads as "" |
| CvPreview.NextIndex | components/cv/CVPreview.jsx:81-84 | With one summary or none the index stays; otherwise it stays within the list |
| CvPreview.RotateCompose | components/cv/CVPreview.jsx:81-84 | a presses then b presses equal a+b presses |
| CvPreview.NextIndexStep | components/cv/CVPreview.jsx:83 | One press moves forward by one, wrapping from the last summary to the first |
| CvPreview.RotateClimb | components/cv/CVPreview.jsx:81-84 | Below the last summary each press advances by one |
| CvPreview.RotateIdle | components/cv/CVPreview.jsx:82 | With at most one summary no press moves the index |
| CvPreview.RotateFullCircle | components/cv/CVPreview.jsx:81-84 | As many presses as summaries bring the carousel back to where it started |
| CvPreview.SummaryCarousel.constructor | components/cv/CVPreview.jsx:79 | The carousel starts at the first summary |
| CvPreview.SummaryCarousel.ChangeSummary | components/cv/CVPreview.jsx:81-84 | The press advances cyclically and keeps a valid index valid |
| CvPreview.ExperienceList | components/cv/CVPreview.jsx:102 | A non-empty AI list wins over the user's list |
| CvPreview.ProjectList | components/cv/CVPreview.jsx:104-106 | The optimised projects, then the optimised user projects, then the user's |
| CvPreview.EmptyAiListsDefer | components/cv/CVPreview.jsx:102-106 | An empty AI list never hides the user's list |
| CvPreview.JsArray.constructor | components/cv/CVPreview.jsx:110 | The array holds the given elements |
| CvPreview.WithFallback | components/cv/CVPreview.jsx:112-120 | An empty list with a known school gets exactly the synthesised entry; any other list is unchanged |
| CvPreview.WithFallbackIdempotent | components/cv/CVPreview.jsx:112-120 | At most one entry is ever synthesised |
| CvPreview.EducationList | components/cv/CVPreview.jsx:108-120 | A non-empty AI list wins and leaves the user's array alone. Otherwise the fallback is pushed into the user's own array, and the list shown is that array |
| JobAnalysis.Filter | pages/JobAnalysis.jsx:49-51 | A filter keeps exactly the passing elements |
| JobAnalysis.FilterAppend | pages/JobAnalysis.jsx:49-51 | Filtering keeps document order |
| JobAnalysis.Map | pages/JobAnalysis.jsx:86 | A map transforms each line in place |
| JobAnalysis.MapFilterExact | pages/JobAnalysis.jsx:86 | Mapping then filtering keeps exactly the images that pass |
| JobAnalysis.ExtractValue | pages/JobAnalysis.jsx:24-27 | The value has no `*` and no surrounding white space |
| JobAnalysis.ExtractValueNoColon | pages/JobAnalysis.jsx:26 | A line without a colon has no value |
| JobAnalysis.ExtractValueAfterFirstColon | pages/JobAnalysis.jsx:24-27 | The value is the rest of the line after the first colon, later colons kept, unstarred and trimmed |
| JobAnalysis.DropLeading | pages/JobAnalysis.jsx:29 | The leading run of `#` is removed, and only it |
| JobAnalysis.DropHeading | pages/JobAnalysis.jsx:29 | A line not starting with `#` is kept |
| JobAnalysis.StripDecorations | pages/JobAnalysis.jsx:29 | `null` gives ""; the result has no emoji of the class and no surrounding white space |
| JobAnalysis.RequirementLines | pages/JobAnalysis.jsx:49 | Only non-blank lines are kept |
| JobAnalysis.MissingLines | pages/JobAnalysis.jsx:50 | Exactly the requirement lines with a missing marker |
| JobAnalysis.MatchedLines | pages/JobAnalysis.jsx:51 | Exactly the requirement lines with a matched marker |
| JobAnalysis.ClassificationInOrder | pages/JobAnalysis.jsx:49-51 | Both lists keep document order: classifying joined texts joins the classifications |
| JobAnalysis.SplitAtBreak | pages/JobAnalysis.jsx:49 | Splitting at a line break splits the two parts independently |
| JobAnalysis.LineInBothLists | pages/JobAnalysis.jsx:50-51 | A line can be both missing and matched |
| JobAnalysis.LeadingAlt | pages/JobAnalysis.jsx:53 | The alternative found is one the text starts with; none found means none matches |
| JobAnalysis.RemoveTags | pages/JobAnalysis.jsx:53 | The tag scan never lengthens the text |
| JobAnalysis.Clean | pages/JobAnalysis.jsx:53 | The cleaned item has no surrounding white space and contains no `**` |
| JobAnalysis.ReplaceAllBold | pages/JobAnalysis.jsx:53 | Removing every `**` left to right leaves no two adjacent asterisks, and a text not starting with `**` keeps its first character |
| JobAnalysis.TrimNoBold | pages/JobAnalysis.jsx:53 | Trimming cannot bring two asterisks together |
| JobAnalysis.NoBoldContains | pages/JobAnalysis.jsx:53 | Text without adjacent asterisks does not contain `**` |
| JobAnalysis.RemoveTagsNoParen | pages/JobAnalysis.jsx:53 | Text without tags is kept |
| JobAnalysis.RemoveTagsTrailingTag | pages/JobAnalysis.jsx:53 | A status tag at the end of text without `(` is removed and the text kept |
| JobAnalysis.RemoveTagsPlainHead | pages/JobAnalysis.jsx:53 | A first character that is not `(` is kept by the tag scan |
| JobAnalysis.LeadingTag | pages/JobAnalysis.jsx:53 | A status tag on its own is removed whole |
| JobAnalysis.LeadingMarker | pages/JobAnalysis.jsx:53 | A line led by a marker starts with no tag, and that marker is the one removed |
| JobAnalysis.CleanMarked | pages/JobAnalysis.jsx:53 | A line led by any of the four markers (`- `, `X `, `✓`, `✅`), with no `(` or `*` after it, cleans to its text trimmed |
| JobAnalysis.CleanMarkedTagged | pages/JobAnalysis.jsx:53 | The same line with a status tag at its end cleans to the same text |
| JobAnalysis.CleanMarkedTail | pages/JobAnalysis.jsx:53 | After the marker, the tag scan's result is what is trimmed |
| JobAnalysis.CleanTagged | pages/JobAnalysis.jsx:53 | A line led by neither a marker nor a tag, with a status tag at its end and no `(` or `*` before it, cleans to its text trimmed |
| JobAnalysis.ParseAnalysis | pages/JobAnalysis.jsx:69-84 | No result for empty text; otherwise the loop computes exactly the fold of the line step over the lines |
| JobAnalysis.Step | pages/JobAnalysis.jsx:75-84 | A field line or header never touches the collected sections; a body line never changes the mode |
| JobAnalysis.Classify | pages/JobAnalysis.jsx:77-81 | The branches are tried in order: a line is a position line exactly when it matches the position words and not the requirement word; each later kind's words match and no earlier kind's did; a body line matches none |
| JobAnalysis.ParsePrefixStep | pages/JobAnalysis.jsx:75 | One more line is one more step |
| JobAnalysis.Kinds | pages/JobAnalysis.jsx:76-83 | Each line is classified by its trimmed text |
| JobAnalysis.LastIndex | pages/JobAnalysis.jsx:75-84 | The last position of a line kind, and none when it does not occur |
| JobAnalysis.KindsSnoc | pages/JobAnalysis.jsx:75 | Appending a line appends its kind |
| JobAnalysis.LastIndexSnoc | pages/JobAnalysis.jsx:75 | An appended kind is the last of its kind |
| JobAnalysis.StepField | pages/JobAnalysis.jsx:77-79 | A step sets only its own field |
| JobAnalysis.ParseLastWins | pages/JobAnalysis.jsx:77-79 | Position, company and location come from the last matching line, or "" |
| JobAnalysis.ParseModeLastHeader | pages/JobAnalysis.jsx:80-81 | The mode is that of the last header |
| JobAnalysis.StepMode | pages/JobAnalysis.jsx:80-81 | Only a header changes the mode |
| JobAnalysis.FieldLinesNotCollected | pages/JobAnalysis.jsx:77-81 | Field lines and headers never reach the collected sections |
| JobAnalysis.BodyLineCollected | pages/JobAnalysis.jsx:82-83 | A body line goes verbatim, with a line break, to the section of the last header, and nowhere before any header |
| JobAnalysis.StepBody | pages/JobAnalysis.jsx:82-83 | A body line is appended to the current mode's section |
| JobAnalysis.StripAll | pages/JobAnalysis.jsx:86 | Each line is stripped in place |
| JobAnalysis.ResItems | pages/JobAnalysis.jsx:86 | Every item is non-empty and does not mention "sorumluluk" in any case |
| JobAnalysis.MentionNotResponsibility | pages/JobAnalysis.jsx:86 | A line containing a word that lower-cases to "sorumluluk" (in any letter case, including the Kelvin sign for k) is not an item |
| JobAnalysis.ResItemsExact | pages/JobAnalysis.jsx:86 | An item is exactly a qualifying stripped line |
| ProfileLists.Iterate | pages/Profile.jsx:114 | Spreading an array gives its elements, with each hole read as `undefined`; a string gives its characters; spreading a non-iterable throws |
| ProfileLists.Dense | pages/Profile.jsx:114 | The spread copy has the same length, no holes, and each element as it reads; an array without holes is copied as it is |
| ProfileLists.Compact | pages/Profile.jsx:123 | What `filter` visits: no holes, never longer, and an array without holes is kept |
| ProfileLists.RemoveAt | pages/Profile.jsx:123 | The filtered list has no holes and is never longer |
| ProfileLists.RemoveAtCompact | pages/Profile.jsx:123 | For an index in the list, the entries before it and after it stay, in order, without holes |
| ProfileLists.RemoveAtStep | pages/Profile.jsx:123 | The induction step: keeping or dropping the first entry extends the result for the rest |
| ProfileLists.RemoveAtOutside | pages/Profile.jsx:123 | For an index outside the list only the holes go |
| ProfileLists.Holes | pages/Profile.jsx:115 | The gap of an assignment past the end is made of holes |
| ProfileLists.SetAt | pages/Profile.jsx:115 | Assigning an index replaces it, or grows the list to it leaving holes in the gap; other entries are kept |
| ProfileLists.Nth | pages/Profile.jsx:115 | Reading an index gives the entry, or `undefined` past the end or at a hole |
| ProfileLists.WithField | pages/Profile.jsx:115 | The spread sets one key and keeps all others |
| ProfileLists.UpdatedItem | pages/Profile.jsx:112-118 | updateItem throws on a non-iterable list; otherwise it replaces the one entry |
| ProfileLists.UpdateItemLocal | pages/Profile.jsx:112-118 | One sub-field of one entry changes: same length, other entries, other sub-fields and other form fields kept |
| ProfileLists.RemovedItem | pages/Profile.jsx:120-125 | removeItem throws on a non-array and otherwise filters the list |
| ProfileLists.RemoveItemExact | pages/Profile.jsx:120-125 | The entry at the index and the holes go; the rest keep their order; without holes the list gets exactly one shorter; the rest of the form is untouched |
| ProfileLists.RemoveItemOutside | pages/Profile.jsx:120-125 | An out-of-range index drops only the holes; a list without holes leaves the form as it was |
| ProfileLists.Appended | pages/Profile.jsx:105-110 | One template entry at the end, the old entries kept |
| ProfileLists.NumberOrZeroValue | pages/Profile.jsx:100 | The stored value is always a number |
| ProfileLists.MapEntries | pages/Profile.jsx:149 | The map fails exactly when an entry that is not a hole is `null` or `undefined`; otherwise holes stay holes and every other entry is mapped, one result per entry |
| ProfileLists.SkillWithYears | pages/Profile.jsx:149 | Years become a number; every other key is kept |
| ProfileLists.Merged | pages/Profile.jsx:77-86 | Every list field defaults to []; the server's fields win over the old ones; no other key appears |
| ProfileLists.MergedListsAreArrays | pages/Profile.jsx:77-86 | After a fetch every list field holds an array |
| ProfileLists.Refreshed | pages/Profile.jsx:157-159 | Returned data is merged over the form; no data leaves it |
| Profile.Changed | pages/Profile.jsx:97-103 | Only the named field changes; total experience is stored as a number |
| Profile.ItemAdded | pages/Profile.jsx:105-110 | A missing list counts as empty; a non-iterable one throws |
| Profile.AddItemGrows | pages/Profile.jsx:105-110 | The spread list (holes read as `undefined`) grows by one template entry; nothing else changes |
| Profile.ItemToggled | pages/Profile.jsx:127-139 | A non-iterable list throws |
| Profile.ToggleEffect | pages/Profile.jsx:127-139 | The flag flips and the date clears exactly when turning on; everything else is kept |
| Profile.ToggleTwice | pages/Profile.jsx:127-139 | Two toggles restore the flag but leave the date cleared |
| Profile.SavePayload | pages/Profile.jsx:146-151 | A payload exists exactly when the skills list maps without a hole |
| Profile.SavePayloadShape | pages/Profile.jsx:146-151 | Every field is kept; total experience and each skill's years become numbers; skills keep their number and other keys |
| Profile.SaveSkipsHoles | pages/Profile.jsx:112-151 | After a skill is set past the end of the list, saving succeeds and the gap goes out as holes, which the request body writes as `null` |
| Profile.ProfilePage.constructor | pages/Profile.jsx:30-36 | The form starts empty with nothing pending |
| Profile.ProfilePage.StartFetch | pages/Profile.jsx:70-74 | The loader shows; the form is unchanged |
| Profile.ProfilePage.FinishFetch | pages/Profile.jsx:75-93 | Loaded data is merged; a failure keeps the form; the loader goes away either way |
| Profile.ProfilePage.HandleChange | pages/Profile.jsx:97-103 | The form takes the Changed transition |
| Profile.ProfilePage.AddItem | pages/Profile.jsx:105-110 | The form takes ItemAdded when the updater succeeds; when it throws the page crashes (`crashed` is set) and the form keeps its last value |
| Profile.ProfilePage.UpdateItem | pages/Profile.jsx:112-118 | The form takes UpdatedItem when the updater succeeds; when it throws the page crashes (`crashed` is set) and the form keeps its last value |
| Profile.ProfilePage.RemoveItem | pages/Profile.jsx:120-125 | The form takes RemovedItem when the updater succeeds; when it throws the page crashes (`crashed` is set) and the form keeps its last value |
| Profile.ProfilePage.ToggleItemOngoing | pages/Profile.jsx:127-139 | The form takes ItemToggled when the updater succeeds; when it throws the page crashes (`crashed` is set) and the form keeps its last value |
| Profile.ProfilePage.StartSave | pages/Profile.jsx:142-151 | The request is made with the payload when it can be built; otherwise the failure alert shows and saving ends |
| Profile.ProfilePage.FinishSave | pages/Profile.jsx:153-167 | Success merges the returned data and shows the success alert; failure keeps the form and shows the failure alert; saving ends either way |
| ProfileForm.InputValue | components/profile/ProfileForm.jsx:101-107 | A checkbox stores its state; total experience stores `parseInt` or 0; anything else stores the text |
| ProfileForm.Changed | components/profile/ProfileForm.jsx:101-107 | Only the named field changes |
| ProfileForm.ExperienceIsWhole | components/profile/ProfileForm.jsx:105 | Total experience is always a whole number |
| ProfileForm.ItemAdded | components/profile/ProfileForm.jsx:109-114 | A non-iterable list throws; otherwise one template entry is appended |
| ProfileForm.AddItemNeedsList | components/profile/ProfileForm.jsx:109-114 | Adding to a missing list throws |
| ProfileForm.AddItemGrows | components/profile/ProfileForm.jsx:109-114 | The spread list (holes read as `undefined`) grows by one template entry; nothing else changes |
| ProfileForm.ProjectForSave | components/profile/ProfileForm.jsx:140 | An ongoing project's end date is cleared; every other key is kept |
| ProfileForm.SavePayload | components/profile/ProfileForm.jsx:135-141 | A payload exists exactly when skills and projects both map without a hole |
| ProfileForm.SavePayloadProjects | components/profile/ProfileForm.jsx:135-141 | The same projects go out in order, with the end date cleared exactly for ongoing ones and all else kept |
| ProfileForm.TickOngoingThenSave | components/profile/ProfileForm.jsx:287 | Ticking "ongoing" and saving sends that project ongoing and without an end date |
| ProfileForm.SaveErrorText | components/profile/ProfileForm.jsx:152-153 | The alert is the fixed prefix followed by the server's message when it is truthy, else the error's own message when that is truthy (each as `String` writes it), else a default |
| ProfileForm.ProfilePage.constructor | components/profile/ProfileForm.jsx:29-36 | The form starts empty with nothing pending |
| ProfileForm.ProfilePage.StartFetch | components/profile/ProfileForm.jsx:72-76 | The loader shows; the form is unchanged |
| ProfileForm.ProfilePage.FinishFetch | components/profile/ProfileForm.jsx:77-95 | Loaded data is merged; a failure keeps the form; the loader goes away either way |
| ProfileForm.ProfilePage.HandleChange | components/profile/ProfileForm.jsx:101-107 | The form takes the Changed transition |
| ProfileForm.ProfilePage.AddItem | components/profile/ProfileForm.jsx:109-114 | The form takes ItemAdded when the updater succeeds; when it throws the page crashes (`crashed` is set) and the form keeps its last value |
| ProfileForm.ProfilePage.RemoveItem | components/profile/ProfileForm.jsx:116-121 | The form takes RemovedItem when the updater succeeds; when it throws the page crashes (`crashed` is set) and the form keeps its last value |
| ProfileForm.ProfilePage.UpdateItem | components/profile/ProfileForm.jsx:123-129 | The form takes UpdatedItem when the updater succeeds; when it throws the page crashes (`crashed` is set) and the form keeps its last value |
| ProfileForm.ProfilePage.StartSave | components/profile/ProfileForm.jsx:132-141 | The request is made with the payload when it can be built; otherwise the error alert shows and saving ends |
| ProfileForm.ProfilePage.FinishSave | components/profile/ProfileForm.jsx:143-156 | Success merges the returned data and shows the success alert; failure shows the error text; saving ends either way |
| CvBuilderData.LatestIndex | cv-builder-frontend/src/pages/CVBuilder.jsx:74-76 | The chosen job is the first one of greatest creation time, as the stable newest-first sort puts first |
| CvBuilderData.Defined | cv-builder-frontend/src/pages/CVBuilder.jsx:74-76 | The entries the sort compares are exactly the entries that are not `undefined`, never more of them |
| CvBuilderData.LatestJob | cv-builder-frontend/src/pages/CVBuilder.jsx:72-81 | No jobs gives `null`. Otherwise the handler throws exactly when every spread entry is `undefined` (holes included) or some entry is `null`; else the job is an entry that is not `undefined` and is no older than any other such entry |
| CvBuilderData.LatestJobSkipsUndefined | cv-builder-frontend/src/pages/CVBuilder.jsx:74-78 | A leading `undefined` entry is sorted to the end, so the job after it is shown |
| CvBuilderData.AiBody | cv-builder-frontend/src/pages/CVBuilder.jsx:185 | A truthy `data` field is unwrapped, otherwise the response data itself is the body; a truthy response never gives a falsy body |
| CvBuilderData.Override | cv-builder-frontend/src/pages/CVBuilder.jsx:124-141 | Only the AI keys are overridden, only by truthy values, and only when an AI result exists |
| CvBuilderData.SummaryOverride | cv-builder-frontend/src/pages/CVBuilder.jsx:125 | A summary override is truthy |
| CvBuilderData.ProjectsOverride | cv-builder-frontend/src/pages/CVBuilder.jsx:124-141 | A projects override is a non-empty list |
| CvBuilderData.ListOverride | cv-builder-frontend/src/pages/CVBuilder.jsx:124-141 | A list override is a non-empty list |
| CvBuilderData.TranslationPayload | cv-builder-frontend/src/pages/CVBuilder.jsx:121-141 | Each key holds its override when one applies, and the copy of the user's value otherwise |
| CvBuilderData.Overrides | cv-builder-frontend/src/pages/CVBuilder.jsx:124-141 | Exactly the applicable overrides, with their values |
| CvBuilderData.NormalizedAi | cv-builder-frontend/src/pages/CVBuilder.jsx:184-199 | Exactly the normalised keys. Every list defaults to []. The summary is the tailored one, else the first of the summaries, else "". The job used is kept |
| CvBuilderData.NormalizedListsPresent | cv-builder-frontend/src/pages/CVBuilder.jsx:184-199 | No normalised list is ever absent |
| CvBuilderData.AiSuccessText | cv-builder-frontend/src/pages/CVBuilder.jsx:204 | The alert names the job's position, "undefined" without a job |
| CvBuilderData.PreviewUser | cv-builder-frontend/src/pages/CVBuilder.jsx:264 | The translation is shown only while English is chosen and one exists |
| CvBuilderData.ExportData | cv-builder-frontend/src/pages/CVBuilder.jsx:240-248 | The translation, else the AI result, else the user; tagged with the language; links fall back to the profile's; all other fields kept |
| CvBuilderData.ExportWithoutLinks | cv-builder-frontend/src/pages/CVBuilder.jsx:240-248 | Data without name, profile or links exports none of them |
| CvBuilderData.ExportAfterAiHasNoName | cv-builder-frontend/src/pages/CVBuilder.jsx:240-248 | After an AI run the exported data has no name and no social links |
| CvBuilder.AiErrorText | cv-builder-frontend/src/pages/CVBuilder.jsx:206-228 | The server's message wins, then its error, then the 400 and 500 texts; no answer has its own text |
| CvBuilder.AiFailureText | pages/CVBuilder.jsx:204-207 | The earlier page always shows the fixed text; the newer one the detailed text |
| CvBuilder.AiErrorDefaultExactly | cv-builder-frontend/src/pages/CVBuilder.jsx:206-228 | The default text shows exactly when the error tells nothing more |
| CvBuilder.ServerMessageOnlyOnNewerPage | pages/CVBuilder.jsx:204-207 | Only the newer page passes the server's message on |
| CvBuilder.ExportAfterAiNamedCv | cv-builder-frontend/src/services/pdfService.js:129 | After an AI run both services name the PDF "CV" |
| CvBuilder.CvBuilderPage.constructor | cv-builder-frontend/src/pages/CVBuilder.jsx:12-22 | Nothing loaded, Turkish, nothing pending |
| CvBuilder.CvBuilderPage.Init | cv-builder-frontend/src/pages/CVBuilder.jsx:29-59 | The stored user merged with its profile, kept whole under `profile`, and jobs loaded for its id. A failed profile request keeps the stored user; a stored `null` ends at `null` |
| CvBuilder.CvBuilderPage.StartLoadJobs | cv-builder-frontend/src/pages/CVBuilder.jsx:67-70 | The job loader shows; nothing else changes |
| CvBuilder.CvBuilderPage.FinishLoadJobs | cv-builder-frontend/src/pages/CVBuilder.jsx:70-87 | The newest entry that is not `undefined`, or `null` for no jobs. A failed request, a `null` entry or a list of only `undefined` entries keeps the old job; the loader goes away |
| CvBuilder.CvBuilderPage.RefreshJob | cv-builder-frontend/src/pages/CVBuilder.jsx:90-94 | Jobs are reloaded exactly when the user has an id |
| CvBuilder.CvBuilderPage.ChangeLanguage | cv-builder-frontend/src/pages/CVBuilder.jsx:97-109 | The language changes; translation is asked for exactly when English is newly chosen with no cached translation |
| CvBuilder.CvBuilderPage.StartTranslate | cv-builder-frontend/src/pages/CVBuilder.jsx:112-141 | Without a user an alert and no request; otherwise the payload is the user's copy with the AI fields over it, and the user is unchanged |
| CvBuilder.CvBuilderPage.FinishTranslate | cv-builder-frontend/src/pages/CVBuilder.jsx:149-159 | A truthy answer is cached; a failure alerts and returns to Turkish; the flag clears |
| CvBuilder.CvBuilderPage.StartAiGenerate | cv-builder-frontend/src/pages/CVBuilder.jsx:163-182 | A request is made exactly with a user id and a job; otherwise the matching alert |
| CvBuilder.CvBuilderPage.FinishAiGenerate | cv-builder-frontend/src/pages/CVBuilder.jsx:182-231 | A truthy answer becomes the normalised result, drops the translation so the preview shows the original, and alerts the job; a failure alerts; the flag clears |
| CvBuilder.CvBuilderPage.StartExport | cv-builder-frontend/src/pages/CVBuilder.jsx:235-248 | Without a user nothing; otherwise the export data is chosen and the flag set |
| CvBuilder.CvBuilderPage.FinishExport | cv-builder-frontend/src/pages/CVBuilder.jsx:250-256 | The failure alert shows exactly when the call rejected; the flag clears |
| CvBuilder.CvBuilderPage.Preview | cv-builder-frontend/src/pages/CVBuilder.jsx:261-264 | The loading screen until there is a user, then the preview of the shown data |
| Api.GetUser | cv-builder-frontend/src/services/api.js:9-16 | Nothing stored, or text that does not parse, reads as `null`; otherwise the stored value |
| Api.GetToken | cv-builder-frontend/src/services/api.js:21 | The `token` of the parsed user; `undefined` when nothing is stored, the user is not an object or it has no token |
| Api.IsLoggedIn | cv-builder-frontend/src/services/api.js:19 | Logged in exactly when a non-empty text is stored under `user` |
| Api.GetUserId | cv-builder-frontend/src/services/api.js:22 | The stored id, with only a nullish one becoming `null` |
| Api.SetUser | cv-builder-frontend/src/services/api.js:7 | The user's JSON text is stored, and the user is logged in |
| Api.RemoveUser | cv-builder-frontend/src/services/api.js:18 | The user entry is gone, and nobody is logged in |
| Api.SetUserThenGet | cv-builder-frontend/src/services/api.js:7-19 | After setUser the user is logged in and reads back as its JSON copy (`undefined` as `null`) |
| Api.RemoveUserThenGet | cv-builder-frontend/src/services/api.js:9-22 | After removeUser the user, token and id all read as absent |
| Api.GetUserIdKeepsZero | cv-builder-frontend/src/services/api.js:22 | An id of 0 survives |
| Api.RequestConfig.constructor | cv-builder-frontend/src/services/api.js:35 | The config holds the given headers |
| Api.BearerHeader | cv-builder-frontend/src/services/api.js:39 | The header starts with "Bearer " |
| Api.AuthorizeRequest | cv-builder-frontend/src/services/api.js:34-44 | With a token the bearer header is added, creating the headers if needed and keeping the others; without one the request is untouched |
| Api.RejectResponse | cv-builder-frontend/src/services/api.js:46-55 | A 401 forgets the user and nothing else changes the store; the error is passed on unchanged |
| Api.GenerateCvRequest | cv-builder-frontend/src/services/api.js:142-157 | Rejects exactly without any id. Otherwise the job id is sent only when truthy, the header holds the id as a string, and the timeout is five minutes |
| Api.MarketAnalysisRequest | cv-builder-frontend/src/services/api.js:81-95 | A nullish area is sent as ""; a string area trimmed; any other throws; the header holds the given or stored id |
| Api.MarketAreaTrimmed | cv-builder-frontend/src/services/api.js:87 | The area sent has no surrounding white space and trims to itself |
| Api.HandleApiError | cv-builder-frontend/src/services/api.js:204-218 | A network failure gets the fixed result; otherwise the server's message, the error's, or a default, and the status or UNKNOWN_ERROR; a nullish error throws |
| Api.HandleApiErrorInformative | cv-builder-frontend/src/services/api.js:204-218 | A classified error always has a truthy message and status |
| LegacyApi.GetUser | services/api.js:211-214 | Nothing stored reads as `null`; text that does not parse throws |
| LegacyApi.GetToken | services/api.js:217 | The token exists exactly when getUser does not throw |
| LegacyApi.GetUserId | services/api.js:218-221 | Any falsy id becomes `null` |
| LegacyApi.GetUserAgrees | services/api.js:209-222 | Wherever the earlier reader does not throw, it agrees with the current one on user and token, and on every truthy id |
| LegacyApi.ZeroIdDropped | services/api.js:218-221 | An id of 0 is `null` here but 0 in the current copy |
| LegacyApi.UndefinedUserThrows | services/api.js:210-214 | After `setUser(undefined)` the earlier getUser throws where the current one reads `null` |
| LegacyApi.AuthorizeRequest | services/api.js:17-26 | A truthy token becomes the bearer header. Text that does not parse, a stored `null`, or missing headers make the interceptor throw |
| LegacyApi.SameTokenAsCurrent | services/api.js:19-21 | For a stored object both interceptors send the same token |
| LegacyApi.GenerateCvRequest | services/api.js:111-122 | The job id is sent unless it is `null`, `undefined` or 0; the header holds the id as given; the default timeout applies |
| LegacyApi.FalsyJobIdsDiffer | services/api.js:114-116 | The ids "" and `false` are sent here and dropped by the current copy |
| LegacyApi.Entry | services/api.js:179-183 | A service is UP exactly when its check was fulfilled; the row carries the data or the error message |
| LegacyApi.CheckAll | services/api.js:169-185 | One row per service in the fixed order, UP exactly for the fulfilled ones; a nullish outcome throws |
| Storage.Stringify | cv-builder-frontend/src/services/api.js:7 | `undefined` is stored as a text that does not parse; anything else as its JSON copy |
| Storage.Parse | cv-builder-frontend/src/services/api.js:12 | Parsing succeeds exactly on a JSON text |
| Storage.StringifyRoundTrip | cv-builder-frontend/src/services/api.js:7-12 | A stored value reads back as its JSON copy, and storing the copy stores the same text |
| Storage.LocalStorage.constructor | cv-builder-frontend/src/services/api.js:7 | The store starts empty |
| Storage.LocalStorage.GetItem | cv-builder-frontend/src/services/api.js:11 | getItem finds exactly the stored keys |
| Storage.LocalStorage.SetItem | cv-builder-frontend/src/services/api.js:7 | setItem changes one key |
| Storage.LocalStorage.RemoveItem | cv-builder-frontend/src/services/api.js:18 | removeItem drops one key |
| Json.DeepCopy | cv-builder-frontend/src/pages/CVBuilder.jsx:121 | The copy drops `undefined` fields and keeps every other key; arrays keep their length, with `undefined` elements and holes written as `null` |
| Json.DeepCopyGet | cv-builder-frontend/src/pages/CVBuilder.jsx:121 | Each key of the copy reads as the copy of the original's value |
| Json.DeepCopyIdempotent | cv-builder-frontend/src/pages/CVBuilder.jsx:121 | Copying a copy changes nothing |
| Json.Read | cv-builder-frontend/src/pages/CVBuilder.jsx:74 | Reading an array element never gives a hole: a hole reads as `undefined`, anything else as itself |
| Numbers.NatToDecimal | services/pdfService.js:155 | The timestamp is written as a digit string without leading zeros |
| Numbers.NatToDecimalRoundTrip | services/pdfService.js:155 | Reading the written timestamp back gives the clock value |
| Numbers.NumberOrZero | pages/Profile.jsx:100 | A number when `Number` gives one, 0 for NaN |
| Numbers.ParseIntOrZero | components/profile/ProfileForm.jsx:105 | The parsed integer, or 0 when `parseInt` gives NaN |
| Numbers.ParseUnsigned | components/profile/ProfileForm.jsx:105 | A run of decimal digits reads as its value |
| Numbers.ParseInt | components/profile/ProfileForm.jsx:105 | Blank text is NaN; a run of decimal digits reads as its value |
| Numbers.ParseIntPrefix | components/profile/ProfileForm.jsx:105 | Leading digits are read and what follows them ignored, except that a lone `0` followed by `x` starts a hexadecimal numeral |
| Numbers.ParseUnsignedPrefix | components/profile/ProfileForm.jsx:105 | The same for the part after the sign |
| Numbers.ParseIntOfUnsigned | components/profile/ProfileForm.jsx:105 | Text starting with a digit is read without a sign |
| Numbers.ParseIntOfNegative | components/profile/ProfileForm.jsx:105 | Text starting with `-` is the negated numeral after it |
| Numbers.ParseIntRoundTrip | components/profile/ProfileForm.jsx:105 | `parseInt(String(i))` is `i` for every integer |
| Numbers.DigitPrefixOfDigits | components/profile/ProfileForm.jsx:105 | The digit scan stops exactly where the digits do |
| Numbers.ToNumber | pages/Profile.jsx:101 | Numbers are kept; `null` and blank text are 0; a run of decimal digits reads as its value; `undefined`, holes, arrays and objects are NaN |
| Numbers.UnsignedDecimalOfDigits | pages/Profile.jsx:101 | An unsigned run of digits reads as its value |
| Numbers.StringToNumberOfDigits | pages/Profile.jsx:101 | An optionally negative run of digits reads as its signed value |
| Numbers.TrimUnchanged | pages/Profile.jsx:101 | Text with no white space at either end is its own trim |
| Numbers.ToJsString | cv-builder-frontend/src/services/api.js:154 | A string is itself; a non-negative number is a decimal numeral of its integer part; an integral number reads back as itself through `Number` |
| Numbers.NumberText | cv-builder-frontend/src/services/api.js:154 | The same for the number case alone |
| Numbers.NegatedFloor | cv-builder-frontend/src/services/api.js:154 | For a negative integral number the numeral's value is exactly its magnitude |
| Text.Trim | pages/JobAnalysis.jsx:26 | A contiguous part of the text that neither starts nor ends with white space |
| Text.TrimIdempotent | pages/JobAnalysis.jsx:26 | Trimming twice trims nothing more |
| Text.Split | pages/JobAnalysis.jsx:25 | At least one piece, none containing the separator |
| Text.JoinSplit | pages/JobAnalysis.jsx:25-26 | Splitting and re-joining gives the text back |
| Text.SplitFirst | pages/JobAnalysis.jsx:25 | The first piece runs up to the first separator |
| Text.RemoveChars | components/cv/CVPreview.jsx:46 | No character of the class remains, and nothing new appears |
| Text.ReplaceSpaceRuns | cv-builder-frontend/src/services/pdfService.js:129 | Non-empty text stays non-empty; only original or replacement characters appear |
| Text.ReplaceSpaceRunsNoSpace | services/pdfService.js:154 | Replacing every run by a space-free text leaves no white space |
| Text.ReplaceSpaceRunsNoop | services/pdfService.js:154 | Text without white space is left as it is |
| Text.ReplaceSpaceRunsBetween | cv-builder-frontend/src/services/pdfService.js:129 | A run between words becomes exactly one replacement |
| Text.KeepWordChars | cv-builder-frontend/src/services/pdfService.js:129 | Only ASCII letters, digits and `_` remain |
| Text.KeepWordCharsIdempotent | cv-builder-frontend/src/services/pdfService.js:129 | Filtering twice keeps everything |
| Text.KeepWordCharsAppend | cv-builder-frontend/src/services/pdfService.js:129 | The filter works character by character |
| Text.KeepWordCharsOfWords | cv-builder-frontend/src/services/pdfService.js:129 | A text of word characters is kept whole |
| Text.UpperChar | components/cv/CVPreview.jsx:51 | A character upper-cases to one to three characters |
| Text.UpperCase | components/cv/CVPreview.jsx:51 | No ASCII small letter is left, and the text never gets shorter |
| Text.UpperCaseAppend | components/cv/CVPreview.jsx:51 | Upper-casing works character by character |
| Text.UpperCaseIdempotent | components/cv/CVPreview.jsx:51 | Upper-casing twice is upper-casing once |
| Text.UpperCaseOfFixed | components/cv/CVPreview.jsx:51 | Text made of characters upper-casing keeps is kept |
| Text.CaseOfAscii | components/cv/CVPreview.jsx:51 | On ASCII text both mappings keep the length and map each character to one |
| Text.LowerChar | pages/JobAnalysis.jsx:86 | A character lower-cases to one or two characters |
| Text.LowerCase | pages/JobAnalysis.jsx:86 | No ASCII capital is left, and the text never gets shorter |
| Text.LowerCaseAppend | pages/JobAnalysis.jsx:86 | Lower-casing works character by character |

## Left out

- **Host and browser effects.** `alert`, `console`, `navigate` and `window.location` redirects are left out, except that alerts are returned as values where a handler shows one. So is the `localStorage.removeItem("lastJobAnalyzed")` clean-up after the CV builder loads.
- **React.** Scheduling, re-renders and stale closures are not modelled. When a list handler's updater throws, the unmounted application is only the `crashed` flag of the editor class; nothing the page does afterwards is modelled. Each handler runs against the state it reads. An asynchronous handler is two methods, and whatever happens between them is not modelled.
- **Requests the modules only forward.** The one-line endpoint wrappers of both `api.js` files are not modelled. Neither are `handleApiSuccess` (it reads the clock), `generateCVWithOptions`, `testConnection`, or the requests for translation, profile and jobs. Their results are parameters of the Finish methods.
- **Browser layout and rendering.**
  - html2canvas, font and image waits, and timers are not modelled: the capture is a parameter (`None` when it throws).
  - Element boxes are given, not computed.
  - `link.href` is the attribute's value, not the absolute URL the browser resolves.
- **jsPDF internals.** Image encoding and `save` are not modelled: the saved document is its page list.
- **The PDF services' own alert** (a fixed text plus `error.message`) is reported as the error kind of `ExportOutcome`, not as text.
- CvBuilder.CvBuilderPage.FinishExport: the page's failure alert depends on the PDF call rejecting. Both PDF services catch their own errors and resolve, so `generated` is false only if the call itself fails.
- PdfLayout.ExportInputs: the export assumes the capture and the mounted copy have positive widths, as a rendered CV preview does. A canvas of zero width and positive height would make the scale infinite, and the source's pagination loop would then never end; that case is not modelled.
- CvPreview.FormatDate: the browser's locale date formatting is the opaque `LocaleDate`, and whether `new Date` parses the string is a parameter.
- **Dates in general.** Date parsing in the job sort is a `stamp` parameter returning an integer. NaN dates, which make the comparator inconsistent, are not modelled.
- JobAnalysis.Classify: the keyword regular expressions of the section parser are abstract predicates, and the emoji class of `stripDecorations` is a parameter set.
- The random match score of the analysis dashboard (`pages/JobAnalysis.jsx:95`) is left out, because it uses `Math.random`.
- `handleAnalyzeSingle`, the title fetch of the job-analysis page and the JSX markup are left out, because they only forward to requests and render.
- Text.UpperCase: only the characters whose upper case is or contains an ASCII letter are mapped: the ASCII letters, the dotless i, the long s, the sharp s (to `SS`), the Latin ligatures and the letters whose upper case is an ASCII letter with a combining mark. Every other character (`é`, `ş`, `ğ`, Greek, Cyrillic) is kept as it is instead of being upper-cased. The result is only compared with the ASCII level keys, so no comparison can come out differently.
- Text.LowerCase: only the ASCII capitals, the Kelvin sign and the dotted capital I (to `i` and a combining dot) are mapped; every other character is kept as it is. The result is only searched for the ASCII word "sorumluluk", so no search can come out differently.
- CvPreview.LanguageLevelText: strings are sequences of Unicode code points, not of UTF-16 code units, so lone surrogates and the `length` of characters outside the Basic Multilingual Plane are not modelled.
- Numbers.ToNumber: `Number` of an array is NaN here; JavaScript gives 0 for an empty array and the number of the element for a one-element array. Hexadecimal, octal and binary literals and `Infinity` are NaN here too.
- Numbers.ParseInt: the argument is a string; `parseInt` of another value first converts it with `String`, which is not modelled here.
- Numbers.ToJsString: `Number`, `parseInt` and `String` are modelled for decimal numerals only. A non-integral number is written by its integer part. JSON numbers are exact reals, without double precision.
- **Spreading non-objects.** Spreading a value that is not a plain object (a string, an array) into an object contributes no keys. JavaScript copies the indexed characters or elements.
- **Header objects.** Request headers are an optional map; axios's header object and its merging with instance defaults are not modelled.
- Api.RejectResponse: an error value that is itself `null` or `undefined` would throw on `error.response`. It is treated as having no status.
- Profile.ProfilePage.FinishSave: the request's failure is an empty `None`, since the alert does not depend on the error.
- CvPreview.SocialLink: the other header fields of `userData` (title, email, phone, location, skills, languages, certificates) are plain `||` chains and are not modelled.
