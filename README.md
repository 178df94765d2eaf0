# Portfolio page: catalog, gallery pages, contact form and theme

This project models the logic of the single-page portfolio component
`src/App.tsx`, a React page that presents a developer's projects. The page
holds a static catalog of five project records. A drop-down filters the
gallery by technology tag; its options are the distinct tags of the catalog,
in first-occurrence order, after the fixed option "Tous". The filtered list
is shown six records per page, and "Précédent"/"Suivant" buttons move a page
cursor: "Précédent" never moves it below 1 and "Suivant" never moves it past
the last page. A contact form checks
that no field is blank once trimmed, then checks the e-mail against
`^[^\s@]+@[^\s@]+\.[^\s@]+$`, then hands the form to an e-mail service and
shows a status text for each outcome. A light/dark theme is read from the
stored preference at start-up, flipped by a button and written back whenever
it changes.

Modules:

- `Wrappers`: the `Option` type, for the optional project fields, the stored
  preference that may be absent and the error text that may be missing.
- `Sequences`: `NoDuplicates` and `FirstIndex`, the position at which a
  value first occurs.
- `Catalog`: the `Project` record, the five shipped records, filtering by tag
  and the distinct-tag list, with filtering characterised by the positions it
  keeps and the tag list by first-occurrence order.
- `Pagination`: the page length 6, the page count `ceil(n / 6)` and the page
  slice with JavaScript's clamping of `slice` bounds, with the lemmas that
  the pages are disjoint, contiguous and together cover the list.
- `Contact`: JavaScript white space, `trim`, the e-mail check written as
  conditions on the text and proved equal to the regular expression's
  language, the verdict of the two checks and the status texts.
- `Themes`: the theme, how the stored text decodes to it and encodes it,
  and the toggle.
- `Portfolio`: class `App`, the component's state as fields (theme, sidebar,
  filter, selected project, page cursor, the three form fields, status text,
  pending flag) and one method per modelled handler, each changing only the
  fields it names.

The e-mail service is not modelled. `Submit` returns the payload it would
send (`None` when a check stopped it). The service's answer is delivered by
calling `SendSucceeded` or `SendFailed` with the service's error text.

The model follows the code where it differs from its own comments or from a
natural reading of the page:

- The page length is 6. The comment beside it (src/App.tsx:234) speaks of
  four projects per page.
- Choosing a filter does not reset or clamp the page cursor. A cursor that was in
  range can therefore be past the last page of the new filter; the previous
  and next handlers keep an in-range cursor in range, but `SetFilter` does
  not. With the shipped catalog this cannot be observed:
  `CatalogFitsOnOnePage` shows that every filter yields at most one page, so
  the cursor never leaves page 1.
- The status is a free text, not an enumeration. `StatusesDiffer` shows that
  the texts of the outcomes are pairwise different.

## Model

| member | source | states |
|---|---|---|
| Catalog.Projects | src/App.tsx:30-88 | the shipped catalog has five records whose identifiers are 1 to 5 in display order |
| Catalog.FilterByTag | src/App.tsx:230 | the kept records are exactly the catalog's records that carry the tag, and there are no more of them than in the catalog |
| Catalog.Filtered | src/App.tsx:227-230 | with "Tous" the list is the whole catalog; with any other value a record is shown exactly when it carries that tag |
| Catalog.FilterByTagAtPositions | src/App.tsx:230 | the filtered list is the catalog read at `Positions`, one record per position, so a record carried twice is shown twice |
| Catalog.PositionsIncrease | src/App.tsx:230 | the kept positions strictly increase: filtering keeps catalog order |
| Catalog.PositionsAreTheTaggedOnes | src/App.tsx:230 | a catalog position is kept exactly when its record carries the tag |
| Catalog.FlutterExample | src/App.tsx:30-88 | filtering the shipped catalog by "Flutter" shows the habit tracker, then the measuring app, and nothing else |
| Catalog.Flatten | src/App.tsx:223 | a tag occurs in the flattened list exactly when some record carries it |
| Catalog.Dedup | src/App.tsx:222-223 | building a set from a list keeps exactly the list's values, each once |
| Catalog.DedupKeepsFirstOccurrenceOrder | src/App.tsx:222-223 | the set keeps its values in the order they are first met in the list |
| Catalog.UniqueTechnologies | src/App.tsx:222-224 | the drop-down's tags are without repetition, and a tag is offered exactly when some record carries it |
| Catalog.UniqueTechnologiesOrder | src/App.tsx:222-224 | the drop-down's tags are ordered by their first occurrence across the catalog's records |
| Pagination.TotalPages | src/App.tsx:245 | the page count is the fewest pages of six that hold all items: they hold them all, and one page fewer does not |
| Pagination.PageOf | src/App.tsx:236-242 | page `p` shows at most six items, namely the items from position `6(p-1)` on, as many as remain, up to six |
| Pagination.PageNonEmptyIff | src/App.tsx:236-245 | a page shows something exactly when its number is at most the page count |
| Pagination.AdjacentPagesAreContiguous | src/App.tsx:236-242 | page `p` followed by page `p+1` is one unbroken stretch of the list |
| Pagination.DistinctPagesAreDisjoint | src/App.tsx:236-242 | for a list without repetitions, two different pages share no item |
| Pagination.FirstPagesArePrefix | src/App.tsx:236-242 | pages 1 to `k` read in order are the list's first `6k` items, nothing skipped or repeated |
| Pagination.AllPagesCoverList | src/App.tsx:236-245 | pages 1 to the page count read in order are the whole list |
| Themes.Decode | src/App.tsx:171-173 | the start-up theme is dark exactly when the stored text is "dark", and light otherwise, including when nothing is stored |
| Themes.Encode | src/App.tsx:187 | the stored text is "light" or "dark" and reads back as the theme that wrote it |
| Themes.Flip | src/App.tsx:213-215 | the toggle always changes the theme |
| Themes.FlipInvolutive | src/App.tsx:213-215 | toggling twice restores the theme |
| Themes.TogglesByParity | src/App.tsx:213-215 | after any number of presses of the theme button the theme is the start theme when the number is even and the other theme when it is odd |
| Contact.TrimStart | src/App.tsx:265-267 | strips exactly the leading white space: what is removed from the front is all white space and what remains does not start with white space |
| Contact.TrimStartIsSuffix | src/App.tsx:265-267 | what remains after stripping the leading white space is an end of the original text |
| Contact.TrimEnd | src/App.tsx:265-267 | strips exactly the trailing white space: what is removed from the back is all white space and what remains does not end with white space |
| Contact.TrimEndIsPrefix | src/App.tsx:265-267 | what remains after stripping the trailing white space is a start of the original text |
| Contact.TrimEmptyIffBlank | src/App.tsx:264-268 | a field counts as empty (`Trim`, which is `TrimStart` then `TrimEnd`, leaves nothing) exactly when every character of it is white space in the sense of `IsSpace`, the character set shared by `trim` and `\s` |
| Contact.ValidEmailMatchesPattern | src/App.tsx:274 | a text with no white space, exactly one '@' with something before it, and a '.' strictly inside the domain matches the regular expression |
| Contact.PatternMatchIsValidEmail | src/App.tsx:274 | a text that the regular expression matches meets those conditions |
| Contact.ValidEmailIffPattern | src/App.tsx:274 | `ValidEmail`, the condition-by-condition check the handler runs, and the regular expression accept the same texts |
| Contact.AcceptsOrdinaryAddress | src/App.tsx:274 | "ana@site.fr" is accepted |
| Contact.RejectsDomainWithoutDot | src/App.tsx:274 | "ana@site" is rejected: the domain has no '.' |
| Contact.RejectsDomainStartingWithDot | src/App.tsx:274 | "ana@.fr" is rejected: the '.' cannot start the domain |
| Contact.RejectsPaddedAddress | src/App.tsx:274 | " ana@site.fr" is rejected: the e-mail check runs on the untrimmed field |
| Contact.ValidateMeaning | src/App.tsx:264-278 | `Validate` runs the two checks in the handler's order; the form is incomplete exactly when some field is all white space, whatever the e-mail; otherwise it is rejected exactly when the e-mail does not match the regular expression, and accepted exactly when it does |
| Contact.ReportedError | src/App.tsx:300 | the reported text is never empty; it is the service's text whenever that is present and non-empty, and the fixed fallback text when it is missing or empty |
| Contact.FailureStatus | src/App.tsx:298-302 | the failure status starts with the fixed prefix and continues with the reported text |
| Contact.StatusesDiffer | src/App.tsx:269-300 | the fill-in, bad e-mail, sending and sent texts are pairwise different, and no failure status equals any of them |
| Portfolio.App.StoredTheme | src/App.tsx:187 | the text written to the preference reads back as the current theme |
| Portfolio.App.VisibleProjects | src/App.tsx:227-230 | the gallery's list: the whole catalog under "Tous", otherwise exactly the catalog's records that carry the filter tag |
| Portfolio.App.PageCount | src/App.tsx:245 | the page count is the fewest pages of six that hold the gallery's list |
| Portfolio.App.CurrentProjects | src/App.tsx:236-242 | the current page shows at most six of the gallery's records, and shows something exactly when the cursor is at most the page count |
| Portfolio.App.constructor | src/App.tsx:170-184 | start-up state: theme decoded from the stored preference, filter "Tous", page 1, no project selected, empty form and status, not pending, sidebar open |
| Portfolio.App.ToggleTheme | src/App.tsx:213-215 | the theme changes to the other one; only the theme changes |
| Portfolio.App.ToggleSidebar | src/App.tsx:217-219 | the sidebar flag is negated |
| Portfolio.App.HandleResize | src/App.tsx:193-199 | the sidebar is open exactly when the window is at least 768 wide |
| Portfolio.App.FollowSidebarLink | src/App.tsx:423-425 | a sidebar link closes the sidebar on a window narrower than 768 and leaves it as it was otherwise (the same handler is on the links at 480-482, 533-535, 586-588, 639-641 and 692-694) |
| Portfolio.App.CloseSidebar | src/App.tsx:777 | clicking the overlay closes the sidebar |
| Portfolio.App.SetFilter | src/App.tsx:1051 | only the filter changes, the page cursor is kept, and the visible list is the catalog under the new filter |
| Portfolio.App.PreviousPage | src/App.tsx:248-252 | the cursor moves back one page unless it is on page 1; it stays positive, and a cursor within the pages stays within them |
| Portfolio.App.NextPage | src/App.tsx:254-258 | the cursor moves forward one page unless it is on or past the last page; it stays positive, and a cursor within the pages stays within them |
| Portfolio.App.OpenProject | src/App.tsx:1096 | the modal shows the clicked project |
| Portfolio.App.CloseProject | src/App.tsx:1219 | the modal is closed: no project is selected |
| Portfolio.App.EditName | src/App.tsx:1625 | the name field takes the typed value and the other fields keep theirs |
| Portfolio.App.EditEmail | src/App.tsx:1640 | the e-mail field takes the typed value and the other fields keep theirs |
| Portfolio.App.EditMessage | src/App.tsx:1654 | the message field takes the typed value and the other fields keep theirs |
| Portfolio.App.Submit | src/App.tsx:260-290 | the fields never change; an incomplete form or a bad e-mail sets its status text and sends nothing; an accepted form is sent once, as it stands, with the sending text and the pending flag set |
| Portfolio.App.SendSucceeded | src/App.tsx:291-306 | after a successful send the status is the success text, all fields are empty and nothing is pending |
| Portfolio.App.SendFailed | src/App.tsx:296-306 | after a failed send the status is the failure text for the service's error, the fields are kept and nothing is pending |
| Portfolio.CatalogFitsOnOnePage | src/App.tsx:237-245 | with the shipped catalog every filter yields at most one page, and page 1 shows the whole filtered list |

## Left out

- The rendering (JSX, styling, animations, the particle background, the UML diagrams and the CV viewer), except for the two points below.
- The browser's handling of the e-mail input (`type="email"`, src/App.tsx:1635, in a form without `noValidate`): the browser strips leading and trailing ASCII white space and newlines from its value and withholds the submit event while it holds a non-empty malformed address. The model's e-mail field is an arbitrary string, so `RejectsPaddedAddress` and `RejectsDomainStartingWithDot` describe the handler's own check on inputs the browser would not pass to it.
- The rendering of the page buttons (src/App.tsx:1155-1189): they appear only when there is more than one page and are disabled on the first and last page. `PreviousPage` and `NextPage` model the handlers as callable at any time; while the cursor is within the pages, every call the rendering prevents would leave the cursor unchanged anyway.
- The e-mail service call: its transport, keys and asynchrony are outside the model; its outcome is a parameter, through `SendSucceeded` and `SendFailed`.
- Portfolio.App.Submit: a second submission while a send is pending is not excluded, as in the code; the interleaving of several pending sends is not modelled.
- `localStorage` and the document's `dark` class: the stored text is `StoredTheme`, and reading it is the constructor's parameter.
- The resize listener's registration and removal, and the call of the resize handler at load: the handler itself is `HandleResize`, and the window width is its parameter.
- Console logging and dates: they do not affect any state.
- Contact.FailureStatus: `error.text` is taken to be a string or absent; a non-string value and its string conversion are not modelled.
- Characters are Unicode scalar values rather than UTF-16 code units. For `trim` and for this regular expression the two readings agree, since every white-space character and '@' is a single code unit.
