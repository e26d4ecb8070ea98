# EASI website: a Dafny model of its interactive pages

This project models the parts of the EASI marketing site (a React / Next.js
front end) that hold state or compute something, and proves properties of
them:

- **Contact form** (`contact.dfy`, module `Contact`): seven text fields,
  three error flags, a snackbar and a loading flag, kept in the class
  `ContactForm`. Typing clears the typed field's flag; submitting validates
  (name and message must not be blank after JavaScript's `trim`, the e-mail
  must match `/^\S+@\S+\.\S+$/`), then either opens the "fill in all
  required fields" snackbar or starts loading and hands back the JSON body
  to POST, with an empty subject replaced by "Contact Form Submission" and
  an empty inquiry type by "general". The POST's outcome is an input to
  `CompleteSubmit`: success empties the form, failure keeps it, and loading
  ends either way. A press of the submit button (`PressSubmit`) does
  nothing while loading, and nothing when the browser's own form check
  (the `required` fields and the `type="email"` input) rejects the form:
  only a form the browser accepts reaches the page's validation. The
  e-mail pattern is given three readings (the regular expression taken
  literally, a positional description, and an executable
  scan) and they are proved to accept the same strings.
- **Gallery lightbox** (`gallery.dfy`, module `Gallery`): the categories are
  flattened into one list of images tagged with their category and position;
  the class `GalleryPage` holds the optional selection, which can be opened
  on any image, closed, and moved to the previous or next image with
  wrap-around at both ends; the "k / n" counter names the selected image.
- **Resources page** (`resource.dfy`, module `ResourcePage`): the class
  `ResourceLister` starts loading, then holds either the fetched list or the
  fixed failure message; what the section shows follows a fixed precedence
  (spinner, error panel, empty notice, card grid), and each card links to
  the resource's detail and download URLs under the API's base URL.
- **Courses page** (`courses.dfy`, module `Courses`): the level badge's
  colour classes and the topic list that shows three topics and then
  "+N more topics".
- **Navigation** (`navigation.dfy`, `navbar.dfy`, `footer.dfy`): the shared
  list of eight links with its external-link rule (`target="_blank"`,
  `rel="noopener noreferrer"`); the navbar's mobile menu toggle and its
  exact-match active-link test; the footer's two columns, the first four
  links and the next four.
- **Shared helpers** (`text.dfy`, module `Text`; `wrappers.dfy`): the
  JavaScript white-space class, `trim`, the decimal rendering of a
  non-negative integer in a template literal, and `Array.prototype.slice`.

## Model

| member | source | states |
|---|---|---|
| `Text.Trim` | src/pages/Contact.tsx:81 | `String.prototype.trim`; `Text.TrimSpec` and `Text.TrimEmptyIff` state what it removes |
| `Text.TrimSpec` | src/pages/Contact.tsx:81 | `trim` removes exactly the white space at both ends: the result is a contiguous piece of the input with no white space at either end, and everything cut off is white space |
| `Text.TrimStartSpec` | src/pages/Contact.tsx:81 | the leading cut is a white-space prefix and stops at the first non-white-space character |
| `Text.TrimEndSpec` | src/pages/Contact.tsx:81 | the trailing cut is a white-space suffix and stops at the last non-white-space character |
| `Text.TrimEmptyIff` | src/pages/Contact.tsx:81 | `s.trim() === ''` holds exactly when `s` is all white space (both directions) |
| `Text.Decimal` | src/pages/Resource.tsx:190 | the rendering of an id is a non-empty string of digits with no leading zero except for 0 itself |
| `Text.DecimalRoundTrip` | src/pages/Resource.tsx:190 | reading the rendered numeral back gives the id |
| `Text.DecimalInjective` | src/pages/Resource.tsx:190 | distinct ids render to distinct numerals |
| `Contact.EmailReadingsAgree` | src/pages/Contact.tsx:82 | the pattern read literally (three non-white-space runs around '@' and '.') and read by positions accept the same strings |
| `Contact.IndexFromSpec` | src/pages/Contact.tsx:82 | the scan used by the executable test finds the first occurrence at or after a position, and -1 means there is none |
| `Contact.EmailTest` | src/pages/Contact.tsx:82 | the executable form of the pattern test; `Contact.EmailTestMatchesShape` states what it accepts |
| `Contact.EmailTestMatchesShape` | src/pages/Contact.tsx:82 | the executable e-mail test accepts exactly the strings the pattern accepts |
| `Contact.FormData.Set` | src/pages/Contact.tsx:54-57 | the edited field takes the new value and the other six keep theirs |
| `Contact.Errors.ClearedFor` | src/pages/Contact.tsx:60-65 | editing a field with a flag clears that flag and no other; editing any other field leaves the flags as they were |
| `Contact.Validate` | src/pages/Contact.tsx:80-84 | name and message are flagged exactly when blank after trimming, the e-mail exactly when it does not match the pattern |
| `Contact.BuildPayload` | src/pages/Contact.tsx:94-102 | name, e-mail, message, phone and organization go out verbatim; an empty subject or inquiry type is replaced by its default, a non-empty one is kept |
| `Contact.SentPayloadIsWellFormed` | src/pages/Contact.tsx:89-102 | whatever is sent has a non-blank name and message, an e-mail matching the pattern, and a non-empty subject and inquiry type |
| `Contact.ValidationExamples` | src/pages/Contact.tsx:80-84 | a blank name alone is flagged; a complete form passes |
| `Contact.ContactForm.constructor` | src/pages/Contact.tsx:28-50 | all fields empty, no flags, snackbar closed with severity success, not loading |
| `Contact.ContactForm.HandleChange` | src/pages/Contact.tsx:52-66 | the field is set and its flag, if it has one, is cleared; snackbar and loading untouched |
| `Contact.ContactForm.HandleSelectChange` | src/pages/Contact.tsx:68-74 | the field is set; flags, snackbar and loading untouched |
| `Contact.ContactForm.BeginSubmit` | src/pages/Contact.tsx:76-102 | the flags become the validation result; with a flag set nothing is sent and the error snackbar opens; otherwise loading starts and the payload of the current form is returned; the form is unchanged |
| `Contact.ContactForm.CompleteSubmit` | src/pages/Contact.tsx:106-134 | success empties the form and opens the success snackbar; failure keeps the form and opens the error snackbar; loading ends either way; the flags stay |
| `Contact.ContactForm.PressSubmit` | src/pages/Contact.tsx:306-396 | while loading, or when the browser's form check rejects the form (which it does whenever a required field is empty), a press changes nothing and sends nothing; otherwise it behaves as `BeginSubmit` |
| `Contact.PageValidationStillReached` | src/pages/Contact.tsx:308-386 | forms the browser's `required` check lets through can still fail the page's validation: a white-space-only name, an address without a '.' |
| `Contact.BlankNameScenario` | src/pages/Contact.tsx:306-316 | a fresh form with the name left empty: the press sends nothing, sets no flag and opens no snackbar |
| `Contact.ContactForm.CloseSnackbar` | src/pages/Contact.tsx:145-150 | the snackbar closes keeping its message and severity; nothing else changes |
| `Contact.SubmitScenario` | src/pages/Contact.tsx:89-134 | a complete form is sent once with the default subject and inquiry type; a second press while pending sends nothing |
| `Gallery.Flatten` | src/app/gallery/page.tsx:76-82 | the flat list; `Gallery.FlattenLength`, `Gallery.FlattenAt`, `Gallery.FlattenEntry` and `Gallery.FlattenTagsUnique` state its properties |
| `Gallery.FlattenLength` | src/app/gallery/page.tsx:76-82 | the flat list has one entry per image |
| `Gallery.FlattenAt` | src/app/gallery/page.tsx:76-82 | image `i` of category `c` sits after the images of earlier categories and carries the tags `(c, i)` |
| `Gallery.FlattenEntry` | src/app/gallery/page.tsx:76-82 | every entry of the flat list is the image its tags name |
| `Gallery.FlattenTagsUnique` | src/app/gallery/page.tsx:76-82 | no two entries of the flat list carry the same tags |
| `Gallery.FindIndexSpec` | src/app/gallery/page.tsx:100-103 | `findIndex` gives the first entry carrying the tags, or -1 when none does |
| `Gallery.FindIndexRecovers` | src/app/gallery/page.tsx:100-103 | with unique tags, looking up an entry's tags gives back its own position |
| `Gallery.StepIsRotation` | src/app/gallery/page.tsx:105-110 | the new index stays in range and is a rotation by one in either direction |
| `Gallery.StepInverse` | src/app/gallery/page.tsx:105-110 | `prev` undoes `next` and `next` undoes `prev` |
| `Gallery.Navigate` | src/app/gallery/page.tsx:97-114 | the selection after one press; `Gallery.NavigateFrom`, `Gallery.NavigateRoundTrip` and `Gallery.NavigateNextPeriod` state its properties |
| `Gallery.NavigateFrom` | src/app/gallery/page.tsx:97-114 | moving from the entry at a position selects the entry at the neighbouring position, wrapping at both ends |
| `Gallery.NavigateRoundTrip` | src/app/gallery/page.tsx:97-114 | `next` then `prev`, or `prev` then `next`, gives back the selected image |
| `Gallery.NavigateNextTimes` | src/app/gallery/page.tsx:97-114 | `k` presses of `next`, up to one full round, move `k` places on round the cycle |
| `Gallery.NavigateNextPeriod` | src/app/gallery/page.tsx:97-114 | pressing `next` once per image comes back to the starting image |
| `Gallery.GalleryHasFiveImages` | src/app/gallery/page.tsx:34-73 | the page's two categories flatten to five images |
| `Gallery.GalleryPage.constructor` | src/app/gallery/page.tsx:76-82 | the flat list is built from the page's categories and nothing is selected |
| `Gallery.GalleryPage.OpenModal` | src/app/gallery/page.tsx:84-91 | the chosen image is selected with its category and position, and the selection is an entry of the flat list |
| `Gallery.GalleryPage.CloseModal` | src/app/gallery/page.tsx:93-95 | nothing is selected |
| `Gallery.GalleryPage.NavigateImage` | src/app/gallery/page.tsx:97-114 | no selection stays none; a selection moves one step in the flat list and stays a selection |
| `Gallery.GalleryPage.Counter` | src/app/gallery/page.tsx:341-345 | the counter reads `k / n` with `n` the number of images, `1 <= k <= n`, and entry `k` is the selected image |
| `ResourcePage.DetailUrl` | src/pages/Resource.tsx:190 | the detail link; `ResourcePage.DetailUrlInjective` and `ResourcePage.DetailNeverDownload` state its properties |
| `ResourcePage.DownloadUrl` | src/pages/Resource.tsx:196 | the download link, the detail link followed by "/download"; `ResourcePage.DownloadUrlInjective` states its property |
| `ResourcePage.DetailUrlInjective` | src/pages/Resource.tsx:190 | distinct resources get distinct detail links |
| `ResourcePage.DownloadUrlInjective` | src/pages/Resource.tsx:196 | distinct resources get distinct download links |
| `ResourcePage.DetailNeverDownload` | src/pages/Resource.tsx:190-196 | no detail link equals any download link |
| `ResourcePage.RenderCard` | src/pages/Resource.tsx:176-196 | one resource's card; `ResourcePage.RenderCardShows` states what it shows |
| `ResourcePage.RenderCardShows` | src/pages/Resource.tsx:176-196 | the description is the resource's own when truthy and "No description available" otherwise; the date line appears exactly when `created_at` is truthy and then carries it; the links are the resource's own URLs |
| `ResourcePage.RenderCards` | src/pages/Resource.tsx:162-205 | one card per resource, in the fetched order |
| `ResourcePage.Render` | src/pages/Resource.tsx:134-154 | spinner exactly while loading; then the error panel exactly when an error is set; then the empty notice exactly when the list is empty; otherwise one card per resource |
| `ResourcePage.ResourceLister.View` | src/pages/Resource.tsx:134-154 | what the section shows for the current state, by the precedence `ResourcePage.Render` states |
| `ResourcePage.ResourceLister.constructor` | src/pages/Resource.tsx:29-31 | loading, no resources, no error |
| `ResourcePage.ResourceLister.StartLoad` | src/pages/Resource.tsx:34 | loading starts; list and error kept |
| `ResourcePage.ResourceLister.FinishLoad` | src/pages/Resource.tsx:36-44 | success stores the response list exactly; failure sets the fixed message and keeps the list; loading ends either way |
| `ResourcePage.TwoResourcesScenario` | src/pages/Resource.tsx:33-45 | a two-item response is shown as two cards in the response's order |
| `ResourcePage.FailedLoadScenario` | src/pages/Resource.tsx:40-44 | a failed load shows the error panel with the fixed message |
| `Courses.LevelColor` | src/app/courses/page.tsx:150-161 | each known level maps to its own colour and only it does; every other string gets gray |
| `Courses.Summarize` | src/app/courses/page.tsx:286-296 | the first `min(3, n)` topics in order, and a count of the rest exactly when there are more than three, shown plus hidden being all topics |
| `Courses.MoreTopicsLabel` | src/app/courses/page.tsx:294 | the summary line's text; `Courses.MoreTopicsLabelReadsBack` states its shape |
| `Courses.MoreTopicsLabelReadsBack` | src/app/courses/page.tsx:294 | the summary line is '+', the numeral of the hidden count, and " more topics" |
| `Courses.CourseCardsOnPage` | src/app/courses/page.tsx:34-125 | on the page's five courses no badge is gray and every card hides two topics |
| `Navigation.ExternalAttrs` | src/components/Navbar.tsx:89-90 | a link gets `target` and `rel` exactly when its item is external, and then `_blank` and `noopener noreferrer` |
| `Navigation.NavigationShape` | src/lib/navigation.ts:2-11 | eight items with distinct addresses, the seventh (Blog) the only external one |
| `Navbar.RenderLinks` | src/components/Navbar.tsx:85-99 | one link per item in order, with its name, address and external attributes, highlighted exactly when its address equals the path |
| `Navbar.IsActive` | src/components/Navbar.tsx:16-18 | exact equality of the path and the link's address; `Navbar.NoPrefixMatch` and `Navbar.AtMostOneActive` state its consequences |
| `Navbar.AtMostOneActive` | src/components/Navbar.tsx:16-18 | with distinct addresses at most one link is highlighted |
| `Navbar.NoPrefixMatch` | src/components/Navbar.tsx:16-18 | a path below a section does not highlight the section's link |
| `Navbar.NavbarState.constructor` | src/components/Navbar.tsx:13-14 | the mobile menu starts closed |
| `Navbar.NavbarState.ToggleMenu` | src/components/Navbar.tsx:110 | the menu button flips the menu |
| `Navbar.NavbarState.CloseMenu` | src/components/Navbar.tsx:132 | a mobile link or "Get in Touch" closes the menu |
| `Navbar.NavbarState.MobileLinks` | src/components/Navbar.tsx:123-141 | the mobile menu lists exactly the desktop links, in the same order, while open, and nothing while closed |
| `Navbar.ToggleTwice` | src/components/Navbar.tsx:110 | two presses of the menu button leave it as it was |
| `Footer.QuickLinks` | src/components/Footer.tsx:61-71 | the "Quick Links" column; `Footer.ColumnsListFirstEight` and `Footer.ColumnAttributes` state its contents and attributes |
| `Footer.ServiceLinks` | src/components/Footer.tsx:78-89 | the "Services" column; `Footer.ColumnsListFirstEight` and `Footer.ColumnAttributes` state its contents and attributes |
| `Footer.ColumnsListFirstEight` | src/components/Footer.tsx:61-89 | the two columns read in order list the first eight navigation items, each once |
| `Footer.ColumnAttributes` | src/components/Footer.tsx:61-89 | quick links never set a target; a service link opens a new tab exactly when its item is external |
| `Footer.FooterOnSite` | src/components/Footer.tsx:61-89 | on the site's list each column has four links, Home to Training then Consultancy to Contact, Blog the only new tab |

## Left out

- The network: the contact POST and the resources GET are not modelled; their outcome (delivered or failed, the fetched list or a rejection) is an input to `CompleteSubmit` and `FinishLoad`. The newsletter form is not part of this model.
- Console logging, the 6000 ms auto-hide of the snackbar, and animations, icons and styling beyond the class strings of the level badge.
- `formatDate`: the card keeps the raw `created_at` where the page prints a locale-formatted date.
- The "Try Again" button reloads the whole page (`window.location.reload`); a reload is a fresh `ResourceLister`, so no separate retry operation is modelled.
- `ResourcePage.Resource`: ids are non-negative integers below 2^53 (the type `ResourcePage.SafeId`), which JavaScript numbers hold exactly and template literals render in plain decimal. Larger ids, which the JSON parser rounds (so that two of them can share a link) or renders in exponent form, and other JSON shapes of `id` are not modelled; of a resource only the fields the card reads are kept.
- `Contact.ContactForm.PressSubmit`: the browser's verdict on the form is an input; the model states only that an empty required field makes it reject the form. The HTML e-mail grammar of `type="email"` and the browser's clean-up of that input's value are not modelled.
- `Gallery.GalleryPage.OpenModal`: requires a valid category and image index; the page only calls it from the rendered grid, and an out-of-range call would throw or select an image-less object in the page.
- `Courses.CourseCardsOnPage`: of each course only title, duration, level and topics are kept; rating, students, price, description and the other presentation fields are not modelled.
- The desktop "Get in Touch" button is a plain link to `/contact` with no state.
- The contact form's `handleChange` receives the field by its input `name`; the model takes the `Field` directly, so a name that is not one of the seven fields cannot occur.
- The list of resources is fetched from `API_URL + "/resources/"` (with a trailing slash); the `RESOURCES` endpoint constant, which has no trailing slash, is not used by the page. The request URL itself is not modelled beyond the constant `ResourcePage.ResourcesUrl`.
- The submission status is not a separate state: as the code does, the model keeps the snackbar (open, message, severity) and the loading flag, and closing the snackbar keeps its message and severity.
