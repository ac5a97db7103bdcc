# Portfolio site scripts: a verified Dafny model

This project models the client-side scripts of a personal portfolio site:

- **CRUD admin page** (`js/crud.js`). Its create, update and delete forms do a read-modify-write of a collection of project items. The collection lives either in the browser's local storage under `projectsData` or in a hosted JSONBin document. The page also builds the item from the form, validates it, parses its comma-separated tags and checks the index field. It classifies the store's HTTP status and normalises the response body to one array.
- **Projects page loader** (`js/data-loading.js`):
  - seeds local storage with three sample projects when the key is empty;
  - loads the collection from either backend;
  - renders each item as a `project-card` element, writing one attribute per field.
- **`project-card` custom element** (`js/project-card.js`):
  - the attributes it observes;
  - how it decodes them into props with defaults;
  - which sections its rendering contains;
  - when it re-renders.
- **Light/dark theme switch** (`js/theme-toggle.js`): the `data-theme` attribute on the root, the saved preference and the button's aria-label.
- **Same-document navigation** (`js/page-transitions.js`):
  - which clicks are intercepted;
  - how a fetched page replaces `<main>` and the title, and what happens when the fetch fails;
  - which navigation links get `aria-current="page"`.

Each file is modelled in its own form:

- Pure logic is written as functions and lemmas, in `text.dfy`, `errors.dfy`, `items.dfy` and `jsonbin.dfy`.
- Objects whose state changes are classes:
  - `Crud.ProjectStore` holds the two stores;
  - `DataLoading.ProjectList` is the list element and the alert;
  - `ProjectCard.CardElement` holds the attributes and the rendered view;
  - `ThemeToggle.Theme` holds the attribute, the saved preference and the label;
  - `PageTransitions.Browser` holds the history, `<main>`, the title, and an array with one `aria-current` flag per element;
  - `JsonBin.Environment` holds the secret loaded from `env.json`.
- `CardBinding` holds the lemmas that connect the loader's attributes to the card's decoding.
- Loops in the source stay loops: `forEach` in `renderProjects`, and the two `forEach` passes in `updateActiveNavigation`.

Network responses enter as parameters:

- the status and parsed body of a JSONBin GET;
- the status of a PUT;
- the outcome of fetching `env.json` or a page.

JavaScript's string primitives are modelled exactly:

- `trim` over the ECMAScript white-space and line-terminator set;
- `split` on one character;
- `join`, `includes`, `||` on strings;
- the decimal text of a non-negative integer.

A number from `Number(raw)` is NaN, an infinity or an exact real.

## Model

| member | source | states |
|---|---|---|
| Text.Trim | js/crud.js:40-46 | Neither end of the result is ECMAScript white space |
| Text.TrimTrimmed | js/crud.js:34 | A string with no white space at either end is returned unchanged, so trimming twice equals trimming once |
| Text.TrimEmpty | js/crud.js:13 | `s.trim()` is empty exactly when every character of `s` is white space, which is the `.trim().length` test |
| Text.TrimKeepsOut | js/crud.js:34 | Trimming never introduces a character that was not in the input |
| Text.TrimIsInfix | js/crud.js:40-46 | The trimmed string occurs inside the input, with only white space before and after it |
| Text.OrElse | js/crud.js:45 | `s \|\| d` on strings gives `s` when it is non-empty and `d` when it is empty |
| Text.Split | js/crud.js:34 | `split` on one character never returns an empty list |
| Text.SplitPiecesFree | js/crud.js:34 | No piece of a split contains the separator |
| Text.JoinSplit | js/data-loading.js:51 | Joining the pieces of a split with the same separator gives the original string |
| Text.SplitJoin | js/project-card.js:21-22 | Splitting a join gives the pieces back when none of them contains the separator |
| Text.Join | js/data-loading.js:51 | `join(sep)` of no pieces is empty; the first piece starts the result, and when there are several pieces a separator follows it. JoinSplit and SplitJoin tie it to split |
| Text.SplitStep | js/crud.js:34 | A split stops at the first separator: `p + sep + rest` with `sep` not in `p` splits into `p` followed by the pieces of `rest` |
| Text.SplitAppend | js/crud.js:34 | `(a + sep + b).split(sep)` is `a.split(sep)` followed by `b.split(sep)` |
| Text.Contains | js/page-transitions.js:52 | `s.includes(t)` holds only when `t` is no longer than `s` |
| Text.LastPiece | js/page-transitions.js:148 | `split(sep).pop()` is a separator-free suffix of the input, and it is either the whole input or preceded by a separator |
| Text.JoinLastSuffix | js/data-loading.js:51 | The last of the joined pieces ends the joined string, right after a separator unless it is the only piece; with JoinSplit this gives LastPiece its suffix property |
| Text.Decimal | js/crud.js:145 | A template literal prints a non-negative integer as one or more decimal digits, with no leading zero unless the number is 0 |
| Text.DecimalRoundTrip | js/crud.js:148 | The printed digits read back as the same number |
| Text.DecimalInjective | js/crud.js:145 | Different lengths and indices print differently |
| Errors.Message | js/crud.js:55-145 | Every thrown error has a non-empty message; the six texts are those of lines 55, 71, 72, 76, 108 and 145 |
| Errors.MessageMarks | js/crud.js:71-76 | The first character and one more position tell the six messages apart |
| Errors.MessageInjective | js/crud.js:71-72 | Equal messages mean equal errors: an Unauthorized never reads like an HTTP failure, and the printed status or length is the one that occurred |
| Items.TrimAll | js/crud.js:34 | `map(s => s.trim())` keeps the number of pieces |
| Items.DropEmpty | js/crud.js:34 | `filter(Boolean)` never adds a string |
| Items.TrimAllAt | js/crud.js:34 | `map(s => s.trim())` trims each element in place and keeps the length |
| Items.TrimAllKeeps | js/crud.js:34 | Strings that are already trimmed pass the map unchanged |
| Items.DropEmptyAt | js/crud.js:34 | Every string that survives `filter(Boolean)` is non-empty and comes from the input |
| Items.DropEmptyAppend | js/crud.js:34 | `filter(Boolean)` distributes over concatenation, so order is kept |
| Items.DropEmptyKeeps | js/crud.js:34 | A list with no empty string passes the filter unchanged |
| Items.TagTokens | js/project-card.js:21-24 | Every token of split, trim and filter is non-empty, trimmed and comma-free |
| Items.TagTokensAppend | js/crud.js:34 | The tags of `a + ',' + b` are the tags of `a` followed by the tags of `b` |
| Items.TagTokensOfPiece | js/crud.js:34 | A comma-free piece gives its trimmed self, or no tag when it is blank |
| Items.ParseTags | js/crud.js:32-35 | The empty string gives no tags; the early return agrees with the split-trim-filter chain; every tag is clean |
| Items.TagsRoundTrip | js/data-loading.js:51 | Joining clean tags with ',' and parsing the result gives the same tags back |
| Items.CollectItem | js/crud.js:37-49 | See the note on `Items.CollectItem` below the table |
| Items.ValidateItem | js/crud.js:106-110 | Passes exactly when title, image URL, link URL and description are all non-empty; otherwise the error is MissingFields |
| Items.ValidationIgnoresOptionalFields | js/crud.js:107 | Alt text, link text, date and tags never affect validation |
| Items.CollectThenValidate | js/crud.js:120-121 | A collected form passes validation exactly when none of its four required fields is blank |
| Items.IsInteger | js/crud.js:55 | `Number.isInteger` is false for NaN and both infinities |
| Items.IntegralValues | js/crud.js:55 | Every whole number is an integer, and a value half-way between two whole numbers is not |
| Items.GetIndex | js/crud.js:51-57 | Succeeds exactly on non-negative integral numbers and returns that value; otherwise the error is BadIndex |
| Items.GetIndexExamples | js/crud.js:54-55 | 3 is accepted; -1, NaN and 1.5 are refused |
| JsonBin.StatusError | js/crud.js:70-73 | No error exactly for 200-299; Unauthorized exactly for 401 and 403; any other status reports itself |
| JsonBin.Normalize | js/crud.js:75-76 | A bare array and an array under `record` are taken as is; a falsy record or a non-object body gives []; a truthy non-array record is UnexpectedJson, and only that case fails |
| JsonBin.EnvelopeAgreesWithBare | js/data-loading.js:114-116 | A bare array and the same array under `record` read the same |
| JsonBin.ReadRemote | js/crud.js:68-78 | A non-ok status fails with its status error before the body is looked at; an ok status gives the normalised body |
| JsonBin.ForbiddenIsNotServerError | js/crud.js:71-72 | A 403 surfaces as Unauthorized; a 500 surfaces as "HTTP 500" |
| JsonBin.MasterKey | js/crud.js:20 | The key from `env.json` wins when non-empty; otherwise the stored key is used when non-empty; otherwise there is none |
| JsonBin.ReadHeaders | js/data-loading.js:25-31 | Sends Accept JSON and X-Bin-Meta false; X-Master-Key is present exactly when a key exists, and carries that key; no other header is sent |
| JsonBin.CrudHeaders | js/crud.js:19-25 | Sends Accept JSON; X-Master-Key is present exactly when a key exists; Content-Type JSON is present exactly when requested; no other header is sent |
| JsonBin.EnvKeyPreferred | js/data-loading.js:26 | With a non-empty key from `env.json`, both scripts send that key whatever is stored |
| JsonBin.Environment.constructor | js/crud.js:6 | The secret starts out null |
| JsonBin.Environment.LoadEnv | js/crud.js:8-17 | A non-blank string key is stored trimmed; in every other case (fetch failure, non-ok status, missing, non-string or blank key) the secret is unchanged; a stored secret is never blank or padded |
| Crud.ReadLocal | js/crud.js:59-62 | A stored collection is returned; a missing, empty or unparsable value reads as [] |
| Crud.WriteThenRead | js/crud.js:60-66 | A read after `writeLocal(arr)` gives `arr`, and a later read after writing back what was read sees the same collection. The stored value itself does change when it was missing, empty or unparsable: it is replaced by `[]`, so unparsable data is silently overwritten |
| Crud.ProjectStore.constructor | js/crud.js:2-4 | The local key and the remote document start at the given values |
| Crud.ProjectStore.ReadData | js/crud.js:93-95 | Reads the selected backend: the fail-soft local read, or the checked remote read |
| Crud.ProjectStore.WriteData | js/crud.js:96-98 | A local write always replaces the key; a remote PUT replaces the document only on an ok status, otherwise it reports the status error; the other backend is untouched |
| Crud.ProjectStore.Append | js/crud.js:122-124 | A failed read or write changes nothing and reports its error; on success the backend holds what was read plus the new item at the end |
| Crud.ProjectStore.ReplaceAt | js/crud.js:144-147 | A failed read fails; an index at or past the length fails with OutOfRange(length) and changes nothing; on success the length is kept, position i holds the item and every other position is unchanged |
| Crud.ProjectStore.RemoveAt | js/crud.js:164-167 | As ReplaceAt for the errors; on success the item at i is removed and the items after it shift down by one |
| Crud.ProjectStore.Create | js/crud.js:116-130 | See the note on `Crud.ProjectStore.Create` below the table |
| Crud.ProjectStore.Update | js/crud.js:137-152 | See the note on `Crud.ProjectStore.Update` below the table |
| Crud.ProjectStore.Delete | js/crud.js:159-173 | See the note on `Crud.ProjectStore.Delete` below the table |
| Crud.ErrorText | js/crud.js:128 | `err.message \|\| 'Create failed.'` is always the error's own message, so the fallback never shows |
| DataLoading.CardAttributes | js/data-loading.js:43-51 | See the note on `DataLoading.CardAttributes` below the table |
| DataLoading.SampleProjects | js/data-loading.js:58-89 | Three sample items, each passing validation and each with three tags |
| DataLoading.SeedLocalStorage | js/data-loading.js:56-91 | An empty key is set to the samples; a key that already has a value is left alone |
| DataLoading.ProjectList.constructor | js/data-loading.js:39-40 | Records whether the list element exists, with no cards and no alert |
| DataLoading.ProjectList.RenderProjects | js/data-loading.js:38-54 | Without the list element nothing changes; otherwise the list holds exactly one card per item, in order, with that item's attributes, and a null input renders nothing |
| DataLoading.ProjectList.LoadLocal | js/data-loading.js:93-102 | Unparsable text raises the local alert and keeps the cards; otherwise the alert is unchanged, and with the list element a missing value renders nothing and a stored collection renders one card per item in order; without the list element the cards are unchanged |
| DataLoading.ProjectList.LoadRemote | js/data-loading.js:104-122 | A status error or unexpected body raises the remote alert and keeps the cards; otherwise the alert is unchanged, and the normalised collection is rendered one card per item in order when the list element exists; without it the cards are unchanged |
| ProjectCard.ObservedAttributes | js/project-card.js:2-4 | The element observes eight distinct attribute names |
| ProjectCard.AttrOr | js/project-card.js:26-32 | `getAttribute(name) \|\| d` gives the attribute when it is present and non-empty, and `d` otherwise |
| ProjectCard.CardTags | js/project-card.js:21-24 | The `tags` attribute decodes to the same list that `parseTags` gives; it is empty when the attribute is missing, and every tag is clean |
| ProjectCard.PropsOf | js/project-card.js:20-35 | Each text prop is its attribute when present and non-empty, else its default: 'Untitled' for the title, '#' for href, 'Learn more' for the link text and '' for the rest, so title, href and link text are never empty; tags are decoded as `parseTags` decodes them |
| ProjectCard.Render | js/project-card.js:37-101 | A figure exactly when there is an image; a date block exactly when there is a date, showing that date; a tag list exactly when there is at least one tag, holding the tags in order; title, description and link always shown |
| CardBinding.CardAttributesObserved | js/project-card.js:2-4 | Every attribute the loader writes is one the card observes, so each one re-renders |
| CardBinding.CardRoundTrip | js/project-card.js:20-35 | Decoding the attributes written for an item gives its fields with the loader's defaults, and gives back its tags when they are clean |
| CardBinding.ItemView | js/project-card.js:81-94 | An item shows an image exactly when it has one, a date exactly when it has one, and its own tags in order exactly when it has at least one |
| CardBinding.CollectedItemView | js/project-card.js:94 | A card for a collected form item shows exactly the tags the form gave |
| ProjectCard.CardElement.constructor | js/project-card.js:6-9 | An open shadow root is attached; nothing is rendered and there are no attributes |
| ProjectCard.CardElement.RenderView | js/project-card.js:37-41 | The view is the rendering of the current attributes' props |
| ProjectCard.CardElement.ConnectedCallback | js/project-card.js:11-13 | Connecting renders the current attributes |
| ProjectCard.CardElement.AttributeChangedCallback | js/project-card.js:15-18 | Re-renders when there is a shadow root, and otherwise leaves the view alone |
| ProjectCard.CardElement.SetAttribute | js/project-card.js:2-4 | The attribute is updated; the view is re-rendered exactly for an observed name when there is a shadow root |
| ThemeToggle.Preference | js/theme-toggle.js:15-18 | The saved value when it is non-empty, and 'dark' when it is missing or empty |
| ThemeToggle.Applied | js/theme-toggle.js:23-29 | `data-theme` is 'light' for the light theme and removed for any other value |
| ThemeToggle.NextTheme | js/theme-toggle.js:42-43 | Dark from light, and light from any other attribute state |
| ThemeToggle.Label | js/theme-toggle.js:51-53 | "Switch to dark mode" exactly for the light theme, and "Switch to light mode" otherwise |
| ThemeToggle.ToggleTwice | js/theme-toggle.js:41-55 | Two toggles restore every attribute state that `applyTheme` can produce |
| ThemeToggle.ToggleTwiceFromMarkupDark | js/theme-toggle.js:42-43 | If something other than this script sets `data-theme="dark"` after page load, two toggles do not restore it: the attribute is removed. This script never produces that state, because `initTheme` runs at load and removes a "dark" from the markup |
| ThemeToggle.ToggleSurvivesReload | js/theme-toggle.js:60-63 | The saved preference makes the next page load apply what the toggle applied |
| ThemeToggle.Theme.constructor | js/theme-toggle.js:90-98 | Page load applies the saved preference (so the attribute is reachable) and labels the button, when there is one, for that preference |
| ThemeToggle.Theme.ApplyTheme | js/theme-toggle.js:23-29 | The attribute becomes `Applied(theme)` |
| ThemeToggle.Theme.ToggleTheme | js/theme-toggle.js:41-55 | See the note on `ThemeToggle.Theme.ToggleTheme` below the table |
| ThemeToggle.Theme.KeyDown | js/theme-toggle.js:82-87 | Enter and Space toggle once: the attribute and the saved preference move to the next theme and, when there is a button, so does its label; any other key changes nothing |
| PageTransitions.InterceptedUrl | js/page-transitions.js:35-66 | See the note on `PageTransitions.InterceptedUrl` below the table |
| PageTransitions.ModifiedClickPassesThrough | js/page-transitions.js:37-39 | A click with another button or with ctrl, meta or shift is never intercepted |
| PageTransitions.ExternalRelPassesThrough | js/page-transitions.js:52-54 | Any click landing on a link whose rel contains "external" anywhere is left to the browser |
| PageTransitions.NofollowExternalPassesThrough | js/page-transitions.js:52 | rel is searched as text: "nofollow external" counts as external |
| PageTransitions.CurrentPage | js/page-transitions.js:147-148 | The last path segment, or 'index.html' when that segment is empty; never empty, never holds '/' |
| PageTransitions.LinkMatches | js/page-transitions.js:158-160 | A link whose last segment equals the current page matches; any other match pairs '' with 'index.html' |
| PageTransitions.EmptyPageDisjunctDead | js/page-transitions.js:158-160 | The `currentPage === ''` disjunct can never hold, so the match is the other two tests |
| PageTransitions.RootAndIndexMatch | js/page-transitions.js:157-160 | A link to `/index.html` is current at `/`, and a link to `/` is current at `/index.html` |
| PageTransitions.IsMarkedIff | js/page-transitions.js:156-163 | An element is marked exactly when one of the nav links standing for it matches the current page |
| PageTransitions.Browser.constructor | js/page-transitions.js:173-176 | The page starts with no history pushed by the script and no full load requested, with the given `<main>`, title and nav links |
| PageTransitions.Browser.UpdateActiveNavigation | js/page-transitions.js:146-164 | Afterwards every element carries the marker exactly when it is a nav link matching the current page; all earlier markers are gone |
| PageTransitions.Browser.TransitionToPage | js/page-transitions.js:80-121 | See the note on `PageTransitions.Browser.TransitionToPage` below the table |
| PageTransitions.Browser.HandleNavigationClick | js/page-transitions.js:35-66 | A click that is not intercepted changes nothing; an intercepted click with a usable fetch pushes its URL and updates `<main>`, the title and the nav marks for its path as `TransitionToPage` does; with an unusable fetch it asks for a full load of that URL and changes nothing else |
| PageTransitions.Browser.HandlePopState | js/page-transitions.js:71-75 | Never pushes; without a state URL nothing changes; with a usable fetch `<main>`, the title and the nav marks move to the state URL; an unusable fetch falls back to a full load and changes nothing else |

### Notes on the longer rows

**`Items.CollectItem`**
- Each text field is its form field trimmed (a missing field reads as empty).
- The tags are `parseTags` of the tags field.
- A blank link text becomes "Learn more".
- A required field is empty exactly when its form field is blank.
- The tags are always an array of clean tags.

**`Crud.ProjectStore.Create`**
- Validation happens before any read or write.
- Every failure (MissingFields, then a read or write error) changes nothing.
- On success, the item is appended to what was read, with the fixed success message, and the form is reset.

**`Crud.ProjectStore.Update`**
- Checks happen in this order: the index, then validation, then the read, then the range against the length just read, then the write. Each failure reports its own error and changes nothing.
- On success, only position i changes, and the message names i.

**`Crud.ProjectStore.Delete`**
- Checks happen in this order: the index, the read, the range, then the write. Failures change nothing.
- On success, position i is removed, the message names i, and the form is reset.

**`DataLoading.CardAttributes`**
- Title, alt text, description, href and link text are always set, with the `||` defaults.
- img-src is set exactly when there is an image.
- date is set exactly when there is a date.
- tags is set, as the comma join, exactly when the tags are an array.
- No other attribute is set.

**`ThemeToggle.Theme.ToggleTheme`**
- The attribute, the saved preference and, when there is a button, its label all move to the next theme.
- The label says "dark" exactly when the attribute is light.

**`PageTransitions.InterceptedUrl`**
A click is intercepted exactly when all of the following hold, and then the result is the link's URL:
- it is a plain primary click;
- it lands in an anchor with an href;
- the link is same-origin;
- it does not open in a new tab and its rel does not contain "external";
- it is not a hash link to the current page.

**`PageTransitions.Browser.TransitionToPage`**
- A network failure, a non-ok response or a page with no `<main>` leads to a full load of the URL, and nothing else changes.
- Otherwise:
  - the URL is pushed only when requested;
  - `<main>` is replaced when the page has one;
  - the title is the fetched title, or the old one when the fetched title is missing or empty;
  - navigation is re-marked for the new path.

## Left out

- Network I/O is not modelled: each fetch is a parameter carrying its outcome (`Response`, `EnvFetch`, `PageFetch`). The remote document in `Crud.ProjectStore` is the value of the last successful PUT, not a server.
- A JSONBin request that rejects (a network or CORS failure) or whose body `res.json()` cannot parse is not modelled: a `Response` always has a status and a parsed body. In the source both throw a browser-defined error (js/crud.js:69, 74, 81; js/data-loading.js:106, 113). The handler then shows that error's message and leaves the store unchanged, and `loadRemote` raises its alert. `EnvFetch` and `PageFetch` do model the rejected fetch.
- JSON text is not modelled: `JSON.stringify` and `JSON.parse` of the local key are abstracted to `Stored` (missing, unparsable, a collection).
- Local values that parse to something other than an array are not modelled. In the source they behave unevenly:
  - `null` makes update and delete throw at `arr.length` (js/crud.js:145, 165), and create throw at `push` (js/crud.js:123).
  - Any other non-array value makes create throw at `push`. Delete throws at `splice` (js/crud.js:166) when the value has no `length` or, for a stored string, when the index is below the string's length; an index at or past a string's length throws "Index out of range. Current length: <length of the string>." (js/crud.js:165) first.
  - Update does not throw. For an object such as `{}`, `arr.length` is `undefined`, so the range check passes. `arr[index] = item` adds a property, `{"<index>": item}` is written back, and "Item at index … updated." is reported (js/crud.js:145-148).
  - For a stored number, and for a stored string when the index is below the string's length, the assignment is silently dropped, since crud.js is not in strict mode, and success is still reported. An index at or past a string's length throws "Index out of range. Current length: <length of the string>." (js/crud.js:145).
- Items read from storage are typed: a text field that is missing or not a string is taken as the empty string.
- The `Number(raw)` string grammar and IEEE doubles are not modelled: the index arrives as an already converted `Number` (NaN, an infinity or an exact real).
- The conversion of the index field is not modelled. A missing field (`null`) and an empty field (`''`) both become 0 before `getIndex` tests them.
- The `index < 0` half of the range checks (js/crud.js:145, 165) is redundant after `getIndex`: an index is a `nat` in the model.
- The DOM, HTML and CSS are abstracted:
  - a card is its attribute map;
  - a rendered card is the `View` of its sections, not the markup and styles;
  - `<main>` is its inner HTML as a string;
  - attribute values go into `innerHTML` unescaped (js/project-card.js:84, 89, 92-97), so a field that holds markup is parsed as HTML; `View` holds the values as plain text and does not model that parsing.
- `getStore()` (the radio button that chooses the backend) is the `Backend` parameter of each handler.
- The two `getStore()` calls of one submit are not modelled: `readData` and `writeData` each call it (js/crud.js:94, 97), with an `await` in between. If the radio changes during the read, the source reads one backend and writes the other. One `Backend` value fixes the choice for the whole handler.
- `setStatus`, `form.reset()` and `alert` are recorded in the result rather than performed: `Reply.message`, `Reply.resetForm` and `ProjectList.alert`.
- `console.log` and `console.error` output is not modelled. That includes the loader's own Unauthorized message (js/data-loading.js:109), which only reaches the console.
- The View Transition API is not modelled:
  - `startViewTransition` and `transition.finished` are not modelled, so the content update is taken to happen directly;
  - the branch for a browser without the API, where `initPageTransitions` installs no listener, is not modelled;
  - the `view-transitions-enabled` class and the initial `replaceState` are not modelled.
- `window.scrollTo(0, 0)` has no state in the model.
- URL parsing (`new URL`) is not modelled: URLs arrive parsed. A `.site-nav a` without an href, for which `new URL` throws, is not modelled.
- Concurrency is not modelled: each handler is one atomic read-modify-write. Two overlapping submits can lose an update in the source.
- The race between a submit and the un-awaited `loadEnv()` is not modelled. Headers are built when each request is sent (js/crud.js:20, 69, 83). A request sent before `env.json` has loaded carries the stored key, or no key, and may fail with Unauthorized.
- Local storage quota errors are not modelled.
- Event listener registration is not modelled. That covers `init`, `attachCreate` and the `DOMContentLoaded` wiring. The handlers themselves are modelled.
- The `'Create failed.'`, `'Update failed.'` and `'Delete failed.'` fallbacks never appear. `Crud.ErrorText` proves every error has a non-empty message.
- `ThemeToggle.Theme` models one page load. The button's click listener is `ToggleTheme` itself.
