# User list screen: search, theme and edit-session model

The screen (`src/App.jsx`) is a single React component over a remote
"todolist" collection of user records. It keeps five pieces of component
state: the fetched collection `data`, the search text `search`, and an edit
draft made of `editId`, `editName` and `editCity`. It also keeps a persisted
`theme` preference in local storage, which goes with a `dark` class on the
document root. This project models three parts of it:

- `search.dfy` (module `Search`) holds the name search that derives the
  visible rows from `data` and `search`. It is a pure function with lemmas.
  Lower-casing is ASCII case folding. `includes` is a left-to-right substring
  scan, and a lemma proves that scan equal to "occurs at some position".
- `theme.dfy` (module `Theme`) holds the class `ThemePreference`. Its fields
  are the storage key (`Option<string>`, where `None` means the key is absent)
  and the presence of the `dark` class. Its methods are `setInitialTheme` and
  `toggleTheme`.
- `view_state.dfy` (module `ViewState`) holds the class `AppView`. Its fields
  are the component state plus the create dialog's form controls. Its methods
  are `loadData`, the create, edit-save and delete handlers, the row's edit
  action and typing in the search box. The network is not modelled. Each
  handler takes the outcome of its remote call as parameters: `ok` for the
  POST, PUT or DELETE, and a `Fetch` for the GET that reloads the list. Each
  handler returns the requests it issued, in order, so "reload only on
  success" is visible in the contract.
- `optional.dfy` holds the `Option` datatype.

## Model

| member | source | states |
|---|---|---|
| Search.LowerChar | src/App.jsx:132 | the folded character is never an upper-case ASCII letter; A to Z map to a to z, and every other character is kept |
| Search.Lower | src/App.jsx:132 | `toLowerCase` keeps the length and folds each character in place |
| Search.LowerSameUpToCase | src/App.jsx:132 | two strings have the same lower-cased form iff they differ only in the ASCII case of letters |
| Search.IncludesIffOccurs | src/App.jsx:132 | the left-to-right `includes` scan succeeds iff the needle occurs at some position of the name |
| Search.IncludesEmpty | src/App.jsx:132 | `includes("")` holds of every string |
| Search.Filter | src/App.jsx:131-133 | the result is no longer than the collection, and every row in it is in the collection and matches the term |
| Search.FilterIsSubsequence | src/App.jsx:131-133 | the visible rows are a subsequence of `data` in its original relative order |
| Search.FilterCounts | src/App.jsx:131-133 | a matching record occurs in the result exactly as often as in `data`; a non-matching one never occurs |
| Search.FilterMembership | src/App.jsx:131-133 | a record is visible iff it is in `data` and its lower-cased name contains the lower-cased term |
| Search.FilterEmptyTerm | src/App.jsx:131-133 | an empty search term shows the whole collection, in order |
| Search.FilterIdempotent | src/App.jsx:131-133 | filtering the visible rows again with the same term changes nothing |
| Search.FilterSameLowered | src/App.jsx:131-133 | two terms with the same lower-cased form select the same rows |
| Search.FilterCaseInsensitive | src/App.jsx:131-133 | two terms that differ only in ASCII letter case select the same rows |
| Search.FilterExample | src/App.jsx:131-133 | with records named "Ana" and "Bob", the term "an" shows only the "Ana" record |
| Theme.InitialTheme | src/App.jsx:66-74 | the normalised value is "dark" or "light", and it is "dark" iff the key held "dark" or was absent |
| Theme.ToggledTheme | src/App.jsx:76-84 | the toggled value is "dark" or "light", and it is "light" iff the key held "dark" |
| Theme.InitialThemeIdempotent | src/App.jsx:66-74 | normalising an already normalised value keeps it |
| Theme.ToggleTwiceRestores | src/App.jsx:76-84 | two toggles restore a stored "dark" or "light" |
| Theme.ToggleTwiceFromOther | src/App.jsx:76-84 | from an absent key or any value other than "dark" and "light", two toggles end at "light", so the key is not restored |
| Theme.ThemePreference.constructor | src/App.jsx:66-67 | on page load, the key holds whatever earlier sessions left, the class whatever the page was served with |
| Theme.ThemePreference.SetInitialTheme | src/App.jsx:66-74 | the key becomes the normalised value; the dark class is present iff it is "dark" |
| Theme.ThemePreference.ToggleTheme | src/App.jsx:76-84 | the key becomes the toggled value; the dark class is present iff it is "dark" |
| Theme.InitialiseTwice | src/App.jsx:66-74 | running `setInitialTheme` twice leaves the same state as running it once |
| Theme.ToggleTwiceRestoresState | src/App.jsx:76-84 | from any state where the key is "dark" or "light" and the class agrees with it, two toggles leave both the key and the class as they were |
| Theme.ToggleTwiceAfterInit | src/App.jsx:66-84 | after initialisation, two toggles give back the initialised state |
| ViewState.AppView.constructor | src/App.jsx:46-50 | the collection is empty, the search is "", the draft is empty and `editId` is null |
| ViewState.AppView.Visible | src/App.jsx:131-133 | the table shows a subsequence of `data` holding exactly the rows that match `search`, each as often as it occurs in `data` |
| ViewState.AppView.LoadData | src/App.jsx:57-64 | issues one GET; on success `data` becomes the response, and on failure `data` is unchanged |
| ViewState.AppView.SetSearch | src/App.jsx:196-202 | typing changes `search` only; `data` is unchanged, and the visible rows are the filter of `data` by the new term |
| ViewState.AppView.OpenEdit | src/App.jsx:287-291 | the draft takes the row's `name` and `city`, and `editId` takes the row's `id` |
| ViewState.AppView.HandleSubmit | src/App.jsx:86-103 | posts exactly the six form fields, with `status` from the checkbox; only on success does it reload the list and reset the form |
| ViewState.AppView.HandleEditSave | src/App.jsx:105-120 | with a falsy `editId`, sends nothing and changes nothing; otherwise it sends `{name, city}` from the draft to that id; on success it reloads and clears the draft, and on failure it keeps the draft |
| ViewState.AppView.HandleDelete | src/App.jsx:122-129 | deletes by the row's id; only on success does it reload the list |

## Left out

- The HTTP client, the API URL and the response format are left out. Each call's outcome is a parameter.
- What the mock backend does with a create, update or delete is left out: id assignment, and whether the change shows in the next list. The screen makes no promise about it.
- Asynchrony is left out. `loadData()` is not awaited inside the handlers (src/App.jsx:98, 113, 125), so in the source its `setData` can land after the draft is cleared, or after a later handler's reload. The model applies each handler, with its reload, as one atomic step.
- Rendering, the UI component library, icons and styling are left out (src/App.jsx:3-41, 135-312).
- Full Unicode `toLowerCase`, which depends on locale and context, is left out. Only A to Z are folded.
- Strings are modelled as sequences of Unicode code points, not of UTF-16 code units as in JavaScript. The two differ only for names or terms that hold lone surrogates.
- Reading the form controls, `preventDefault`, the mechanics of `reset()` and `console.error` logging are left out. The form is a field of `AppView`, and `reset()` sets it to empty inputs with the checkbox cleared.
- The edit `Dialog` (src/App.jsx:284-296) has a childless trigger (285-294) and no `DialogContent`, and no element calls `handleEditSave`. With no draft-editing inputs, the model has no operation that changes `editName` or `editCity` besides opening an edit and saving.
- The code has no cancel transition: closing the edit dialog (src/App.jsx:284-296) leaves `editId`, `editName` and `editCity` as they were.
- Two toggles restore the key only when it already holds "dark" or "light" (`Theme.ToggleTwiceRestores`). From an absent key or any other value they end at "light" (`Theme.ToggleTwiceFromOther`). After `setInitialTheme` the key always holds one of the two.
- `editId` is modelled as a missing value or a string. "Falsy" is null or the empty string. Ids of other JSON types are not modelled.
- The `dark` class is modelled only by whether it is present. Other classes on the root element are not modelled.
