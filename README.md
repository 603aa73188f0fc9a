# A verified model of the "povos" map page

The page shows a catalogue of indigenous peoples ("povos") read from `data.json`. It has a
Leaflet map with one marker per people, a sidebar list, a six-image thumbnail gallery, an
image dialog, a three-question quiz and a small "commitment" form. It also keeps image
counters for a debug bar. This project models the logic of `site/script.js` in Dafny and
proves what that logic promises. It leaves out the browser plumbing.

Modules, one per part of the script:

- `Wrappers`: `Option`, for JSON fields that may be absent and for lookups that can fail.
- `Text`: ECMAScript's `String.prototype.trim`, over the exact set of white-space and
  line-terminator characters it removes.
- `Dataset`: the `Povo` record and the parsed document (`loadData`). Also the expected-image
  total, which is the `reduce` written as a left fold and proved equal to a plain sum, and
  the `_vt_stats` counters as a class whose two counters only ever go up.
- `Dom`: image elements (`Picture`: a current `src` plus the entity its handlers close over),
  the placeholder URL, the `#sr-live` region, and the Enter/Space activation keys.
- `Thumbnails`: `initGallery`, covering the first six entities, the placeholder choice, the
  keyboard announcement and the load/error counters.
- `Commits`: `initCommitForm`. A note is trimmed, a blank one is ignored and any other is
  prepended. The list keeps the invariant that every note is non-empty and trimmed.
- `QuizEngine`: `initQuiz`, with the fixed table of three questions and the class holding
  `idx` and `score`. A ghost history of the choices proves that the score is the number of
  right answers.
- `SidebarList`: `initSidebar`. Its rows are built in a loop. The `for…in` layer scan is a
  loop with `break`, proved equal to a first-match function. A lemma covers the layer order
  `initMap` creates: a row click opens the marker of the FIRST entity that has the same
  coordinates.
- `ModalDialog`: `initModal`. It covers `find` by name, the rebuilt image list, the caption
  `[caption, "Crédito: " + credit].filter(Boolean).join(" — ")`, and the three click listeners
  (close button, backdrop, `.open-gallery` buttons).
- `Startup`: the startup function. Without Leaflet it skips the map and the sidebar and
  still builds the gallery, the form, the quiz and the dialog.

These are given as inputs instead of being computed: the parsed `data.json` (`None` when the
fetch or the parse fails), whether Leaflet loaded, whether the page has a `#mapid` element
and a live region, the
map's layer list at the time of a sidebar click, the text typed in the form (the `draft`
field), and the image load/error and key events (method calls).

JavaScript truthiness is modelled exactly where the script relies on it. An entity's first
image counts only when it is present and non-empty. A `caption` or `credit` that is the empty
string behaves as if absent. `trim()` yielding `""` is what rejects a note.

Some of what the script does is easy to misread; the model does exactly this:

- `find` returns the FIRST entity with a given name, so a later entity with the same name is
  never shown in the dialog.
- `initGallery` and `initSidebar` append to their lists and never clear them first.
- A sidebar row with no usable image gets `src = ""`, not a placeholder. The marker popup also
  leaves its image block blank.
- The dialog looks the entity up in a freshly fetched `data.json`. Here that is the `povos`
  argument of `OpenByName`.
- `openGalleryByName` first sets the caption to the entity's name and then overwrites it. The
  model makes both assignments.

## Model

| member | source | states |
|---|---|---|
| `Dataset.Povos` | site/script.js:7 | an absent `povos` key yields the empty dataset, a present one yields its list unchanged |
| `Dataset.CountFrom` | site/script.js:8 | the `reduce` fold never goes below its accumulator and returns it unchanged on an empty list |
| `Dataset.TotalImages` | site/script.js:8 | the expected total is 0 for no entities and one entity's image count for a single entity |
| `Dataset.CountFromIsSum` | site/script.js:8 | the `reduce` fold adds the sum of the entities' image counts to its accumulator |
| `Dataset.SumImagesAppend` | site/script.js:8 | the per-entity sum of image counts distributes over concatenation |
| `Dataset.TotalImagesIsSum` | site/script.js:8 | the expected total is the sum of the lengths of `imagens`, a missing `imagens` counting 0 |
| `Dataset.TotalImagesAppend` | site/script.js:8 | the expected total of two parts of a dataset is the sum of their totals |
| `Dataset.TotalImagesZeroIff` | site/script.js:8 | no image is expected exactly when no entity lists any image (both directions) |
| `Dataset.FirstImage` | site/script.js:60 | the first image is used exactly when `imagens` is present, non-empty and its first URL is non-empty, and is then that URL |
| `Dataset.Stats.constructor` | site/script.js:9 | the counters start at 0, with the entity count and the expected-image total |
| `Dataset.Stats.ImageLoaded` | site/script.js:68 | a load adds one to `imagesLoaded` and leaves `imagesFailed` alone |
| `Dataset.Stats.ImageFailed` | site/script.js:65 | a failure adds one to `imagesFailed` and leaves `imagesLoaded` alone |
| `Dataset.LoadData` | site/script.js:2-20 | a failed fetch yields no entities and no counters; otherwise the document's entities and fresh counters at 0 over them |
| `Text.Lead` | site/script.js:88 | what `trim` removes from the front is white space only, and it stops at the first character that is not white space |
| `Text.Trail` | site/script.js:88 | what `trim` removes from the back is white space only, and it stops at the last character that is not white space |
| `Text.Trim` | site/script.js:88 | the result is a slice of the input, white space only was cut off at both ends, and it neither starts nor ends with white space |
| `Text.TrimEmptyIff` | site/script.js:88-89 | trimming yields the empty string exactly when the input is all white space |
| `Text.TrimFixed` | site/script.js:88 | a string that neither starts nor ends with white space is its own trim |
| `Text.TrimIdempotent` | site/script.js:88 | trimming twice gives the same as trimming once |
| `Dom.PicturesOf` | site/script.js:58-61 | one image per entity, in order, each owned by its entity and with the chosen source |
| `Dom.LiveRegion.constructor` | site/script.js:73-74 | the `#sr-live` region starts with no text |
| `Dom.WithPlaceholder` | site/script.js:64 | an image's error handler swaps only that image's source for the placeholder |
| `Thumbnails.ThumbSource` | site/script.js:60 | a thumbnail shows the first image when it is usable, otherwise the placeholder, and is never empty |
| `Thumbnails.Preview` | site/script.js:58-61 | the gallery holds `min(6, n)` thumbnails for n entities, the i-th one for entity i with its thumbnail source |
| `Thumbnails.Announcement` | site/script.js:74 | the announcement is the name, then `": "`, then the summary, and nothing else |
| `Thumbnails.Gallery.constructor` | site/script.js:57 | the gallery starts empty, with the live region and counters it will use |
| `Thumbnails.Gallery.Init` | site/script.js:56-81 | `initGallery` appends exactly the preview thumbnails after whatever the gallery held |
| `Thumbnails.Gallery.OnError` | site/script.js:63-67 | a thumbnail error shows the placeholder and counts one failure when the counters exist |
| `Thumbnails.Gallery.OnLoad` | site/script.js:68 | a thumbnail load counts one loaded image when the counters exist |
| `Thumbnails.Gallery.OnKeyDown` | site/script.js:71-77 | Enter or Space writes `nome: resumo` to the live region; any other key leaves it unchanged |
| `Commits.CommitForm.constructor` | site/script.js:83-85 | the form starts with an empty input and an empty list |
| `Commits.CommitForm.Submit` | site/script.js:86-95 | a draft that trims to nothing changes nothing, not even the input; otherwise the trimmed draft is put in front of the unchanged old list, the input is reset and the submission is announced; every listed note stays non-empty and trimmed |
| `QuizEngine.CorrectSnoc` | site/script.js:113-114 | answering one more question adds a point exactly when the chosen index is the correct one |
| `QuizEngine.CorrectCountsRightPositions` | site/script.js:113 | the score of a choice sequence is the number of positions k where the choice equals question k's correct index |
| `QuizEngine.CorrectAtMostAnswered` | site/script.js:113-114 | the score never exceeds the number of questions answered |
| `QuizEngine.Quiz.View` | site/script.js:106-123 | the final score is shown exactly when `idx` reaches 3, otherwise the current question and its options |
| `QuizEngine.Quiz.constructor` | site/script.js:105 | the quiz starts at question 0 with score 0 |
| `QuizEngine.Quiz.Click` | site/script.js:112-116 | a click always advances `idx` by one and adds a point exactly when the option is the correct one, keeping `0 <= score <= idx <= 3` and score = right answers so far |
| `QuizEngine.ExampleGame` | site/script.js:100-124 | right, wrong, right ends on the final screen with 2 out of 3 |
| `SidebarList.MarkerAt` | site/script.js:143-147 | the first layer whose `getLatLng()` equals the coordinates, or none when no layer is there |
| `SidebarList.FindMarker` | site/script.js:142-148 | the `for…in` scan with `break` returns exactly the first matching layer |
| `SidebarList.MapLayers` | site/script.js:33-40 | `initMap` adds the tile layer first, which has no position, and then entity j's marker at position j + 1 |
| `SidebarList.MapLayersAt` | site/script.js:33-40 | layers added after `initMap` leave the tile layer first and every entity's marker where `initMap` put it |
| `SidebarList.Markers` | site/script.js:39-40 | one marker per entity, in dataset order, at the entity's coordinates |
| `SidebarList.OwnMarker` | site/script.js:139-147 | on the map `initMap` builds, with any later layers, a row click opens the marker of the first entity at the same coordinates, which is the entity's own marker exactly when no earlier entity shares them |
| `SidebarList.RowSource` | site/script.js:132 | a row shows the first image when it is usable, otherwise the empty source |
| `SidebarList.Rows` | site/script.js:129-138 | one row per entity in dataset order, each with its row source |
| `SidebarList.Sidebar.constructor` | site/script.js:128 | the list starts empty |
| `SidebarList.Sidebar.Init` | site/script.js:129-153 | `initSidebar` appends exactly the rows after whatever the list held |
| `SidebarList.Sidebar.Click` | site/script.js:139-149 | a row click centres the view on the entity at zoom 6 and opens the first layer at its coordinates, or none |
| `SidebarList.Sidebar.KeyDown` | site/script.js:150 | Enter or Space acts as a click; any other key does nothing |
| `SidebarList.Sidebar.OnError` | site/script.js:134 | a row image error shows the placeholder and counts one failure when the counters exist |
| `SidebarList.Sidebar.OnLoad` | site/script.js:135 | a row image load counts one loaded image when the counters exist |
| `ModalDialog.FindByName` | site/script.js:175 | the first entity with the given name, or none when no entity has it |
| `ModalDialog.NonEmpty` | site/script.js:182 | `filter(Boolean)` keeps only non-empty strings and is empty exactly when every part is empty |
| `ModalDialog.NonEmptySingle` | site/script.js:182 | filtering one string keeps it exactly when it is non-empty |
| `ModalDialog.NonEmptyAppend` | site/script.js:182 | filtering a concatenation filters each side and keeps their order, so every non-empty part is kept in order |
| `ModalDialog.Join` | site/script.js:182 | `join` of no parts is empty; otherwise the result starts with the first part and ends with the last |
| `ModalDialog.CaptionPart` | site/script.js:180 | the caption part is the `caption` when it is given and non-empty, and empty otherwise |
| `ModalDialog.CreditPart` | site/script.js:181 | the credit part is `"Crédito: "` plus the `credit` when it is given and non-empty, and empty otherwise |
| `ModalDialog.JoinPair` | site/script.js:182 | filtering and joining two parts gives both with the separator, either one alone, or the empty string |
| `ModalDialog.Caption` | site/script.js:180-182 | the caption is empty exactly when neither `caption` nor `credit` is given |
| `ModalDialog.CaptionCases` | site/script.js:180-182 | the caption is `caption — Crédito: credit`, `caption`, `Crédito: credit` or empty, case by case |
| `ModalDialog.PicturesFor` | site/script.js:178 | one image per URL, in order |
| `ModalDialog.Modal.constructor` | site/script.js:156-159 | the dialog starts closed and empty |
| `ModalDialog.Modal.OpenByName` | site/script.js:172-186 | an unknown name changes nothing; otherwise the dialog is open and holds exactly the first matching entity's images in order, nothing left from before, with its caption |
| `ModalDialog.Modal.Close` | site/script.js:161 | the close button closes the dialog and keeps its contents |
| `ModalDialog.Modal.Click` | site/script.js:161-171 | the close button and the backdrop itself close the dialog; clicks inside the content or elsewhere change nothing; an open-gallery button opens by its name |
| `ModalDialog.Modal.OnImageError` | site/script.js:178 | a dialog image error shows the placeholder for that image only and counts nothing |
| `Startup.Boot` | site/script.js:190-211 | without Leaflet: a notice when `#mapid` exists, no map and no sidebar, but the gallery, form, quiz and dialog are built; with it: the map's layers and the sidebar too; every widget starts in its initial state over the loaded dataset |

## Left out

- The Leaflet calls (`L.map`, `tileLayer`, `marker`, `bindPopup`, `setView`, `openPopup`, `map._layers`). Reason: they are a foreign library. The map is a list of layers in `for…in` order. `MapLayers` gives the order `initMap` creates (tile layer first, then one marker per entity). The popup HTML is not modelled.
- `SidebarList.Sidebar.Click`: returns the view it sets and the index of the popup it opens instead of changing the map's state, because the map is not modelled.
- `fetch` and `res.json()`. Reason: network I/O. The parsed document is an input, and `None` stands for a failed fetch or parse. The re-fetch in `openGalleryByName` is modelled as a synchronous lookup in the `povos` argument.
- `updateDebug`, the `console.*` logging and the `?debug=1` / `#debug` verbose flag. Reason: diagnostics that decide nothing.
- DOM construction (`createElement`, `innerHTML`, `alt`, `loading`, `tabIndex`, `preventDefault`, `aria-hidden`, which always mirrors `open`). Reason: presentation. The lists are sequences of `Picture` values.
- Floating-point coordinates. `Coord` is an abstract type with equality, since the script only compares coordinates with `===`.
- When images fire their load and error events. Reason: the events are modelled as method calls, and which events the browser fires (an empty `src` fires `error`; a placeholder that loads fires `load`) is not modelled.
- `QuizEngine.Quiz.Click`: requires a click on an option of the question on screen. The script only attaches handlers to the buttons it renders, and `render` detaches the old ones.
- Elements that `getElementById` may not find, other than `#sr-live`, and `#mapid` when Leaflet is missing. Reason: the script does not check for them and would throw. The model assumes they exist, `#mapid` included when Leaflet is loaded.
- Unescaped names in `data-nome="${p.nome}"`. The model takes the button's name to be the entity's name.
- The script has no persisted best score, no cap on the number of notes or clear-all control, no quiz feedback phase, no focus restoration, no name→marker table, no `trivia` field and no persistence store, so the model has none of them.
