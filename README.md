# Clip Cast viewer: catalog controller and upload form

Clip Cast is a browser front end for a remote video service. The root
component (`src/App.js`) keeps the video list, the selected video, the current
page and whether the upload form is open. It fetches the list, runs searches,
shows five titles per page, highlights the selected title and hands the
selected video to a player. The upload form (`src/Components/Upload.js`)
collects a title, a description and a file. It checks that a title and a file
are present, posts a three-part multipart body, and tells the root component
when the upload succeeded.

This project models those two components in Dafny:

- `wrappers.dfy`: `Option`, which stands for JavaScript's `null` and `undefined`.
- `catalog.dfy` (module `VideoCatalog`): the service's records and the stored records.
  - A parsed response body, reduced to the shapes the handlers tell apart.
  - What `fetchVideoList` and `handleSearch` do with an answer, as functions on a `Catalog` value.
  - The highlight and player-source values the view derives.
- `pagination.dfy` (module `Pagination`): `totalPages`, JavaScript's `slice` including its negative-index rule, `currentTitles` and the page buttons.
- `app.dfy` (module `AppController`): class `App`. Its fields are the root component's four state variables, and its methods are the handlers. Each method that issues a request (`FetchVideoList`, `HandleSearch`, `HandleUploadClose`) takes the network's answer as a parameter, and its postcondition ties the new state to the functions in `VideoCatalog`. The other methods state which field they set and that the rest is unchanged.
- `upload.dfy` (module `UploadForm`): class `Upload`. Its fields are the form's five state variables (`label` is `videoLabel`, because `label` is a Dafny keyword).
  - The submit handler is split at its `await` into `BeginUpload` and `CompleteUpload`. This makes the in-flight state, where `loading` is true and the button is disabled, visible.
  - `HandleUpload` composes the two halves.

The network's answers are parameters:

- A list request ends as `Failure` (the request or `response.json()` rejected) or `Body(data)`.
- An upload ends as `Ok`, `NotOk` or `Error` (thrown).

The mount-time fetch (`src/App.js:18-20`) is the constructor followed by `FetchVideoList`.

Four behaviours of the code, kept as written:

- `fetchVideoList` leaves the previous selection in place when the service returns an empty list (`src/App.js:33-35`). `handleSearch` clears it, as its comment at `src/App.js:100` says.
- On an answer from the list endpoint whose `videos` is missing or not an array, `fetchVideoList` throws at `data.videos.map` (`src/App.js:26`) and keeps the old list and selection, while `handleSearch` with an empty query clears both (`src/App.js:102-105`). `VideoCatalog.EmptySearchIsRefresh` states both differences.
- After a validated submit, the form resets every field whatever the outcome, not only on success (`src/Components/Upload.js:50-54`).
- On a failed upload the handler never calls `onClose(false)`. It only logs (`src/Components/Upload.js:43-47`).

## Model

| member | source | states |
|---|---|---|
| `VideoCatalog.MapRecords` | src/App.js:26-31 | the mapped list has the records' length and order; element i has `id = _id`, `name = title`, `url = "/videos/" + filename` and the same description |
| `VideoCatalog.UnmapAfterMap` | src/App.js:86-91 | the mapping loses nothing: reading the records back from the stored list gives the service's records |
| `VideoCatalog.UrlDeterminesFilename` | src/App.js:29 | two stored URLs are equal only when the file names are |
| `VideoCatalog.VideosOf` | src/App.js:82 | reading `data.videos` throws exactly on `null`/`undefined`, and on an object yields its property |
| `VideoCatalog.FetchedList` | src/App.js:22-38 | `fetchVideoList` stores a list exactly when the body is an object whose `videos` is an array, and then stores the mapped records |
| `VideoCatalog.SearchPath` | src/App.js:70-72 | an empty query requests `/api/videos`; any other query requests `/api/search?q=` followed by the raw query, never the list endpoint |
| `VideoCatalog.SearchedList` | src/App.js:76-108 | a transport failure stores nothing; a non-empty query stores the mapped body if it is an array, else the empty list; an empty query stores nothing only when reading `data.videos` throws, and otherwise agrees with the fetch or stores the empty list |
| `VideoCatalog.AfterFetch` | src/App.js:25-38 | failure (missing or non-array `videos` included) changes nothing; success replaces the list, selects its first record when it has one, and keeps the old selection when it is empty |
| `VideoCatalog.AfterSearch` | src/App.js:78-106 | a search that stores a list selects its first record, or null exactly when the list is empty, so the selection is always listed or null; a non-array answer to a query clears list and selection; otherwise nothing changes |
| `VideoCatalog.EmptySearchIsRefresh` | src/App.js:97-101 | when the fetch stores a list, an empty search of the same answer stores the same list and reaches the same state unless the list is empty, where the search clears the selection and the fetch keeps it; when the fetch stores nothing, the fetch changes nothing and the search either changes nothing or clears list and selection |
| `VideoCatalog.FetchSelectionListed` | src/App.js:32-35 | after a fetch that returns records the selection is one of the listed records |
| `VideoCatalog.Highlighted` | src/App.js:146 | a title is highlighted exactly when the player's one source is that title's URL at the origin |
| `VideoCatalog.OriginDeterminesUrl` | src/App.js:46 | two media URLs at the origin are equal only when the relative URLs are |
| `VideoCatalog.PlayerSources` | src/App.js:46 | the player's source list is empty exactly when nothing is selected, and otherwise is the one mp4 source at the origin followed by the selection's URL |
| `VideoCatalog.AtMostOneHighlighted` | src/App.js:146 | when file names are distinct, at most one stored title is highlighted, whatever the selection |
| `VideoCatalog.FetchPlaysFirst` | src/App.js:33-46 | after a fetch that returns records, the first is highlighted and played from the origin followed by `/videos/` and its file name |
| `Pagination.TotalPages` | src/App.js:113 | the page count is the fewest pages of five that hold the list, so it is 0 exactly for the empty list |
| `Pagination.SliceIndex` | src/App.js:114 | a slice index is clamped to the list, and a non-negative one is the smaller of itself and the length |
| `Pagination.Slice` | src/App.js:114 | a slice is the run of the list starting at the clamped start index, as long as the clamped end minus the clamped start, or empty when that is not positive |
| `Pagination.CurrentTitles` | src/App.js:114 | a page has at most five titles; for page p from 1 on it is the titles from position (p-1)*5 up to min(p*5, n), and it is empty exactly when p is past the page count |
| `Pagination.FirstPagesPrefix` | src/App.js:113-114 | pages 1 to k together are the first min(5k, n) titles in order |
| `Pagination.AllPagesRebuildList` | src/App.js:156 | pages 1 to the page count together give back the whole list in order |
| `Pagination.PageButtons` | src/App.js:156-164 | given the page count `TotalPages(n)` as `total`, one button is rendered per page, and button i is active exactly when the current page is i + 1 |
| `Pagination.ActiveButton` | src/App.js:160 | at most one page button is active, and one is exactly when the current page lies between 1 and the page count |
| `AppController.App.constructor` | src/App.js:12-15 | the form is closed, the list empty, nothing selected, page 1 |
| `AppController.App.FetchVideoList` | src/App.js:22-39 | the list and selection become `AfterFetch` of the old ones; page and form visibility are unchanged |
| `AppController.App.HandleSearch` | src/App.js:68-109 | requests the origin followed by `SearchPath`; list and selection become `AfterSearch` of the old ones; page and form visibility are unchanged |
| `AppController.App.HandleVideoClick` | src/App.js:53-55 | sets only the selection |
| `AppController.App.HandlePageChange` | src/App.js:57-59 | sets only the page, to the given value, unclamped |
| `AppController.App.OpenUpload` | src/App.js:125 | opens the form and changes nothing else |
| `AppController.App.HandleUploadClose` | src/App.js:61-66 | closes the form and refetches exactly when the upload succeeded; otherwise list, selection and page are unchanged |
| `UploadForm.CanSubmit` | src/Components/Upload.js:29 | a submit passes validation only with a non-empty title and a chosen file, and fails when either is missing |
| `UploadForm.Payload` | src/Components/Upload.js:30-33 | the body has exactly three parts, named title, description and video, in that order |
| `UploadForm.PayloadRoundTrip` | src/Components/Upload.js:30-33 | reading the body back gives the entered title, description (possibly empty) and file |
| `UploadForm.CloseSignal` | src/Components/Upload.js:41-48 | `onClose(true)` is called exactly on an ok response, and `onClose(false)` never |
| `UploadForm.Upload.SubmitEnabled` | src/Components/Upload.js:113 | the submit button is enabled only while no request is in flight, and is enabled in the initial state |
| `UploadForm.Upload.constructor` | src/Components/Upload.js:6-10 | the form starts with no file, empty title and description, the initial label and `loading` false |
| `UploadForm.Upload.HandleTextChange` | src/Components/Upload.js:12-18 | the name `title` sets only the title; any other name sets only the description |
| `UploadForm.Upload.HandleVideo` | src/Components/Upload.js:20-23 | stores the first chosen file and labels it `Your Video: ` followed by its name; an empty selection stores no file, keeps the label and throws |
| `UploadForm.Upload.BeginUpload` | src/Components/Upload.js:25-33 | a request is built exactly when the title is non-empty and a file is chosen, and is then the three-part payload with `loading` true and the button disabled; otherwise no request, `loading` false and every other field untouched |
| `UploadForm.Upload.CompleteUpload` | src/Components/Upload.js:41-54 | signals `CloseSignal(outcome)` and returns the form to its initial state, whatever the outcome |
| `UploadForm.Upload.HandleUpload` | src/Components/Upload.js:25-59 | a failed validation alerts, sends nothing and changes only `loading` (to false); a validated submit sends the payload, signals only on ok, and ends in the initial state |

## Left out

- The search box (`src/Components/SearchBar.js`) is not modelled. It is a thin wrapper over the debounce timer of an outside library, whose timing is not part of this model.
- The title list component (`src/Components/VideoList.js`) only renders its props.
- Rendering and styling are not modelled: markup, styled-components CSS, routing, and the `VideoJS`/`VideoPlayer` components, which are not part of this model.
- The player's fixed options (`autoplay`, `controls`, `responsive`, `fluid`) and `handlePlayerReady`, which only logs.
- Requests, JSON parsing and their timing are not modelled. Each answer is a parameter, so the overlap of requests is out of scope. That includes a slow, stale answer overwriting a newer one.
- `VideoCatalog.MapRecords`: the elements of a returned array are taken to be well-formed records with string fields. An element that is `null` (which would throw) or that lacks a field is not modelled. A missing `_id`, `title` or `description` would store `undefined`, and a missing `filename` would store the URL `/videos/undefined`.
- React's batching of state updates is not modelled. Each handler's setters are applied in order, which gives the same final state.
- The logging (`console.log`/`console.error`) and the `alert` text are not modelled. `UploadEffect.Alerted` only records that an alert happened.
- The overlay click (`src/App.js:180`) and the form's Close button (`src/Components/Upload.js:118`) are not separate members. They do what `HandleUploadClose` does with `isUploaded` false.
- `UploadForm.Upload.CompleteUpload` requires a request in flight (`loading`). The source reaches the code after its `await` only in that state.
