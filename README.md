# Locals: filter pipeline, vote display and vote/favorite routes

This project models the logic of the "Locals" location-sharing application.
Users browse points of interest, vote like or dislike, and save favorites
once signed in. The model covers two sides.

- The browser script `locais.js`:
  - the filter pass `applyFilters`: a category chosen by a precedence chain
    over five checkboxes, the "WC" amenity toggle, and an inclusive distance
    threshold from the user's position;
  - the click handler that keeps the category checkboxes exclusive;
  - the like/dislike bar percentages of `renderLocations`;
  - the per-card vote patch `updateLocationInUI`;
  - the filter panel's visibility rules (`filterbtn`, `showFilters`,
    `hideAllFilters`, `showResults`).
- The Express server `server.js`:
  - the CORS middleware;
  - the bearer-token extraction and missing-token guard of `authenticateToken`;
  - the like, dislike and add-favorite handlers, over an in-memory store
    standing for the two MongoDB collections.

Modules, one per file:

- `Wrappers` (wrappers.dfy): `Option`.
- `Strings` (strings.dfy): `String.prototype.includes` and `split`, with
  reference definitions and round trips.
- `Sequences` (sequences.dfy): `Array.prototype.filter` as `Select`, and
  subsequences.
- `Records` (records.dfy): the location document shared by server and client.
- `Filter` (filter.dfy): categories, `applyFilters`, the checkbox handler.
- `View` (view.dfy): vote percentages, cards, the results view, the filter panel.
- `Middleware` (middleware.dfy): CORS and `authenticateToken`.
- `Api` (api.dfy): the store and the protected POST routes.

Inputs that come from the browser or from libraries become parameters:

- the distance function (`calculateDistance`, floating-point haversine) is an
  arbitrary `Distance`;
- the slider value is a `real`;
- the geolocation result is an `Option<Coord>`;
- the fetched list is a sequence;
- `jwt.verify` is a function from token to user id.

Behaviours of the code that the model keeps as they are:

- A failed position fix aborts the whole filter pass: the error is caught,
  and neither the title nor the grid changes; the distance step is never
  skipped (locais.js:228-331).
- The category test is substring containment in the single `typeicon`
  string (locais.js:263), not membership in a set of tags.
- When several category boxes are checked, the first one in the order
  Cultura, Natureza, Praia, Trilho, Merendas wins (locais.js:261-288). The
  exclusivity comes only from the click handler.
- `updateLocationInUI` rewrites only the two count labels; the bar widths
  keep their old values (locais.js:353-361).

## Model

| member | source | states |
|---|---|---|
| `Strings.IncludesIffOccurs` | locais.js:263 | `includes` holds exactly when the searched name occurs at some position of `typeicon` |
| `Strings.Split` | server.js:99 | `split(" ")` gives at least one field, and no field contains the separator |
| `Strings.JoinSplit` | server.js:99 | joining the fields of `split` with the separator gives back the header |
| `Strings.SplitJoin` | server.js:99 | splitting a join of separator-free fields gives back those fields |
| `Sequences.Select` | locais.js:262-264 | `.filter` keeps only passing elements, keeps every passing element, and never grows the list |
| `Sequences.SelectIsSubsequence` | locais.js:258-310 | a filter step keeps input order and adds nothing |
| `Sequences.SelectFuse` | locais.js:261-310 | two filter steps in a row equal one filter by both tests |
| `Sequences.SelectKeepsAll` | locais.js:286-294 | a skipped step (no category, WC unchecked) removes nothing |
| `Filter.SelectedCategory` | locais.js:261-288 | the applied category is the first checked box in precedence order, and none exactly when no box is checked |
| `Filter.StepsAreOneFilter` | locais.js:258-310 | the category, WC and distance steps together keep exactly the locations passing all active tests |
| `Filter.ApplyFilters` | locais.js:256-310 | the result is a subsequence of the fetched list; a location is kept iff it contains the applied category's name, has "WC" when the box is checked, and is at distance <= the slider; the title is that category's name or "Locais" |
| `Filter.ClickCheckbox` | locais.js:245-249 | every box except the clicked one is unchecked, and the clicked box keeps its state |
| `Filter.ExclusiveAtMostOne` | locais.js:242-249 | after the handler at most one box is checked, and one is exactly when the clicked box was checked |
| `Filter.ExclusiveSelects` | locais.js:242-288 | after the handler the applied category is the clicked box's if it is checked, none otherwise |
| `Filter.ClickSelects` | locais.js:242-288 | clicking an unchecked category makes it the filter and title; clicking the checked one shows "Locais" |
| `View.VotePercentages` | locais.js:94-98 | with no votes both bars are 0; otherwise each lies in [0, 100], they sum to 100, and the like bar is likes/total of 100 |
| `View.FirstCardWith` | locais.js:350-352 | the selector finds the first card carrying the id, and nothing exactly when no card carries it |
| `View.RenderedCardFound` | locais.js:100 | in a grid rendered from locations with distinct ids, the card found for an id is that location's card |
| `View.ResultsView.RenderLocations` | locais.js:87-134 | the grid holds one card per location, in order, with counts and bar widths |
| `View.ResultsView.UpdateLocationInUI` | locais.js:349-365 | only the matching card's two labels change; no match changes nothing |
| `View.ResultsView.FilterLocations` | locais.js:212-331 | without a position fix nothing changes; otherwise the title and grid show the filtered fetch |
| `View.ResultsView.CategoryClicked` | locais.js:242-253 | a click unchecks the other boxes, then re-renders with the clicked category or none |
| `View.SectionsAfterClick` | locais.js:242-249 | after a click and `showFilters`, only the clicked category's section can be visible |
| `View.FilterPanel.ShowFilters` | locais.js:487-514 | each section is shown iff its box is checked, and the results button iff any box is |
| `View.FilterPanel.HideAllFilters` | locais.js:517-532 | all five sections and the results button are hidden |
| `View.FilterPanel.FilterButton` | locais.js:470-484 | a hidden or unstyled container is shown with `showFilters`; a shown one is hidden with everything in it |
| `View.FilterPanel.ShowResults` | locais.js:540-550 | the container and the results button are hidden, and the sections are unchanged |
| `View.PressTwice` | locais.js:474-483 | two presses of the filter button toggle the container twice |
| `Middleware.Cors` | server.js:16-24 | Allow-Origin is set to the request origin only when that origin is allowed; methods and headers are always set; other headers are untouched |
| `Middleware.OnlyClientOriginGranted` | server.js:14-20 | the only origin ever granted is the deployed client's |
| `Middleware.ExtractToken` | server.js:98-99 | an extracted token is non-empty and contains no space |
| `Middleware.BearerRoundTrip` | server.js:99 | a header `<scheme> <token>`, with or without further space-led text, yields the token; with the next row, a token is extracted exactly when the second field is non-empty |
| `Middleware.ExtractedIsSecondField` | server.js:99 | an extracted token is the text between the first space and the next space or the end |
| `Middleware.AuthenticateToken` | server.js:97-115 | 401 exactly when no token is extracted; 403 when verification fails; otherwise the verified user |
| `Api.Inc` | server.js:186-190 | `$inc` raises the chosen counter by one and changes nothing else |
| `Api.ReplayCounts` | server.js:183-225 | after a series of votes each counter has grown by its number of votes, and the other fields are unchanged |
| `Api.NewLocationCountsVotes` | server.js:60-61 | a new location's counters equal the number of likes and of dislikes it received |
| `Api.CountersNeverDecrease` | server.js:183-225 | later votes never lower either counter |
| `Api.SecondSaveRejected` | server.js:237-241 | saving the same favorite twice: the second request gets 400 and changes nothing |
| `Api.FavoriteKeepsDistinct` | server.js:237-241 | adding a favorite keeps every favorites list free of duplicates |
| `Api.Store.FindByIdAndIncrement` | server.js:186-190 | an existing document has one counter incremented and is returned; an unknown id changes nothing |
| `Api.Store.LikeLocation` | server.js:183-201 | like increments likes and returns the new document; an unknown id gets 404 with the store unchanged |
| `Api.Store.DislikeLocation` | server.js:203-225 | dislike increments dislikes and returns the new document; an unknown id gets 404 with the store unchanged |
| `Api.Store.AddFavorite` | server.js:227-251 | unknown user: 404; duplicate: 400; otherwise the id is appended; locations untouched |
| `Api.Store.Post` | server.js:183-251 | without a token: 401 and no handler runs; a rejected token: 403; otherwise the route's handler runs |

## Left out

- Network I/O is not modelled: `fetchLocations`, the client's like, dislike
  and favorite `fetch` calls, and the register and login forms
  (locais.js:1-14, 367-463, 556-615). The fetched list is an input; a failed
  fetch is the empty list. The client's no-token early return before a vote
  is not modelled.
- Leaflet map work is not modelled (a foreign library): the map, markers,
  clustering, `fitBounds`, and the geolocation marker and circle.
- `calculateDistance` is not modelled. It is floating-point trigonometry and
  is kept as an arbitrary distance function. The browser geolocation call
  `getCurrentLocation` becomes an optional position.
- `updateDistanceValue` and the `DOMContentLoaded` wiring are not modelled.
  The listener re-registration on each `filterLocations` call is not modelled
  either: only the handler's effect is.
- The `.ctime` checkboxes are taken to be the five category checkboxes.
  `index.html` is not part of this model.
- `View.VotePercentages`: computed over exact reals. IEEE-754 rounding in
  `(likes / total) * 100` is not modelled, so the exact sum of 100 may be
  off by rounding in the browser.
- `View.ResultsView.UpdateLocationInUI`: the two labels are modelled by the
  numbers they show, not as the text "Likes: n". The guards for a missing
  label span are not modelled, since rendered cards always have both spans.
- `Middleware.AuthenticateToken`: JWT verification is the parameter
  `verify`. Not modelled: signing, expiry, the two different secret names
  used for signing at login and for verifying, and the claim name (login
  signs `userId`, the routes read `id`).
- Registration, login, bcrypt hashing, the GET routes, static files and
  `app.listen` are not modelled: they are library calls or file serving.
- View.ResultsView.UpdateLocationInUI: location text is assumed to contain
  no markup, and only grid cards are assumed to carry `data-id`.
  `renderLocations` writes `src`, `title` and `description` into
  `innerHTML` unescaped (locais.js:102-116). The lookups then search the
  whole document for `[data-id="…"]` and the card's whole subtree for
  `.likes-count` and `.dislikes-count` (locais.js:350-358). So markup in an
  earlier card's text can be found instead of card Y, and a description
  can be patched instead of the real label. Cards are modelled as plain
  fields, and `FirstCardWith` looks only at the grid's cards.
- Each request is handled as one atomic step. In the server, add-favorite
  reads the user, checks `includes`, then pushes and saves, with awaits in
  between (server.js:232-242). Two concurrent requests for the same id can
  both pass the check and store a duplicate. So `Api.FavoriteKeepsDistinct`
  and the distinct-favorites part of `Api.Store.Valid` hold only when
  requests are handled one at a time. Like and dislike are not affected,
  because `$inc` is a single atomic update.
- Every location document is assumed to carry a `typeicon` string; the
  schema does not require one (server.js:55). Without it,
  `location.typeicon.includes(...)` throws when a category is checked
  (locais.js:263). On the pass started by `filterLocations` the error is
  caught and nothing is re-rendered (locais.js:328). In the click handler it
  is uncaught, after the other boxes were already unchecked. Neither case is
  modelled.
- The 500 replies for database errors and for malformed ids are not
  modelled: the store is an in-memory map that never fails.
- `favorites.js` and `views/script.js` are not modelled: they only fetch
  and render.
