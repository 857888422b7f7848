# nudining-website in Dafny

This project models the core of the nudining website. The site shows the day's
menu of two Northeastern University dining halls, and its signed-in users rate
the dishes with one to five stars. It has three parts:

- a Python scraper that copies the menu into MongoDB: the titles seen today, and
  one record per new title with its portion, nutrition, icon labels and a
  rating sum and count that both start at zero;
- a Flask backend with two endpoints: `getCurrentFoodItems` lists today's records,
  and `rate` is meant to add a star rating to a record's sum and count (as
  written it fails before reading the request, see below);
- a React frontend: the food list, one card per dish with its average and
  badges, the five-star widget, the Stetson East page's filters and stations,
  the auth context, and the Home, Login and Register pages.

Files and modules:

| file | module | models |
|---|---|---|
| `wrappers.dfy` | `Wrappers` | `Option` and `Result` |
| `food_record.dfy` | `FoodRecord` | the stored food document, and the predicates on lists of them |
| `food_list.dfy` | `FoodList` | `FoodList.jsx`: the fetched list and the rating round trip |
| `food_card.dfy` | `FoodCard` | `FoodCard.jsx`: average, badges, expansion, rating forwarding |
| `star.dfy` | `Star` | `Star.jsx`: hover state, lit stars, click callback |
| `steast.dfy` | `Steast` | `Steast.jsx`: filter toggling, meal period, stations shown |
| `backend.dfy` | `Backend` | `app.py`: catalog projection and the rating read-modify-write |
| `scraper.dfy` | `Scraper` | `nudiningScraper.py`: icon labels, nutrition parsing, per-row insertion |
| `auth_context.dfy` | `AuthContext` | `authContext/index.jsx`: user, login flag, loading gate |
| `home.dfy` | `Home` | `Home.jsx`: macro totals, tutorial, selected dining hall |
| `login.dfy` | `Login` | `Login.jsx`: the sign-in guard, user registration, redirect |
| `register.dfy` | `Register` | `Register.jsx`: the password check and the sign-up guard |
| `consistency.dfy` | `Consistency` | properties spanning scraper, backend, card and star |

Modelling conventions:

- React state becomes a class with one field per `useState`. Each handler is a
  method whose `ensures` gives the whole new state.
- Network responses, the signed-in Firebase user and browser events are parameters.
  Where the outcome of a call reaches the page, it is a datatype with one
  constructor per outcome, for example `Resolved | Rejected` or `Ok | NotOk | Threw`.
- A document that may lack a field, or hold `null` there, has an `Option` in that field.
- Python exceptions on the rating endpoint are `Result` failures.
- JavaScript's `x || y` on a count is written out: `0`, `null` and a missing
  value all fall back.
- Python's true division is `real` division.
- `str.split(":")[0]` and `[1]` are modelled exactly, including the `IndexError`
  when there is no colon.

Behaviour the code has and the model keeps:

- The scraper stores the label `"vegan"` for the vegetarian icon. The card
  looks for `"vegetarian"`, so the vegetarian badge never shows.
- The catalog endpoint serves eight fields and drops `labels`. `JSON.parse`
  of that missing field throws while the card renders, so no served card renders.
- `Star` calls `onRate(event, star)`, but the card passes its one-argument
  `handleRating` as `onRate`. The value handed on as the rating is therefore the
  click event, not the star number. `JSON.stringify` throws on the event while
  the request is built, so the page never sends a rating to the backend.
- The rating endpoint fails at app.py line 51 as written: `request.get_json` is
  not called, so `data.get` raises before anything is read or stored. Were
  `get_json()` called, it would store the rating and then fail all the same,
  because `jsonify` cannot serialise the re-read document's ObjectId `_id`. The
  model describes that second, intended path.
- The scraper's `labels` list is cleared only after a successful insert. A row
  that fails after its image loop (at the nutrition modal) leaves its labels to
  the next new item. A known title or a missing portion leaves before the image
  loop and adds no labels.

## Model

| member | source | states |
|---|---|---|
| FoodList.PatchAt | nudining-frontend/src/FoodList/FoodList.jsx:26-30 | after a rating, each list position holds the returned item exactly when its title equals the returned title, and is unchanged otherwise |
| FoodList.Patch | nudining-frontend/src/FoodList/FoodList.jsx:26-30 | patching keeps the length and every card's title |
| FoodList.PatchNoMatch | nudining-frontend/src/FoodList/FoodList.jsx:27-29 | a returned item whose title is on no card leaves the list unchanged |
| FoodList.PatchIdempotent | nudining-frontend/src/FoodList/FoodList.jsx:27-29 | applying the same returned item twice equals applying it once |
| FoodList.PatchSingleMatch | nudining-frontend/src/FoodList/FoodList.jsx:27-29 | with unique titles, only the card with the returned title changes, and titles stay unique |
| FoodList.FoodListState.constructor | nudining-frontend/src/FoodList/FoodList.jsx:5 | the list starts empty |
| FoodList.FoodListState.FetchUpdatedFoodItems | nudining-frontend/src/FoodList/FoodList.jsx:11-16 | a resolved fetch replaces the list with the served items; a failed one leaves it unchanged |
| FoodList.FoodListState.UpdateRating | nudining-frontend/src/FoodList/FoodList.jsx:18-34 | a numeric rating sends exactly `{title, rating}`, patches the list by title on a resolved response and leaves it unchanged on a failure; an event as the rating sends nothing and leaves the list unchanged, because `JSON.stringify` throws on it |
| FoodCard.Divisor | nudining-frontend/src/FoodCard/FoodCard.jsx:13 | the divisor is never zero: the count when non-zero, and 1 when the count is 0, null or missing |
| FoodCard.AverageRating | nudining-frontend/src/FoodCard/FoodCard.jsx:13 | the average times the count is the rating sum; with no count it is the sum itself |
| FoodCard.AverageWithinStars | nudining-frontend/src/FoodCard/FoodCard.jsx:13 | for totals made of 1-to-5 star submissions, the average is between 0 and 5, and at least 1 once rated |
| FoodCard.Classify | nudining-frontend/src/FoodCard/FoodCard.jsx:21-23 | no badge is set exactly when no label is one of the three badge strings |
| FoodCard.VeganIsNotVegetarian | nudining-frontend/src/FoodCard/FoodCard.jsx:21-23 | the label list `["vegan"]` sets no badge |
| FoodCard.ClassifyMembership | nudining-frontend/src/FoodCard/FoodCard.jsx:21-23 | each badge is set exactly when its string occurs at some position of the labels |
| FoodCard.ClassifyIgnoresUnrelated | nudining-frontend/src/FoodCard/FoodCard.jsx:21-23 | inserting any other label anywhere changes no badge |
| FoodCard.CardFlags | nudining-frontend/src/FoodCard/FoodCard.jsx:18-23 | badges exist exactly when the item has a labels field, and otherwise `JSON.parse` throws and the card does not render; the vegetarian badge is membership of "vegetarian" |
| FoodCard.Card.constructor | nudining-frontend/src/FoodCard/FoodCard.jsx:9 | a card starts collapsed |
| FoodCard.Card.Click | nudining-frontend/src/FoodCard/FoodCard.jsx:32-34 | a click flips the expansion |
| FoodCard.Card.HandleRating | nudining-frontend/src/FoodCard/FoodCard.jsx:15-17 | the card's own title and the single argument are forwarded to the list |
| FoodCard.Card.OnRate | nudining-frontend/src/FoodCard/FoodCard.jsx:46 | when called as the star's `onRate(event, star)`, the forwarded rating is the event and the star number is dropped |
| Star.RenderStars | nudining-frontend/src/Star/Star.jsx:20-30 | five stars numbered 1 to 5; while hovering, exactly the stars up to the hovered one are lit; otherwise the stars up to the current rating |
| Star.LitStarsFormPrefix | nudining-frontend/src/Star/Star.jsx:30 | whenever a star is lit, every star before it is lit as well |
| Star.HoverLightsExactly | nudining-frontend/src/Star/Star.jsx:25-30 | hovering star h lights exactly the first h stars, whatever the current rating |
| Star.StarRating.constructor | nudining-frontend/src/Star/Star.jsx:7-9 | the widget starts with no hover |
| Star.StarRating.Stars | nudining-frontend/src/Star/Star.jsx:16-36 | five stars; with no hover, star i+1 is lit exactly when it does not exceed the current rating |
| Star.StarRating.SetHoverRating | nudining-frontend/src/Star/Star.jsx:12-14 | the hover rating becomes the given value |
| Star.StarRating.MouseEnter | nudining-frontend/src/Star/Star.jsx:25 | entering star k sets the hover to k |
| Star.StarRating.MouseLeave | nudining-frontend/src/Star/Star.jsx:26 | leaving a star clears the hover |
| Star.StarRating.Click | nudining-frontend/src/Star/Star.jsx:27 | a click on star k calls `onRate` with the event first and k second |
| Steast.RemoveAllSpec | nudining-frontend/src/components/Steast.jsx:18 | removing a filter drops every copy of it, keeps every other element with its multiplicity, and keeps their order |
| Steast.RemoveAll | nudining-frontend/src/components/Steast.jsx:18 | the removed filter is absent afterwards, and nothing new appears |
| Steast.Toggle | nudining-frontend/src/components/Steast.jsx:16-20 | the toggled filter is present afterwards exactly when it was absent before, and no other filter appears |
| Steast.RemoveAllAbsent | nudining-frontend/src/components/Steast.jsx:18 | removing an absent filter changes nothing |
| Steast.ToggleMembership | nudining-frontend/src/components/Steast.jsx:16-20 | toggling flips the toggled filter's membership and keeps every other filter's |
| Steast.ToggleAbsentAppends | nudining-frontend/src/components/Steast.jsx:19 | an inactive filter is appended after the active ones |
| Steast.TogglePreservesNoDuplicates | nudining-frontend/src/components/Steast.jsx:16-20 | toggling keeps the active list free of duplicates |
| Steast.ToggleTwice | nudining-frontend/src/components/Steast.jsx:16-20 | toggling an inactive filter twice restores the list |
| Steast.Stations | nudining-frontend/src/components/Steast.jsx:30-89 | "Everyday" shows only the EVERYDAY station; every other period shows the seven named stations; no station is listed twice |
| Steast.SteastState.constructor | nudining-frontend/src/components/Steast.jsx:10-11 | the page starts on Breakfast with no filters |
| Steast.SteastState.ToggleFilter | nudining-frontend/src/components/Steast.jsx:15-21 | the filters are toggled and the meal period is kept |
| Steast.SteastState.HandleNavClick | nudining-frontend/src/components/Steast.jsx:23-25 | the meal period is set and the filters are kept |
| Steast.SteastState.ShownStations | nudining-frontend/src/components/Steast.jsx:30-89 | one station for Everyday, seven otherwise |
| Backend.FindFirst | nudining-backend/app.py:54 | `find_one`: the first document with the title; none exactly when no document has it |
| Backend.FindFirstKeepsTitles | nudining-backend/app.py:59-71 | `find_one` gives the same answer on any collection with the same titles in the same order, so the re-read after the update finds the document that was updated |
| Backend.Rated | nudining-backend/app.py:55-57 | the sum grows by the submitted value, the count by one, and the stored average times the new count is the new sum; other fields are kept; a missing count is an error |
| Backend.RatedKeepsValidTotals | nudining-backend/app.py:55-57 | a 1-to-5 submission keeps the totals that submissions can produce |
| Backend.Stored | nudining-backend/app.py:54-69 | the write replaces only the first document with the title, by its rated version; length and all titles are kept, and unique titles stay unique |
| Backend.RatingsCommute | nudining-backend/app.py:54-69 | ratings of two different titles give the same collection in either order |
| Backend.SameTitleRatingsCommute | nudining-backend/app.py:54-69 | two ratings of the same title give the same outcome in either order, and on success the sum has grown by both |
| Backend.RatedTwice | nudining-backend/app.py:55-57 | rating one document twice gives the same document in either order, its sum grown by both ratings |
| Backend.Project | nudining-backend/app.py:31-41 | a served record is the stored document without labels and stored average |
| Backend.CurrentFoodItemsSound | nudining-backend/app.py:26-43 | every served record is the projection of a stored document whose title is listed today, and carries no labels |
| Backend.CurrentFoodItems | nudining-backend/app.py:26-43 | no more records than stored documents, each titled today and without labels |
| Backend.CurrentFoodItemsComplete | nudining-backend/app.py:26-28 | every stored document whose title is listed today is served |
| Backend.CurrentFoodItemsTitleSet | nudining-backend/app.py:26-28 | the catalog depends only on which titles are listed today, not on their order or repeats |
| Backend.CurrentFoodItemsUnique | nudining-backend/app.py:28 | unique titles in the collection give unique titles in the catalog |
| Backend.Database.constructor | nudining-backend/app.py:19-20 | the two collections |
| Backend.Database.GetCurrentFoodItems | nudining-backend/app.py:22-45 | no more records than stored documents, each titled today and without labels |
| Backend.Database.UpdateRating | nudining-backend/app.py:48-72 | an unknown title or a missing count fails and changes nothing; otherwise the collection becomes `Stored`, and the answer is still an error because `jsonify` cannot serialise the ObjectId `_id` |
| Scraper.LabelsOfAppend | nudining-webscraper/nudiningScraper.py:166-178 | the labels of two consecutive runs of images are the two label lists concatenated |
| Scraper.IconLabel | nudining-webscraper/nudiningScraper.py:169-178 | an icon adds at most one label, and none exactly when its `src` is none of the three URLs |
| Scraper.LabelsOf | nudining-webscraper/nudiningScraper.py:166-178 | the labels a row's images append: at most one per image, always "vegan", "gluten" or "protein" |
| Scraper.IconLabels | nudining-webscraper/nudiningScraper.py:169-178 | the three icon URLs give their labels in order, repeats are kept, and a vegetarian icon on the host without "www." adds nothing |
| Scraper.IndexOf | nudining-webscraper/nudiningScraper.py:211 | the position of the first colon; none exactly when there is no colon |
| Scraper.ParseLine | nudining-webscraper/nudiningScraper.py:210-213 | a parsed name and amount never contain a colon |
| Scraper.ParseLineSpec | nudining-webscraper/nudiningScraper.py:210-213 | a line fails to parse exactly when it has no colon; otherwise the name is everything before the first colon and the amount everything up to the second |
| Scraper.ParseLineRoundTrip | nudining-webscraper/nudiningScraper.py:211-213 | splitting `name:amount`, or `name:amount:rest`, gives back the name and the amount |
| Scraper.NutritionSkipsMalformed | nudining-webscraper/nudiningScraper.py:219-221 | a line without a colon leaves the nutrition dict unchanged |
| Scraper.NutritionLastWins | nudining-webscraper/nudiningScraper.py:217 | the amount kept for a name is the one from the last line with that name |
| Scraper.NutritionKeys | nudining-webscraper/nudiningScraper.py:208-217 | every key of the dict comes from a line that parsed |
| Scraper.Nutrition | nudining-webscraper/nudiningScraper.py:205-221 | no key of the nutrition dict contains a colon |
| Scraper.ParseNutrition | nudining-webscraper/nudiningScraper.py:205-221 | the loop over the list items builds the dict described above |
| Scraper.NewRecord | nudining-webscraper/nudiningScraper.py:229-239 | a new record starts with rating 0 and count 0 |
| Scraper.RowTitles | nudining-webscraper/nudiningScraper.py:145-150 | at most one title per row is recorded for today |
| Scraper.Step | nudining-webscraper/nudiningScraper.py:137-249 | one row records its title, grows the collection by at most one record at its end, only with a new title and then with the labels cleared, and keeps titles unique |
| Scraper.Steps | nudining-webscraper/nudiningScraper.py:137-249 | the rows in order record every title, grow the collection only at its end, and keep titles unique |
| Scraper.ScraperState.constructor | nudining-webscraper/nudiningScraper.py:34 | today's titles start empty, the collection keeps unique titles, and there are no labels |
| Scraper.ScraperState.ProcessRow | nudining-webscraper/nudiningScraper.py:137-249 | the new state is `Step` of the old one; each titled row is recorded for today; a known title or a missing portion inserts nothing and adds no labels; a row failing at the nutrition modal adds its image labels without inserting; a complete new row is inserted with the carried and own labels, which are then cleared |
| Scraper.ScraperState.AppendImageLabels | nudining-webscraper/nudiningScraper.py:164-178 | the loop appends the labels of the row's images, in order |
| Scraper.ScraperState.ProcessTable | nudining-webscraper/nudiningScraper.py:137-249 | the loop over the rows ends in `Steps` of the starting state: every title recorded in row order, the collection grown only at its end, titles unique |
| AuthContext.AuthProvider.constructor | nudining-frontend/src/contexts/authContext/index.jsx:14-16 | no user, not logged in, loading, so the children are not rendered |
| AuthContext.AuthProvider.InitializeUser | nudining-frontend/src/contexts/authContext/index.jsx:23-32 | the user is stored, logged in exactly when there is one, loading ends, and from then on the children are rendered with that user and flag |
| AuthContext.AuthProvider.ChildContext | nudining-frontend/src/contexts/authContext/index.jsx:38-41 | the children get a context exactly when loading has ended, and its login flag always agrees with its user |
| Home.AdoptedReplacesWholesale | nudining-frontend/src/components/Home.jsx:47-48 | a successful response sets the totals independently of the old ones: the served macros, or zeros when absent |
| Home.FailureKeepsMacros | nudining-frontend/src/components/Home.jsx:42-51 | a non-ok or failed request leaves the totals unchanged |
| Home.AdoptedMacros | nudining-frontend/src/components/Home.jsx:47-48 | the totals change only on a confirmed response, and then to the served macros when present |
| Home.HomeState.constructor | nudining-frontend/src/components/Home.jsx:11-14 | zero macros, panel hidden, Steast selected, no tutorial |
| Home.HomeState.FetchUserMacros | nudining-frontend/src/components/Home.jsx:24-52 | without a user, or when `getIdToken` rejects, no request is sent and nothing changes; otherwise a GET is sent and the response is adopted |
| Home.HomeState.HandleResetMacros | nudining-frontend/src/components/Home.jsx:54-83 | the same guards; otherwise a POST carrying the user's uid is sent and the response is adopted |
| Home.HomeState.HandleMacroClick | nudining-frontend/src/components/Home.jsx:85-88 | the panel flips, also when closing, and the totals are fetched under the same guards as `FetchUserMacros` |
| Home.HomeState.HandleJoyrideCallback | nudining-frontend/src/components/Home.jsx:100-107 | only "finished" and "skipped" stop the tutorial |
| Home.HomeState.StartTutorial | nudining-frontend/src/components/Home.jsx:180 | the tutorial runs |
| Home.HomeState.SelectComponent | nudining-frontend/src/components/Home.jsx:187-197 | the chosen dining hall component is selected |
| Login.Redirect | nudining-frontend/src/components/Login.jsx:102-104 | with the flag read from a consistent auth context, a visitor is sent to /home exactly when a user is signed in |
| Login.LoginState.constructor | nudining-frontend/src/components/Login.jsx:12-15 | empty fields, not signing in, no error |
| Login.LoginState.SetEmail | nudining-frontend/src/components/Login.jsx:113 | the typed email is kept |
| Login.LoginState.SetPassword | nudining-frontend/src/components/Login.jsx:117 | the typed password is kept |
| Login.LoginState.SignIn | nudining-frontend/src/components/Login.jsx:20-88 | while signing in, a submit does nothing; otherwise sign-in is attempted; success calls `userStore` with the uid and goes to /home with the flag left set and the error kept; failure shows the message and re-enables the form |
| Login.LoginState.OnSubmit | nudining-frontend/src/components/Login.jsx:56-71 | the outcomes of `SignIn` with the typed email and password, in full |
| Login.LoginState.OnGoogleSignIn | nudining-frontend/src/components/Login.jsx:73-88 | the outcomes of `SignIn` with the Google popup, in full |
| Register.RegisterState.constructor | nudining-frontend/src/components/Register.jsx:9-13 | empty fields, not registering, no error |
| Register.RegisterState.SetEmail | nudining-frontend/src/components/Register.jsx:48 | the typed email is kept |
| Register.RegisterState.SetPassword | nudining-frontend/src/components/Register.jsx:52 | the typed password is kept |
| Register.RegisterState.SetConfirmPassword | nudining-frontend/src/components/Register.jsx:56 | the typed confirmation is kept |
| Register.RegisterState.OnSubmit | nudining-frontend/src/components/Register.jsx:15-30 | mismatched passwords show "Passwords do not match" and send nothing, even while registering; otherwise the account is created once, and a failure shows its message and re-enables the form |
| Consistency.ScrapedLabelsNeverVegetarian | nudining-webscraper/nudiningScraper.py:173-178 | no label list the scraper stores ever sets the card's vegetarian badge, while the gluten badge follows "gluten" |
| Consistency.CatalogCardsHaveNoLabels | nudining-backend/app.py:31-41 | every served record lacks `labels`, so rendering its card throws |
| Consistency.RatedAverageAgrees | nudining-backend/app.py:55-65 | after a star submission, the stored average equals the card's average and lies between 1 and 5 |
| Consistency.RateFromStar | nudining-frontend/src/Star/Star.jsx:27 | a click on any star of a card hands the click event on as the rating, so no request is sent and the list stays unchanged |

## Left out

- Browser driving (Selenium waits, clicks, dropdowns and the nav-link search) is
  left out. The scraper's per-row logic takes a `Row` value: an optional title,
  an optional portion, the image sources, and optional nutrition lines. An
  absent value stands for the element lookup that raised.
- The scraper's outer loops over dining halls, meal periods and tables are left
  out. So is the reuse of `tables` after a failed period lookup. Only the row
  loop of one table is modelled.
- `strip()` of texts is not modelled. Titles, portions and nutrition lines are
  taken as already stripped.
- `json.dumps`, `JSON.parse` and `jsonify` are left out. Maps and label lists are
  kept as values, and a missing `labels` field is `None`.
- MongoDB and HTTP transport are parameters or sequences. A collection is a
  sequence in natural order, and a failing `insert_one` is not modelled.
- Backend.Database.UpdateRating: `request.get_json` is used without being called,
  so `data.get` raises before anything is read. The model describes the endpoint
  as its body is meant to work on a title and an integer rating; a non-numeric
  rating is not modelled.
- The MongoDB `_id` field is left out of `FoodItem`; it appears only as the
  reason the rating endpoint's `jsonify` fails. `Project` models the catalog
  projection by setting `labels` and `averageRating` to `None`.
- FoodCard.AverageRating: `toFixed(1)` rounding and the string it yields are not
  modelled. The source compares the star number with that string coerced to a
  number (FoodCard.jsx line 13, Star.jsx line 30); in the model, the widget
  compares it with the unrounded average.
- The refetch after a rating (`fetchUpdatedFoodItems` at the end of `updateRating`)
  is not modelled as a second state change. Its effect is `FetchUpdatedFoodItems`.
- The Firebase wrappers and sign-out are not part of this model: `doSignOut`,
  `handleSignOut`, `handleLogout`, and `forgetPassword` with its reset-email UI.
  The signed-in user is a parameter. The outcome of `userStore`'s request is not
  a parameter: it is caught and logged and nothing on the page reads it. Whether
  `userStore` posts at all (it first awaits its own `getIdToken`) is not
  modelled; `SignIn` records the call with the uid.
- Login.LoginState.SignIn: `getAuth().currentUser` right after sign-in is taken to
  be the user who signed in. A null user there would raise on `user.uid` and land
  in the catch block, and `userStore`'s unauthenticated branch (Login.jsx lines
  41-43) is then never reached; those paths are not modelled.
- Presentation is left out: GSAP animations, Joyride steps, Tailwind classes, the
  Navbar, the MacroTable, and the IV page's components.
- Logging of servings to the macro totals is left out, because no
  code for it exists in these files.
