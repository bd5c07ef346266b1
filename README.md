# Dream Journal — a Dafny model of its core

Dream Journal is a personal dream diary. Its Express/MongoDB server keeps each user's dreams and accounts, and its React client signs users in and shows, creates and summarises dreams. This project models the parts of both that carry logic and proves what they promise:

- **The dream schema** (`DreamSchema`). It covers the field rules of a stored dream:
  - an owner is required;
  - the title is trimmed, then required and at most 100 characters;
  - the content is required and at most 5000 characters, and is not trimmed;
  - the mood must be one of six names;
  - there are at most 10 tags.

  It also covers the defaults filled in for absent fields, and the report of every broken rule in path order.
- **The dream handlers** (`DreamController`). `DreamStore` is a class holding the dream collection and a fresh-id counter. Its methods are list, get, create, update, delete and toggle-favourite, each scoped to the authenticated caller. The update's allow-list loop is the method `CollectUpdates`.
- **The route guard** (`AuthGuard`). It covers token extraction from the `Authorization: Bearer` header, or else from the `token` cookie. It also covers the `protect` decision, which mutates the request object.
- **The account handlers** (`AuthController`). `UserRegistry` is a class holding the users. Its methods are register, login and getMe. Password hashing, password comparison, the user document's own rules and token signing are function parameters.
- **Client state machines**:
  - the `auth` and `dreams` store slices (`AuthSlice`, `DreamsSlice`);
  - the `AuthProvider` context (`AuthContext`).

  These are classes whose methods are the reducers and transitions. Local storage's `token` entry is a shared `TokenStorage` object (`ClientTypes`).
- **Client decisions and helpers**:
  - the two route guards and the route table (`AppRoutes`);
  - the dashboard figures, including the most-common-mood loop (`Dashboard`);
  - the dream card's preview and emoji table (`DreamCard`);
  - the new-dream form, with its comma-separated tags (`NewDreamPage`);
  - the registration form's password checks (`RegisterPage`).

`Text` holds the JavaScript string built-ins the code relies on: `trim` over the ECMAScript white-space set, `split` with a one-character separator, `join` and `startsWith`. `Wrappers` holds `Option` and `Result`.

The clock, the database, cryptography and the network are all inputs:
- `now` is a parameter;
- ids come from a counter;
- `hash`, `matches`, `sign` and `verify` are function parameters;
- every request's outcome is an argument of the transition it drives (`Fetch`, `Settled`, the reducer actions).

## Model

| member | source | states |
|---|---|---|
| Text.Trim | server/src/models/Draem.ts:28 | `trim` leaves no white space at either end and never lengthens. The result is empty exactly when the input is all white space. It contains only characters of the input. Where the result sits in the input is stated by `TrimIsMiddle`. |
| Text.TrimIsMiddle | server/src/models/Draem.ts:28 | The trimmed value is one contiguous stretch of the input, with only white space before it and after it. Together with `Trim`'s own guarantees, this fixes the result as exactly what `trim` returns. |
| Text.TrimIdempotent | server/src/models/Draem.ts:28 | Trimming an already trimmed value changes nothing. |
| Text.Split | server/src/middleware/auth.ts:17 | `split` with one separator gives one piece more than there are separators. No piece contains the separator, and joining the pieces with it gives back the input. |
| DreamSchema.ParseMood | server/src/models/Draem.ts:40-44 | A string is accepted as a mood exactly when it is one of the six names, and it then parses to the mood of that name. |
| DreamSchema.Build | server/src/models/Draem.ts:17-65 | A dream is saved exactly when no rule is broken; otherwise every violation is reported. A saved dream conforms to the rules, with its title trimmed and content as given. Absent fields default to date now, mood neutral, no tags, not lucid and not favourite. |
| DreamSchema.InReport | server/src/models/Draem.ts:19-52 | A violation is in the report exactly when one of the five path checks (user, title, content, mood, tags) produced it. |
| DreamSchema.TitleMissingWhenBlank | server/src/models/Draem.ts:27-28 | "Title is required" is reported exactly when the title is absent or only white space, because the trim runs before the check. |
| DreamSchema.ValidateReportsEach | server/src/models/Draem.ts:19-52 | Each broken rule contributes its own entry, and only broken rules do. The rules are: owner missing; title blank; trimmed title over 100; content missing or empty; content over 5000; more than 10 tags; mood outside the six. |
| DreamSchema.TitleLengthBoundary | server/src/models/Draem.ts:28-29 | A trimmed title of exactly 100 characters passes and one of 101 fails with "Title cannot exceed 100 characters". |
| DreamSchema.ContentNotTrimmed | server/src/models/Draem.ts:31-35 | Content made only of white space is accepted, and its spaces count toward the 5000 limit. |
| DreamController.Owned | server/src/controllers/dreamController.ts:10 | The query result holds exactly the dreams of the given owner, and no more than the collection. |
| DreamController.SortNewestFirst | server/src/controllers/dreamController.ts:11 | The sort by date descending is a permutation whose dates never increase. |
| DreamController.FindOwned | server/src/controllers/dreamController.ts:32-35 | The `findOne({_id, user})` query finds a dream with that id and that owner, and finds nothing exactly when no such dream exists. |
| DreamController.LookupThroughOwned | server/src/controllers/dreamController.ts:32-35 | Looking up by id and owner is the same as looking up by id among the owner's dreams alone. |
| DreamController.LookupSeesOnlyOwn | server/src/controllers/dreamController.ts:32-43 | A lookup's answer depends only on the caller's own dreams, so another user's dream and a missing id give the same answer. |
| DreamController.ForeignDreamNotFound | server/src/controllers/dreamController.ts:37-43 | An id held only by other users' dreams is not found. |
| DreamController.CreateAppliesDefaults | server/src/controllers/dreamController.ts:74-82 | A created dream belongs to the caller and is not a favourite. It takes mood neutral when mood is missing or empty, no tags, not lucid and date now when those are omitted. Its title is the trimmed title. |
| DreamController.CollectUpdates | server/src/controllers/dreamController.ts:127-134 | The loop copies exactly the allow-listed keys present in the body, with their values, and nothing else. |
| DreamController.ApplyUpdates | server/src/controllers/dreamController.ts:136-140 | Only the fields present in the update change; id and owner never do. The update validators check only the fields being set. An accepted update keeps the dream within the rules, and a refused one reports at least one violation. |
| DreamController.UpdateAccepted | server/src/controllers/dreamController.ts:136-140 | A well-typed update is accepted exactly when every field that was sent meets its rule: the trimmed title is non-blank and at most 100 characters, the content is non-empty and at most 5000, the mood is one of the six, and there are at most 10 tags. Fields that were not sent are not checked. |
| DreamController.InUpdateReport | server/src/models/Draem.ts:25-52 | A violation is among those reported for an update exactly when the check of a field that was sent produced it. |
| DreamController.UpdateReportsEach | server/src/models/Draem.ts:25-52 | Each rule that a sent field breaks contributes its own entry to the refusal, and no other entry appears. An absent field is never reported, and neither is the owner. |
| DreamController.FlipFavorite | server/src/controllers/dreamController.ts:218 | Only the favourite flag changes, and it is negated. |
| DreamController.FlipFavoriteTwice | server/src/controllers/dreamController.ts:218 | Negating the favourite flag twice restores the dream. |
| DreamController.DreamStore.GetDreams | server/src/controllers/dreamController.ts:8-17 | The listing holds exactly the caller's dreams, as a permutation of them, newest first, with `count` equal to their number. |
| DreamController.DreamStore.GetDream | server/src/controllers/dreamController.ts:30-48 | The answer is the caller's dream with that id, or 404 "Dream not found" when the caller has none. |
| DreamController.DreamStore.CreateDream | server/src/controllers/dreamController.ts:61-98 | A missing or empty title or content gives 400 and changes nothing. A schema violation gives 400 with all messages joined by ", " and changes nothing. Otherwise exactly one dream of the caller is appended, and the store's invariant is kept. |
| DreamController.DreamStore.UpdateDream | server/src/controllers/dreamController.ts:111-158 | A dream the caller does not own gives 404 and changes nothing. Otherwise only that dream changes, by the allow-listed fields of the body. A violation gives 400 and a cast failure gives 500, both with the store unchanged. The 400 case is decided by `ApplyUpdates`, and `UpdateAccepted` and `UpdateReportsEach` say exactly which bodies reach it and with which messages. |
| DreamController.DreamStore.DeleteDream | server/src/controllers/dreamController.ts:169-190 | A dream the caller does not own gives 404 and changes nothing. Otherwise exactly that dream is removed, and every other dream remains in order. |
| DreamController.DreamStore.ToggleFavorite | server/src/controllers/dreamController.ts:203-225 | A dream the caller does not own gives 404 and changes nothing. Otherwise only that dream's favourite flag is negated. The message is "Added to favorites" exactly when the flag is now set. |
| DreamController.ToggleTwice | server/src/controllers/dreamController.ts:218-219 | Toggling the same dream twice leaves the collection as it was. |
| AuthGuard.ExtractToken | server/src/middleware/auth.ts:15-23 | The token taken is never empty: an empty header segment or an empty cookie counts as no token. |
| AuthGuard.HeaderWins | server/src/middleware/auth.ts:21 | A non-empty header token is used whatever the cookie holds. |
| AuthGuard.SecondSegment | server/src/middleware/auth.ts:15-18 | The token is the segment right after "Bearer ". With a double space that segment is empty, and the cookie decides. |
| AuthGuard.EmptyBearer | server/src/middleware/auth.ts:17-21 | "Bearer " with nothing after it yields an empty segment, so the cookie decides. |
| AuthGuard.BearerRoundTrip | server/src/middleware/auth.ts:16-17 | The header the client builds, "Bearer " + t with t non-empty and free of spaces, yields t, whatever the cookie. |
| AuthGuard.CookieFallback | server/src/middleware/auth.ts:21-23 | Without a usable header token, the non-empty cookie is the token, and otherwise there is none. |
| AuthGuard.Protect | server/src/middleware/auth.ts:6-50 | No token gives 401 "Not authorized - no token provided". A token that fails verification gives 401 "Not authorized - invalid token". In both cases the request's user is left as it was. Otherwise the request's user becomes the decoded identity and the request is passed on. |
| AuthController.Public | server/src/controllers/authController.ts:53-57 | The user view carries id, email and name, and has no password field. |
| AuthController.FindByEmail | server/src/controllers/authController.ts:26 | The lookup finds a user with exactly that email, and finds none exactly when no user has it. |
| AuthController.FindById | server/src/controllers/authController.ts:150 | The lookup finds a user with that id, and finds none exactly when no user has it. |
| AuthController.UserRegistry.Register | server/src/controllers/authController.ts:10-78 | A missing or empty field gives 400, and a taken email gives 400 "User with this email already exists". A user-document rule failure gives 400 with the messages joined. In all three cases the store is unchanged. Otherwise exactly one user is added, with the hashed password, and the answer is 201 with a token for its id and email and the public view. If signing fails the user stays stored and the answer is 500. Emails stay unique. |
| AuthController.UserRegistry.Login | server/src/controllers/authController.ts:83-143 | A missing or empty field gives 400. An unknown email and a wrong password both give the same 401 "Invalid credentials". Otherwise the answer is 200 with a token for the stored user's id and email and its public view. Nothing is modified. |
| AuthController.UserRegistry.GetMe | server/src/controllers/authController.ts:148-176 | An absent or unknown id gives 404 "User not found"; otherwise the answer is the stored user's public view. |
| AuthController.RegisterTwice | server/src/controllers/authController.ts:26-40 | Registering the same email twice: the first call stores the user, the second is refused as taken, and the collection grows by exactly one. |
| AuthController.RegisterThenLogin | server/src/controllers/authController.ts:36-135 | A newly registered user can log in with the same password, and gets the same view and token, given a hash the comparison accepts and a working signer. |
| AuthSlice.RejectionError | client/src/redux/slices/authSlice.ts:97-101 | The recorded error is the payload if non-empty, else the error message if non-empty, else the default. It is never empty. |
| AuthSlice.AuthState.constructor | client/src/redux/slices/authSlice.ts:13-18 | The initial state has no user, the stored token, is not loading and has no error. |
| AuthSlice.AuthState.Reduce | client/src/redux/slices/authSlice.ts:75-139 | Logout clears user, token and stored token and keeps loading and error. Pending sets loading and clears the error. Fulfilled takes token and user from the payload and stores the token. Rejected ends loading and sets the error, keeping token and user. getMe pending keeps the error, getMe fulfilled sets the user, and getMe rejected drops token and stored token but keeps the user. Every action keeps the state's token equal to the stored one. |
| AuthSlice.SignInThenLogout | client/src/redux/slices/authSlice.ts:75-96 | A successful sign-in followed by logout leaves no user and no token in the state or in storage, and no error. |
| DreamsSlice.NormalizeDreams | client/src/redux/slices/dreamsSlice.ts:22-23 | The result is the `data` array when present, else the response itself when it is an array, else []. A null response makes the thunk fail. |
| DreamsSlice.ListRoundTrip | client/src/redux/slices/dreamsSlice.ts:22-23 | The server's list, in its envelope or bare, comes through unchanged. An envelope without an array gives []. |
| DreamsSlice.RejectionError | client/src/redux/slices/dreamsSlice.ts:58-61 | The recorded error is the message if non-empty, else the default. It is never empty. |
| DreamsSlice.DreamsState.constructor | client/src/redux/slices/dreamsSlice.ts:11-15 | The initial state has no dreams, is not loading and has no error. |
| DreamsSlice.DreamsState.Reduce | client/src/redux/slices/dreamsSlice.ts:50-76 | Pending sets loading, clears the error and keeps the list. Fetch fulfilled replaces the list. Create fulfilled puts the new dream first, keeping the rest in order. Rejected ends loading, sets the message or a default, and keeps the list. |
| DreamsSlice.CreatePayloadAsWritten | client/src/redux/slices/dreamsSlice.ts:37-38 | The create thunk hands on the whole response body, so an object response stays an object, never a dream. |
| DreamsSlice.EnvelopeTakenForDream | client/src/redux/slices/dreamsSlice.ts:37-38 | For the server's creation reply, the thunk as written returns the envelope and not the dream it carries. |
| DreamsSlice.CreatePayload | client/src/redux/slices/dreamsSlice.ts:22 | With the fetch thunk's unwrapping, the payload is a dream d exactly when the response is d or an envelope whose data is d. |
| DreamsSlice.CreatedReplyUnwrapped | server/src/controllers/dreamController.ts:84-88 | The server's creation reply unwraps to exactly the dream it carries. |
| DreamsSlice.FetchThenCreate | client/src/redux/slices/dreamsSlice.ts:54-72 | A fetch then a creation leaves the normalised list with the new dream, unwrapped from the server's reply, in front, and no error. |
| AuthContext.AuthProvider.constructor | client/src/context/AuthContext.tsx:16-18 | The initial state has no user, the stored token, and is loading. |
| AuthContext.AuthProvider.CheckAuth | client/src/context/AuthContext.tsx:22-36 | With a token, a successful answer with data sets the user, and a failing request clears the token and the stored token. Without a token nothing changes. Loading ends in every case, and token and storage stay equal. |
| AuthContext.AuthProvider.SignIn | client/src/context/AuthContext.tsx:42-67 | Login and register change state only on an answer with `success` and `data`. Stored token, token and user then all come from it. |
| AuthContext.AuthProvider.Logout | client/src/context/AuthContext.tsx:70-74 | The stored token, the token and the user are cleared. |
| AuthContext.StaleTokenAtStartup | client/src/context/AuthContext.tsx:16-36 | Starting with a stored token that the server rejects ends signed out, with storage empty and loading over. |
| AppRoutes.ProtectedRoute | client/src/App.tsx:11-27 | It shows the spinner while loading, whatever the token. Once loaded it redirects to /login without a token and renders the page in the layout with one. |
| AppRoutes.PublicRoute | client/src/App.tsx:30-46 | It shows the spinner while loading. Once loaded it redirects to /dashboard with a token and renders the bare page without one. |
| AppRoutes.Route | client/src/App.tsx:49-85 | A path is matched ignoring the case of its letters and any trailing slashes, as the router does by default. Every path that matches none of /login, /register and /dashboard, including "/", redirects to /dashboard. A rendered page is inside the layout exactly when there is a token. |
| AppRoutes.TrailingSlashIgnored | client/src/App.tsx:53-82 | Adding a trailing slash to a path does not change what it shows. |
| AppRoutes.CaseIgnored | client/src/App.tsx:53-82 | Lower-casing a path does not change what it shows, so "/Register" shows what "/register" shows. |
| AppRoutes.ExactlyOneGuardRenders | client/src/App.tsx:22-45 | Once loading is over, for any token and any two pages, exactly one of the two guards renders its page. |
| AppRoutes.RedirectsSettle | client/src/App.tsx:49-85 | Once loading is over, at most two redirects from any path reach a page. With a token that page is the dashboard; without one it is the register page when the path matches /register (in any letter case, with any trailing slashes), and the login page otherwise. |
| Dashboard.CountWhere | client/src/pages/DashboardPage/DashboardPage.tsx:35-36 | A filtered count is at most the total. It is zero exactly when no dream qualifies and the total exactly when all do. |
| Dashboard.CountWhereAppend | client/src/pages/DashboardPage/DashboardPage.tsx:35-36 | Counts add up over concatenated lists. |
| Dashboard.DreamStats | client/src/pages/DashboardPage/DashboardPage.tsx:34-36 | The total is the list length. The lucid and favourite counts are the numbers of dreams with that flag, each at most the total. |
| Dashboard.RecentDreams | client/src/pages/DashboardPage/DashboardPage.tsx:62 | The recent list is the first min(5, n) dreams, in order. |
| Dashboard.FirstsMembers | client/src/pages/DashboardPage/DashboardPage.tsx:42-45 | The dictionary's keys are each occurring mood, once, and nothing else. A mood has a count exactly when it is a key. |
| Dashboard.FirstsInAppearanceOrder | client/src/pages/DashboardPage/DashboardPage.tsx:42-47 | Keys are in order of first appearance: before any occurrence of a later key, an earlier key has occurred. |
| Dashboard.EmojiOrNeutral | client/src/pages/DashboardPage/DashboardPage.tsx:49-58 | A mood in the table shows its emoji; any other shows '😐'. |
| Dashboard.TallyMoods | client/src/pages/DashboardPage/DashboardPage.tsx:42-45 | The loop builds the keys in first-insertion order, with each key's count equal to the number of dreams with that mood. |
| Dashboard.MostCommonMood | client/src/pages/DashboardPage/DashboardPage.tsx:39-59 | No dreams give '😐'. Otherwise the emoji is that of a mood with maximal count such that every mood listed before it is strictly less common. |
| Dashboard.PickIsUnique | client/src/pages/DashboardPage/DashboardPage.tsx:47 | Only one mood meets that choice, so the shown emoji is determined by the list. |
| Dashboard.PickIsMostCommonSeenFirst | client/src/pages/DashboardPage/DashboardPage.tsx:42-47 | The chosen mood occurs, no mood is more common, and ties go to the mood seen first in list order. |
| DreamCard.MoodEmojisDistinct | client/src/components/DreamCard/DreamCard.tsx:21-28 | The table has entries for exactly the six moods, and no two moods share an emoji. |
| DreamCard.StoredMoodHasEmoji | client/src/components/DreamCard/DreamCard.tsx:21-28 | Every mood the server can store has an emoji. |
| DreamCard.TruncateContent | client/src/components/DreamCard/DreamCard.tsx:31-35 | Empty content stays empty, and content within the limit is unchanged. Longer content becomes its first `maxLength` characters plus "...", of length `maxLength` + 3. |
| DreamCard.TruncateIsPrefix | client/src/components/DreamCard/DreamCard.tsx:31-35 | A preview is at most three characters over the limit, and what it shows of the content is a prefix of it. |
| DreamCard.TruncateIdempotent | client/src/components/DreamCard/DreamCard.tsx:31-35 | Cutting a preview again changes nothing. |
| DreamCard.Card | client/src/components/DreamCard/DreamCard.tsx:40-50 | The card previews content at the default limit of 100. It shows a mood emoji exactly for the six names, the star exactly for favourites and the lucid badge exactly for lucid dreams. |
| NewDreamPage.ParseTags | client/src/pages/NewDreamPage/NewDreamPage.tsx:36 | An empty input gives []. Otherwise k commas give k + 1 tags, empty ones included, each trimmed and comma-free. |
| NewDreamPage.ParseTagsRoundTrip | client/src/pages/NewDreamPage/NewDreamPage.tsx:36 | Trimmed, comma-free tags typed as "a, b, c" parse back to the same tags. |
| NewDreamPage.NewDreamForm.constructor | client/src/pages/NewDreamPage/NewDreamPage.tsx:8-14 | The form starts empty, with mood neutral, not lucid and not loading. |
| NewDreamPage.NewDreamForm.HandleSubmit | client/src/pages/NewDreamPage/NewDreamPage.tsx:19-44 | The error is cleared first. A blank title or content sets the error and sends nothing. Otherwise the form sends the trimmed, non-empty title and content, the mood, the lucid flag and the parsed tags. Success navigates to the dashboard and failure sets an error. Loading ends after every attempt. |
| RegisterPage.PasswordProblem | client/src/pages/RegisterPage/RegisterPage.tsx:25-33 | A mismatch is reported first, then a password under 6 characters; exactly 6 passes. The checks pass exactly when the password matches and has at least 6 characters. |
| RegisterPage.DisplayedError | client/src/pages/RegisterPage/RegisterPage.tsx:19 | The page's own error is shown when non-empty, and the store's error otherwise. |
| RegisterPage.LocalProblemShown | client/src/pages/RegisterPage/RegisterPage.tsx:19-33 | A failed local check is what the page shows, whatever error the store holds. |
| RegisterPage.RegisterForm.constructor | client/src/pages/RegisterPage/RegisterPage.tsx:9-13 | The form starts with every field and the page's own error empty. |
| RegisterPage.RegisterForm.HandleSubmit | client/src/pages/RegisterPage/RegisterPage.tsx:21-41 | The error is cleared first. A failed password check shows its message and sends nothing. Otherwise name, email and password are sent. Success navigates to the dashboard, and a rejection shows its reason or a default. |

## Findings

| source | as written | input that shows it | evidently intended | confidence | as-written member | corrected member |
|---|---|---|---|---|---|---|
| client/src/redux/slices/dreamsSlice.ts:37-38 | The create thunk returns the whole response body as the new dream, and `createDream.fulfilled` puts it at the front of the list. | A successful creation: the server answers `{success, message, data: dream}` (server/src/controllers/dreamController.ts:84-88), so the list's first entry is that envelope, which has no title or content. | Return the response's `data`, unwrapped the way `fetchDreams` does. | high (not executed) | DreamsSlice.CreatePayloadAsWritten, DreamsSlice.EnvelopeTakenForDream | DreamsSlice.CreatePayload, DreamsSlice.CreatedReplyUnwrapped, DreamsSlice.FetchThenCreate |

## Left out

- Lengths:
  - JavaScript `length` counts UTF-16 code units; the model counts code points.
  - This affects the 100 and 5000 character limits, the 6-character password minimum and the preview cut for text outside the Basic Multilingual Plane.
- Database errors: the 500 answers that only a database failure can cause are not modelled. This covers fetch, create, delete and toggle, and login, register and getMe for reasons other than signing. Ids are numbers, so a malformed id string, which the database rejects with a cast error, does not arise.
- Update bodies:
  - A value of the wrong JSON type is treated as a cast failure (500), whereas the database driver converts some such values (a number into a string, for instance).
  - JSON `null` values in an update body are not modelled.
  - Create bodies are taken with each field at its declared type, and a present `date` is taken to be truthy.
- AuthController.UserRegistry.Register: takes email, password and name as strings or absent. A non-string JSON value is not modelled. The server accepts one, and an object such as `{"$ne": null}` in `email` would become a query operator in the duplicate check.
- AuthController.UserRegistry.Login: takes email and password as strings or absent. A non-string JSON value is not modelled. An object such as `{"$ne": null}` in `email` would become a query operator and find some stored user rather than the user with that email.
- AppRoutes.Route: percent-encoded paths are not decoded before matching. Case is ignored for ASCII letters only, while the router's case-insensitive match also folds other letters.
- Dates: they are integers (milliseconds); date parsing and `formatDate`'s locale formatting are left out.
- Automatic fields: the `createdAt`/`updatedAt` timestamps, `getMe`'s `createdAt`, and the text index on title, content and tags are not modelled.
- Tokens: signing and verification are abstract. The 7-day expiry and the token format are not modelled; a missing signing secret is a signer that returns `None`.
- The user document model is not part of this model. Its password hashing, `comparePassword` and its own field rules are parameters of `Register` and `Login`.
- AuthController.FindByEmail: matches emails exactly. Any lowercasing or trimming the user document model applies to emails is not modelled.
- The thunks' requests are inputs to the reducers. The register thunk can reject with the error object itself rather than a string; the rejection payload is modelled as an optional string.
- `useEffect` scheduling:
  - Clearing the token in `checkAuth` re-runs the effect; each `CheckAuth` call is one run.
  - The dashboard's own loading of the list is not modelled; the figures take the list as an argument.
- DreamController.DreamStore.GetDreams: promises a newest-first arrangement of the caller's dreams, not which of several equally dated dreams comes first. The database's order among equal dates is not specified.
- Dashboard.MostCommonMood:
  - It finds the first key with the highest count directly. This is the entry a stable sort by descending count puts first.
  - The ordering JavaScript gives integer-like object keys is not modelled; mood names are never integer-like.
- Not modelled at all:
  - rendering, and the login page, sidebar, layout and confirmation modal;
  - the Express, CORS and route-table wiring;
  - concurrency between requests.
