# Academic dashboard: record store, auth gate, routes and client session

This project models the core of a small Next.js dashboard that a faculty member
uses to manage the content of a personal site (testimonials, experience,
gallery, learning resources, PhD guidance, research grants and more), and
proves properties of that model in Dafny.

The model covers:

- **The generic record store** (`Database`, over `Json` values and `ObjectIds`).
  A `DatabaseService` class holds one collection as a map from key to record,
  together with an integer clock in milliseconds, a counter for fresh
  identifiers and a flag for whether the database can be reached. Its methods
  are `create`, `findAll`, `findOne`, `findById`, `update` and `delete`, plus
  the `deleteById` stub. `findAll` is proved to return every document,
  newest first. `create` sets both stamps over anything the caller sends;
  `update` sets only `updatedAt`, and a partial may overwrite `createdAt`. `update` merges its partial with no upsert. `delete` reports
  whether a document was removed. `new ObjectId(x)` is a function that turns a
  JavaScript value into an identifier, into a fresh identifier that matches
  nothing, or into an error.
- **The auth endpoints** (`AuthRoutes`, over `Http`). Login is a pure function
  of the environment, the request body, the clock and the signing library.
  The Set-Cookie headers of login and logout are proved to read back, under
  the cookie parsing of section 5.2 of RFC 6265, as the `dashboard_auth`
  cookie with its attributes. They are also proved to set the cookie (login)
  and to remove it (logout).
- **The route handlers** of the testimonials, experience, gallery,
  learning-resources and PhD-guide files (`ResourceRoutes`):
  - the session-cookie gate, which checks that the cookie is present and
    nothing more;
  - the 404 mapping of learning resources;
  - the PhD-guide DELETE, which always fails;
  - the 405 answer for a method a file does not export.
- **The client session** (`Client`, `Dashboard`, `LoginPage`):
  - the login form writes the `loginInfo` record;
  - the dashboard expires that record after strictly more than one hour;
  - logout removes the record;
  - the section id selects one of the eleven management panels.
- **Form helpers** (`Forms`, `ExperienceForm`, `GrantsForm`):
  - the experience date-range text and the year tables;
  - the submit guards and save requests;
  - `handleEdit` and `resetForm`;
  - the `parseInt || 0` fallback of the grant amount.

Time is integer milliseconds throughout. JavaScript numbers are unbounded
integers.

### Where the code does something a reader might not expect

The model follows the code in each case below.

- `update` `$set`s the whole partial, so a partial carrying `createdAt`
  overwrites the creation stamp. The learning-resources PUT forwards the whole
  request body as the partial. `update` therefore keeps
  `createdAt <= updatedAt` only when the partial has no `createdAt`
  (`Database.DatabaseService.Update`).
- `create` spreads the caller's body into the inserted document, so the store
  does not always choose the identifier. A body with a non-null `_id` is stored
  under that `_id`; one whose `_id` is already stored makes `create` fail, and
  one whose `_id` is an array is refused by the server. A null `_id` is filled
  in by the driver like a missing one (`Database.KeyFor`,
  `Database.DatabaseService.Create`).
- The login route has no password hashing. It compares the submitted pair with
  the configured one by plain string equality. Unset variables fall back to
  `admin` / `admin123` (`AuthRoutes.LoginPost`).

## Model

| member | source | states |
|---|---|---|
| Database.CollectionNamesDistinct | lib/database.ts:73-84 | each of the twelve service instances works on its own collection name |
| Database.Stamped | lib/database.ts:21-28 | the stored fields are the caller's fields with `createdAt` and `updatedAt` both set to now, overriding any the caller sent; `_id` is kept apart from the fields |
| Database.KeyFor | lib/database.ts:24-30 | the inserted document's `_id` is the body's own exactly when the body carries a non-null one, otherwise the next generated one |
| Database.Merged | lib/database.ts:49-60 | after `$set`, every key of the partial has the partial's value, every other field is kept, nothing else appears, and `updatedAt` is now even for an empty partial |
| Database.Target | lib/database.ts:44-46 | the filter `{ _id: new ObjectId(id) }` names a stored key exactly when the id is a well-formed ObjectId, and then the generated key of that number (`FindById`, `Update` and `Delete` are stated through it) |
| Database.HasUsername | lib/database.ts:39-42 | the filter `{ username }`: the field equals the name or is an array holding it (`FindOne` returns a document satisfying it, and null exactly when none does) |
| Database.NotOlder | lib/database.ts:36 | `sort({ createdAt: -1 })` between two documents: a later date first, undated ones last (total by `NotOlderTotal`, transitive by `NotOlderTransitive`) |
| Database.NewestFirst | lib/database.ts:36 | a listing in which every document is not older than any after it (kept by `InsertByAge`, ensured by `FindAll`, read off by `NewerComesFirst`) |
| Database.InsertByAge | lib/database.ts:36 | inserting a document into a newest-first listing keeps it newest-first and adds exactly that document |
| Database.NotOlderTotal | lib/database.ts:36 | the descending `createdAt` order relates any two documents |
| Database.NotOlderTransitive | lib/database.ts:36 | the descending `createdAt` order is transitive |
| Database.NewerComesFirst | lib/database.ts:36 | in a `findAll` listing, a document created later comes before one created earlier |
| Database.ListingAdd | lib/database.ts:34-37 | adding a document under a fresh key adds exactly that document to the collection's listing |
| Database.DatabaseService.constructor | lib/database.ts:11-13 | a new service is over the named collection, which starts empty |
| Database.DatabaseService.Advance | lib/database.ts:23 | the time `new Date()` reads moves forward; the documents are unchanged and the store's bookkeeping still holds |
| Database.DatabaseService.SetOnline | lib/database.ts:15-19 | whether `getCollection` can reach the database; only that flag changes |
| Database.DatabaseService.Create | lib/database.ts:21-32 | offline: an error and nothing stored. An array `_id`: an error and nothing stored. A supplied `_id` already stored: an error and nothing stored. Otherwise the document is stored under a fresh key with the stamped fields, the store returns that document with its `_id`, and the creation-before-update ordering of stamps is kept |
| Database.DatabaseService.FindAll | lib/database.ts:34-37 | every stored document exactly once, as a permutation of the collection, newest `createdAt` first; an empty collection gives an empty list |
| Database.DatabaseService.FindOne | lib/database.ts:39-42 | a document is returned exactly when some document's `username` matches, and it is such a document; otherwise null, never an error |
| Database.DatabaseService.FindById | lib/database.ts:44-47 | a malformed id is an error; otherwise the result is the document the id names when it is stored, and null when it is not |
| Database.DatabaseService.Update | lib/database.ts:49-63 | a malformed id is an error. A missing document gives null and nothing is inserted. Otherwise the document becomes the merge of its fields with the partial, stamped now, and that post-update document is returned. Only that document changes |
| Database.DatabaseService.Delete | lib/database.ts:65-69 | the result is true exactly when the named document was stored, and afterwards it is not; a malformed id is an error |
| Database.DatabaseService.DeleteById | lib/database.ts:6-8 | always the "not implemented" error, with nothing changed |
| Database.CreateNullIdTwice | lib/database.ts:21-32 | a body whose `_id` is null is stored under a fresh generated id, and sending it again stores a second document under the next id |
| Database.DeleteTwice | lib/database.ts:65-69 | deleting the same id twice: the second call never reports a removal |
| Database.CreateFresh | lib/database.ts:21-31 | a body without `_id` is stored under the next generated id, and that id's hexadecimal text names it again |
| Database.UpdateLater | lib/database.ts:49-62 | an update some time later merges the partial under the later time |
| Database.CreateThenUpdate | lib/database.ts:21-62 | create then update through the id text: the update finds the new document, and its fields are the merge of the stamped creation fields with the partial at the later time, so `createdAt` is the creation time when the partial has none |
| Database.DeleteThenFind | lib/database.ts:44-69 | deleting a stored document reports true, and a lookup by the same id afterwards finds nothing |
| Database.CreateUpdateDelete | lib/database.ts:21-69 | create, update, delete, then find: the delete reports true, the lookup finds nothing, and the collection ends as it began |
| ObjectIds.FromValue | lib/database.ts:46 | `new ObjectId(x)`: undefined and null name no stored document; a string names an identifier exactly when it is 24 hexadecimal digits |
| ObjectIds.IdTextRoundTrip | lib/database.ts:31 | the hexadecimal text of a generated identifier parses back to that identifier |
| ObjectIds.IdTextInjective | lib/database.ts:31 | distinct identifiers have distinct texts |
| AuthRoutes.EnvOr | app/api/auth/login/route.ts:4-6 | an unset or empty variable takes the fallback; otherwise the variable's value is used |
| AuthRoutes.DefaultCredentials | app/api/auth/login/route.ts:4-5 | with neither variable set, the login succeeds exactly for `admin` / `admin123` |
| AuthRoutes.ClaimsAt | app/api/auth/login/route.ts:13 | the token carries the submitted user id, was issued in the current second, and expires two hours later |
| AuthRoutes.LoginCookie | app/api/auth/login/route.ts:18 | the login `Set-Cookie` text: `dashboard_auth=<token>` and the fixed attributes, `; Secure` in production (its text is `LoginAttributesText`, its reading `LoginCookieParses` and `LoginStoresToken`) |
| AuthRoutes.LoginPost | app/api/auth/login/route.ts:9-25 | 200 exactly when the body's `userId` and `password` equal the configured pair. A 200 carries `{success:true}` and the `dashboard_auth` cookie with the signed token. Every other JSON object gives 401 "Invalid credentials" with no cookie. A body that is no JSON, or is null, crashes the handler |
| AuthRoutes.LoginAttributesText | app/api/auth/login/route.ts:18 | the header's tail is `; HttpOnly; Path=/; Max-Age=7200; SameSite=Lax`, with `; Secure` appended only in production |
| AuthRoutes.LoginCookieParses | app/api/auth/login/route.ts:18 | a browser parses the login header as the cookie `dashboard_auth` holding the token, with exactly those attributes |
| AuthRoutes.LoginCookieMaxAge | app/api/auth/login/route.ts:18 | the effective Max-Age of the login cookie is 7200 seconds, the token's two hours |
| AuthRoutes.LoginStoresToken | app/api/auth/login/route.ts:13-18 | after a login response, the browser's jar holds the token under `dashboard_auth` |
| AuthRoutes.LogoutPost | app/api/auth/logout/route.ts:6-21 | with no cookie, or an empty one, 401 "Unauthorized"; with any other value, unchecked, 200 `{success:true}` and the clearing header. No server state is involved |
| AuthRoutes.ClearingCookie | app/api/auth/logout/route.ts:18 | the logout `Set-Cookie` text `dashboard_auth=; HttpOnly; Path=/; Max-Age=0; SameSite=Lax` (its reading is `ClearingCookieParses`, its effect `LogoutEndsSession`) |
| AuthRoutes.ClearingCookieParses | app/api/auth/logout/route.ts:18 | the clearing header reads back as an empty `dashboard_auth` with `HttpOnly`, `Path=/`, `Max-Age=0`, `SameSite=Lax` and no `Secure` |
| AuthRoutes.LogoutEndsSession | app/api/auth/logout/route.ts:14-20 | whatever the jar held, after the logout response it presents no session |
| ResourceRoutes.PostGate | app/api/testimonials/route.ts:21-25 | a gated POST is refused with 401 exactly when the cookie is missing or empty; the value is never checked |
| ResourceRoutes.ListReply | app/api/testimonials/route.ts:6-17 | the `findAll` result is answered as it is; a failure is 500 with the file's fetch message (stated by `Get`, messages kept apart by `FailureMessagesDistinct`) |
| ResourceRoutes.CreateReply | app/api/testimonials/route.ts:27-36 | the created document is answered as it is; a failure is 500 with the file's create message (stated by `Post`) |
| ResourceRoutes.UpdateReply | app/api/learningresources/route.ts:19-26 | 404 "Not found" exactly when `update` gave null; 200 with the document exactly when it gave one; 500 when it threw |
| ResourceRoutes.DeleteReply | app/api/learningresources/route.ts:44-51 | 404 exactly when `delete` gave false; `{success:true}` exactly when it gave true; 500 when it threw |
| ResourceRoutes.IdProperty | app/api/learningresources/route.ts:19 | reading `id` throws exactly on a null body; only an object carries an `id` |
| ResourceRoutes.Get | app/api/testimonials/route.ts:6-17 | the GET of every one of the five files answers every stored document, newest first, or 500 when the store is unreachable |
| ResourceRoutes.Post | app/api/testimonials/route.ts:19-37 | testimonials, experience and gallery refuse a sessionless POST with 401 and leave the store unchanged. Otherwise the spread body is created, and the response and the new store are those of `create`. A body that is no JSON or an unreachable store gives 500 |
| ResourceRoutes.PutResource | app/api/learningresources/route.ts:15-27 | `update(data.id, data)`: the whole body, its `id` included, is the partial. A missing document gives 404, a thrown error 500, and otherwise the merged document is answered |
| ResourceRoutes.DeleteResource | app/api/learningresources/route.ts:41-52 | `{success:true}` exactly when the named document was stored, and it is then removed; otherwise 404; a malformed id gives 500 |
| ResourceRoutes.DeleteEntry | app/api/phdguide/route.ts:28-42 | always 500 "Failed to delete entry"; no document is ever removed |
| ResourceRoutes.Handle | app/api/phdguide/route.ts:1-42 | a method a file does not export gives 405 with the store unchanged; GET changes nothing; the PhD-guide DELETE always fails |
| ResourceRoutes.PhdGuideHasNoPut | components/phdGuide.tsx:53-60 | the PhD-guide route has no PUT handler although its editor sends PUT; learning resources has one |
| ResourceRoutes.PhdGuidePut | components/phdGuide.tsx:53-60 | the PUT the PhD-guide editor sends is answered 405 by the route, and the collection and its id counter are unchanged |
| ResourceRoutes.UngatedCreate | app/api/learningresources/route.ts:30-38 | learning resources and the PhD guide create without any session; the gated files pass exactly with a session |
| ResourceRoutes.AnyTokenPasses | app/api/experience/route.ts:17-21 | every non-empty cookie value passes the gate |
| ResourceRoutes.FailureMessagesDistinct | app/api/gallery/route.ts:9-27 | every route file reports its fetch and create failures with its own message |
| ResourceRoutes.PutStoresId | app/api/learningresources/route.ts:17-19 | the PUT writes the body's `id` key into the stored document |
| Dashboard.IsLoginExpired | app/page.tsx:111-115 | strictly more than an hour since a readable login time; an unreadable one never expires (pinned by `ExpiryBoundary`, `ExpiryIsFinal` and `NoTimeNeverExpires`) |
| Dashboard.ExpiryBoundary | app/page.tsx:111-115 | exactly one hour after login the record is not expired; one millisecond later it is |
| Dashboard.ExpiryIsFinal | app/page.tsx:111-115 | once expired, a login record stays expired |
| Dashboard.TimeProperty | app/page.tsx:122 | `info.time` is present only on an object that has the field |
| Dashboard.MountDecision | app/page.tsx:116-131 | go to /login exactly when no record, or an empty one, is stored. Expire exactly when the record parses, is truthy, has a truthy `time`, and that time is more than an hour old. Otherwise stay, which covers a parse error |
| Dashboard.MountEffect | app/page.tsx:116-131 | staying changes nothing; going to /login pushes it; expiring removes `loginInfo` and replaces the location with /login |
| Dashboard.NoTimeNeverExpires | app/page.tsx:122 | a readable record without `time` never expires |
| Dashboard.HandleLogout | app/page.tsx:133-143 | once the logout request returns, the jar takes its Set-Cookie, `loginInfo` is removed, and the history ends on /login twice (replace, then push); a failed request changes nothing |
| Dashboard.LogoutEndsSession | app/page.tsx:133-143 | after a logout the browser holds neither a session cookie nor `loginInfo` |
| Dashboard.SectionId | app/page.tsx:36-104 | every panel's id is one of the navigation ids |
| Dashboard.RenderContent | app/page.tsx:147-174 | the panel of the active section, null for any other id (one-to-one by `RenderSectionId` and `RenderOnlyOwnId`, total over the navigation by `NavigationCovered`) |
| Dashboard.RenderSectionId | app/page.tsx:147-174 | every panel is shown for its own id |
| Dashboard.RenderOnlyOwnId | app/page.tsx:147-174 | a panel is shown only for its own id, so the mapping is one-to-one; any other id renders nothing |
| Dashboard.NavigationCovered | app/page.tsx:36-107 | all eleven navigation ids select a panel, and the page opens on testimonials |
| LoginPage.ErrorMessage | app/login/page.tsx:28-31 | the error shown is the body's `error` when it is truthy, else "Invalid credentials" |
| LoginPage.LoginInfo | app/login/page.tsx:34-37 | the stored record has exactly `username` and `time` |
| LoginPage.Credentials | app/login/page.tsx:21-24 | the body sent has exactly `userId` and `password`, both trimmed |
| LoginPage.LoginForm.constructor | app/login/page.tsx:6-9 | empty fields, no error, not loading |
| LoginPage.LoginForm.Type | app/login/page.tsx:6-7 | the two inputs hold what was typed |
| LoginPage.LoginForm.Begin | app/login/page.tsx:13-24 | the error is cleared, `loading` is set, and the trimmed pair is the body |
| LoginPage.JarAfter | app/login/page.tsx:18-27 | the browser takes in the `Set-Cookie` of any response `fetch` receives; a rejected request leaves the jar unchanged |
| LoginPage.LoginForm.Complete | app/login/page.tsx:28-45 | the jar takes in the response's cookie. On an ok response, `loginInfo` is stored and the location is replaced with `/`. On any other outcome, storage and history are untouched and the matching error is shown. `loading` ends false every time |
| LoginPage.LoginForm.HandleSubmit | app/login/page.tsx:12-46 | the whole submit: the trimmed pair goes to the server, the jar takes in the response's cookie, and on success the record is stored, the page is at `/` and there is no error; otherwise nothing is stored and the error is shown |
| LoginPage.SubmitAgainstEndpoint | app/login/page.tsx:18-31 | against the login endpoint, the page logs in exactly when the trimmed pair is the configured one, and otherwise shows "Invalid credentials" |
| LoginPage.Delivered | app/api/auth/login/route.ts:14-24 | what `fetch` sees of the login endpoint's answer: the status, the body `{ success: true }` for a success and `{ error }` for a failure, no JSON for the framework's error page, and the `Set-Cookie` header unchanged |
| LoginPage.SubmitOpensSession | app/login/page.tsx:18-31 | against the login endpoint, an accepted login leaves the signed token in the jar as `dashboard_auth`, so the session gate passes; a refused one leaves the jar unchanged |
| LoginPage.PaddingIgnored | app/login/page.tsx:21-24 | white space typed before or after the user id or the password, each amount independent, does not change what is sent |
| LoginPage.LoginRecordLastsAnHour | app/login/page.tsx:33-39 | the record a login stores keeps the dashboard open for one hour and then expires it |
| Forms.YearOptions | components/experience-management.tsx:43 | `count` years, the i-th being `current - i` |
| Forms.YearOptionsRange | components/experience-management.tsx:42-43 | a year is offered exactly when it lies in the last `count` years up to the current one |
| Forms.YearOptionsDescending | components/experience-management.tsx:43 | the years are strictly descending |
| Forms.SaveTo | components/experience-management.tsx:96-97 | PUT to `<base>/<id>` while editing, POST to `<base>` otherwise, with the form as the body |
| Forms.SaveToDistinct | components/experience-management.tsx:96 | distinct items save to distinct paths, never to the collection's own |
| ExperienceForm.MonthName | components/experience-management.tsx:181 | `months[m - 1]`: the m-th name for 1..12, `undefined` otherwise |
| ExperienceForm.EndMonthOrJanuary | components/experience-management.tsx:185 | `endMonth \|\| 1`: the month when present and non-zero, January otherwise |
| ExperienceForm.FormatDateRange | components/experience-management.tsx:180-187 | `<start> - Present` or `<start> - <end>` (pinned by `PresentIgnoresEnd`, `PresentExactlyWhenCurrent`, `MissingEndMonthIsJanuary` and `StartsWithStart`) |
| ExperienceForm.MonthNamesDistinct | components/experience-management.tsx:27-40 | the twelve month names are pairwise distinct |
| ExperienceForm.OutOfRangeMonth | components/experience-management.tsx:181 | a month outside 1..12 shows as no month name (`undefined`) |
| ExperienceForm.PresentIgnoresEnd | components/experience-management.tsx:182-184 | a current position reads `<start> - Present`, whatever its end fields hold |
| ExperienceForm.MissingEndMonthIsJanuary | components/experience-management.tsx:185-186 | a missing or zero end month shows as January |
| ExperienceForm.PresentExactlyWhenCurrent | components/experience-management.tsx:180-187 | the text is `<start> - Present` exactly when the position is current |
| ExperienceForm.StartsWithStart | components/experience-management.tsx:180-187 | every text opens with the start and ` - ` |
| ExperienceForm.Editor.constructor | components/experience-management.tsx:50-58 | January of the current year for both ends, not current, empty texts, nothing being edited, dialog closed |
| ExperienceForm.Editor.Years | components/experience-management.tsx:42-43 | 50 years, from the current one down to 49 years back |
| ExperienceForm.Editor.Body | components/experience-management.tsx:102 | the body holds exactly the seven form fields, each with the form's value |
| ExperienceForm.EntryOf | components/experience-management.tsx:180-187 | a stored record reads as an entry exactly when its start, flag and texts are there with their types; each field is read from its key, the end fields optionally |
| ExperienceForm.BodyReadsBack | components/experience-management.tsx:99-102 | whatever the record held before, after the update merges the form's body it reads back as the form, end fields included |
| ExperienceForm.Editor.ResetForm | components/experience-management.tsx:162-173 | the form returns to its initial values and the editing target is cleared |
| ExperienceForm.Editor.HandleEdit | components/experience-management.tsx:148-160 | the entry's fields are loaded, a missing or zero end month becomes 1 and end year the current year, the entry becomes the target, and the dialog opens |
| ExperienceForm.Editor.Submit | components/experience-management.tsx:86-97 | nothing is sent exactly when the position or the description is empty; otherwise PUT to `/api/experience/<id>` while editing and POST to `/api/experience` otherwise |
| ExperienceForm.Editor.Saved | components/experience-management.tsx:105-112 | a saved form is closed and reset; a failed one is left as it is |
| ExperienceForm.EditAndSave | components/experience-management.tsx:148-160 | editing an entry and saving it sends a PUT to its path with the form's body, when position and description are set. The record the update then stores reads with the same period when the entry is current or has an end year. Without an end year it now ends in the current year, where it read "undefined" before. Nothing is stored when nothing is sent |
| GrantsForm.FundInput | components/research-grants-management.tsx:207 | the amount is the leading integer typed, or 0 when there is none |
| GrantsForm.FundInputText | components/research-grants-management.tsx:207 | a typed whole number is stored as that number |
| GrantsForm.BlankFundIsZero | components/research-grants-management.tsx:207 | a blank amount is stored as 0, and such a form is refused |
| GrantsForm.Editor.constructor | components/research-grants-management.tsx:29-34 | amount 0, empty texts, the current year, nothing being edited |
| GrantsForm.Editor.Body | components/research-grants-management.tsx:78 | the body holds exactly the four form fields |
| GrantsForm.Editor.OnFundInput | components/research-grants-management.tsx:206-208 | the amount becomes `parseInt(text) \|\| 0` |
| GrantsForm.Editor.ResetForm | components/research-grants-management.tsx:135-143 | amount 0, empty texts, the current year, nothing being edited |
| GrantsForm.Editor.HandleEdit | components/research-grants-management.tsx:124-133 | the four fields of the grant are loaded, the grant becomes the target, and the dialog opens |
| GrantsForm.Editor.Submit | components/research-grants-management.tsx:62-73 | a request is sent exactly when the title and agency are non-empty and the amount is positive; PUT to `/api/research-grants/<id>` while editing, and POST otherwise |
| GrantsForm.Editor.Saved | components/research-grants-management.tsx:81-88 | a saved form is closed and reset; a failed one is left as it is |
| GrantsForm.Years | components/research-grants-management.tsx:159-160 | 30 years, from the current one down to 29 years back |
| GrantsForm.EditedBody | components/research-grants-management.tsx:126-131 | the body after loading a grant holds exactly its four edited fields |
| GrantsForm.EditThenSubmit | components/research-grants-management.tsx:124-133 | loading a grant and saving it sends a PUT to its path with exactly its four fields, when they pass the guard |

## Left out

- MongoDB itself is not modelled. That covers the client pool, `getCollection`, the driver's wire behaviour and concurrent writers. The collection is one map owned by the service, and operations run one after another. Whether the database is reachable is a flag; when it is not, every operation fails with `Unavailable`.
- ObjectIds.IdText: generated identifiers are numbered by a counter and written as 24 hexadecimal digits. The timestamp, machine and counter layout of a real ObjectId is not modelled. A counter at or beyond 16^24 wraps.
- ObjectIds.FromValue: the model follows the driver's documented behaviour: undefined, null and numbers give a fresh id that matches nothing, and objects are read through their `id` field. Other driver versions may differ.
- Database.NotOlder: documents with the same `createdAt` may come out in either order. A `createdAt` that an update overwrote with a non-date comes after every dated document. MongoDB's exact order among such values is not modelled.
- Database.DatabaseService.FindOne: it returns some matching document, not necessarily the first in MongoDB's natural order.
- `$set` of a dotted key (`"a.b"`) writes a nested path in MongoDB. The model writes it as a flat field.
- JavaScript numbers are unbounded integers. Floating point, `NaN`, and fractional amounts or months are not modelled.
- Json.Spread: spreading a string copies its characters one per code unit. Surrogate pairs are not distinguished.
- These library functions are parameters of the model: `JSON.parse`, `JSON.stringify`, `String(v)`, `new Date(v).getTime()`, `toISOString()` and the token library's `sign`. Nothing assumes their behaviour except what a lemma states in its own `requires`.
- AuthRoutes.LoginPost: the JWT is whatever `sign` returns. No route ever verifies it, and the model does not verify it either. `lib/hashpass.ts` is not part of this model: no route calls it.
- Request bodies are already-parsed JSON values, or "not JSON". Reading the body stream is not modelled.
- Image hosting is not part of this model: `lib/cloudinary.ts`, the upload route and the image-upload component.
- Not part of this model: the six pass-through routes (publications, research-grants, startups, patents, talks, copyrights), which are `findAll`/`create` with no decision logic, and the `[id]` routes.
- The other management components are not part of this model. They are rendering, dialogs, toasts and fetch calls. The research-grant component's `formatCurrency` (`Intl.NumberFormat`) and the patents date formatting are not part of this model either.
- The experience and grant components list their items from `fetch` and show toasts on success and failure. Those calls and toasts are not modelled. A save's outcome is the `ok` parameter of `Saved`.
- ExperienceForm.EditAndSave: the experience `[id]` PUT route is taken to be `update(id, body)`, so the stored record is `Database.Merged` of the body. The list's refresh after a save is not modelled; `shown` is what the stored record reads as.
- ResourceRoutes.DeleteEntry: the `Number(id)` conversion before `deleteById` is not modelled, because the stub never reads its argument.
- The select and text inputs' `onChange` handlers of the experience form are not modelled: each one just sets a single field. The same goes for the grant form's text inputs. The grant amount's handler is modelled as `OnFundInput`.
- The `required` attribute of the login page's two inputs makes the browser refuse to submit while a field is empty. That browser check is not modelled: `HandleSubmit` sends whatever was typed, the empty pair included.
- Request bodies may hold `Date` values in the model, although no JSON text produces one. The handlers do not exclude them.
- Dashboard.MountEffect: the `typeof window` test is taken as always true, since the effect runs only in the browser.
