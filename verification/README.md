# Places and users: a Dafny model

This project models the core of a "share your places" web application. It covers:

- the Node/Express backend's places and users controllers;
- the bearer-token middleware (`check-auth`);
- the multer image-upload configuration (`file-upload`);
- the two routers that wire these together;
- the small pieces of state logic in the React frontend: the input reducer, the login/signup mode switch, the image-picker rule, the user-places list filter and the session hook.

The backend state is one immutable value:

- `Store.State` holds the `users` collection, the `places` collection and the set of image object URLs in the bucket.
- Every controller is a pure transition `State -> (State, Reply)`.
- A reply is one of three things:
  - a JSON success with its status;
  - an `HttpError` handed to `next`, with its code and message;
  - a `Crash`, meaning an uncaught `TypeError` on a missing value, after which no response is written.

Everything outside the code is a parameter. This covers Mongo lookups and writes, the session transaction, S3 `deleteObject`, the geocoder, bcrypt, `jwt.sign`/`jwt.verify`, express-validator's `normalizeEmail`/`isEmail`, and the current time. Each is a boolean outcome or a function the caller supplies, so every branch of the source is reachable in the model.

The central invariant is `Store.Linked`:

- every place's creator exists and lists the place;
- every id a user lists is a place that names that user as creator, listed once.

Every write preserves it, and so does every error path. Signup also preserves `Store.UniqueEmails`.

Modules, one per file:

| module | file | what it models |
|---|---|---|
| `Common` | `common.dfy` | `Option`, `Reply`, status codes |
| `Seqs` | `seqs.dfy` | `filter`/`pull` on sequences |
| `Strings` | `strings.dfy` | JavaScript `split`/`join` on one character |
| `Store` | `store.dfy` | entities, state, invariants |
| `Places` | `places.dfy` | the places controller |
| `Users` | `users.dfy` | the users controller |
| `AuthCheck` | `checkauth.dfy` | the token middleware |
| `FileUpload` | `upload.dfy` | multer configuration |
| `Routes` | `routes.dfy` | both routers with their validators |
| `InputField` | `input.dfy` | the input reducer |
| `AuthPage` | `authpage.dfy` | the mode switch |
| `ImagePicker` | `imagepicker.dfy` | the image-picker rule |
| `UserPlacesPage` | `userplaces.dfy` | the user-places list |
| `AuthHook` | `authhook.dfy` | the session hook |

How the code orders its image-object operations, and what follows:

- **Update replacing an image.** The old S3 object is removed *before* the place is saved (`places-controllers.js:182-212`). So a failed save leaves the place pointing at a deleted object. `Places.UpdateFailedSaveLeavesDanglingImage` states this.
- **Deleting a place.** The image is removed *before* the transaction (`places-controllers.js:244-278`). So a failed transaction leaves the place in the store, pointing at a deleted object. `Places.DeletePlace` and `Places.DeleteFailedCommitLeavesDanglingImage` state this.
- **Failed create or signup.** multer's disk storage writes the upload to `uploads/images` before the controller runs. When the controller hands an error to `next`, the error handler unlinks `req.file.path` (`app.js:72-78`), so the file stays behind only after a `Crash`. Local files are not part of the model's state, so the model's create and signup never touch `assets`.

## Model

| member | source | states |
|---|---|---|
| Places.GetPlaceById | Node-backend-/controllers/places-controllers.js:19-43 | a lookup error is 500; otherwise the read succeeds exactly when the id is stored, and then returns that place under its id with 200; an unknown id is 404 |
| Places.GetPlacesByUserId | Node-backend-/controllers/places-controllers.js:47-67 | a lookup error is 500; otherwise always 200, listing each place whose creator is the user exactly once and nothing else (an unknown user gets the empty list) |
| Places.CreatePlace | Node-backend-/controllers/places-controllers.js:69-145 | invalid input is 422 with no change; a geocoder error becomes the reply; with coordinates, a missing file crashes on `req.file.location`, a failed creator lookup is 500 and a failed transaction is 500 "Creating place failed, please try again.", all with no change; success holds exactly when input is valid, geocoding works, a file was uploaded, the caller exists and the transaction commits; then the place is inserted under the new id, appended to the caller's list, and 201 returns it |
| Places.UpdatePlace | Node-backend-/controllers/places-controllers.js:147-220 | invalid input 422 and a lookup error 500, both without change; a missing place is an uncaught fault; a non-creator gets 401 and no change; success holds exactly when the creator's save works, and sets title and description, replaces the image when a file came, keeps address, location and creator, and touches no other place; a failed save is 500; users never change; the assets change exactly by the removal of the old image, which happens whenever the creator sent a file and the removal works, save or no save |
| Places.DeletePlace | Node-backend-/controllers/places-controllers.js:222-281 | lookup error 500, unknown place 404, non-creator 401, each without change; a creator missing from the users is an uncaught fault; success removes the place and pulls its id from the creator's list with "Deleted place."; a failed transaction is 500 and keeps places and users; for the creator the image is removed whenever the removal works, commit or no commit, and nothing else ever changes the assets |
| Places.CreatePreservesLinked | Node-backend-/controllers/places-controllers.js:121-129 | the one transaction that inserts a place and appends its id keeps the creator/places link, on every outcome |
| Places.UpdatePreservesLinked | Node-backend-/controllers/places-controllers.js:178-205 | an edit never changes a creator or a list, so the link holds afterwards |
| Places.DeletePreservesLinked | Node-backend-/controllers/places-controllers.js:268-274 | deleting the place and pulling its id in one transaction keeps the link, including the no-duplicates part |
| Places.CreateThenGet | Node-backend-/controllers/places-controllers.js:121-144 | a successfully created place is exactly what a later read of its id returns |
| Places.DeleteThenGet | Node-backend-/controllers/places-controllers.js:268-280 | after a successful delete the id reads as 404 and no user lists it any more |
| Places.UpdateFailedSaveLeavesDanglingImage | Node-backend-/controllers/places-controllers.js:182-212 | when the old object was removed and the save then fails, the reply is 500, the place is unchanged and its image is no longer in the bucket |
| Places.DeleteFailedCommitLeavesDanglingImage | Node-backend-/controllers/places-controllers.js:244-278 | when the object was removed and the transaction then fails, the reply is 500, the place remains and its image is gone |
| Users.GetUsers | Node-backend-/controllers/users-controllers.js:12-27 | a lookup error is 500; otherwise 200 with every stored user exactly once, each without its password |
| Users.Signup | Node-backend-/controllers/users-controllers.js:29-100 | invalid input 422; a failed lookup 500; a taken email 422 "User exists already"; a failed hash 500 "Could not create user, please try again."; with a digest, a missing file crashes and a failed save is 500, all with no change; a user is stored exactly when validation, lookup, hashing, the upload and the save all succeed, with the bcrypt digest (cost 12) and an empty list; success, 201 with id, email and a token signed at the current time for one hour, additionally needs the token to be signed; a signing failure is 500 with the user already stored; places and assets never change |
| Users.LoginAs | Node-backend-/controllers/users-controllers.js:126-156 | for the found user: a bcrypt error is 500, a wrong password 401, a matching password whose token cannot be signed 500, and success (200 with id, email and a token issued now for one hour) holds exactly when the password matches and the token is signed |
| Users.Login | Node-backend-/controllers/users-controllers.js:102-157 | a lookup error is 500; an email no user has is 403 "Invalid credentials"; otherwise the reply is the login of some user with that email, and a success names a stored user with that email |
| Users.SignupKeepsEmailsUnique | Node-backend-/controllers/users-controllers.js:38-86 | because a taken email is refused before the save, signup never creates two users with one email |
| Users.SignupPreservesLinked | Node-backend-/controllers/users-controllers.js:69-86 | a new user lists no places and no place names them, so the link holds |
| Users.LoginFindsTheUser | Node-backend-/controllers/users-controllers.js:105-123 | with unique emails, `findOne` by email can only find the one user holding it |
| Users.SignupThenLogin | Node-backend-/controllers/users-controllers.js:59-156 | after a successful signup, and given that bcrypt accepts a password for its own digest, the email belongs to the new user alone; a later login with the same password succeeds exactly when its token can be signed, and answers with the signup's id and email; the token equals the signup's only when both are issued at the same second |
| AuthCheck.CheckAuth | Node-backend-/middleware/check-auth.js:9-23 | OPTIONS passes without a user; otherwise the request passes exactly when a header is present, its second space-separated field is a non-empty token and the verifier accepts it, and then carries the token's user id; every refusal is 403 "Authentication failed!" |
| AuthCheck.BearerTokenOf | Node-backend-/middleware/check-auth.js:14 | `scheme + " " + token` yields `token` for space-free parts |
| AuthCheck.SchemeIgnored | Node-backend-/middleware/check-auth.js:14 | the first word is never checked: any two single-word schemes give the same token |
| AuthCheck.NoSecondFieldRefused | Node-backend-/middleware/check-auth.js:14-17 | a header with no second field, or an empty one, is refused with 403 |
| AuthCheck.LoginTokenPasses | Node-backend-/middleware/check-auth.js:14-19 | a token returned by a login, sent as `Bearer <token>` before its hour is up, passes the middleware as that user, when the verifier accepts every unexpired token the signer issued |
| Strings.Split | Node-backend-/middleware/check-auth.js:14 | `split` on one character gives at least one field, no field holds the separator, and joining the fields with it gives back the input |
| Strings.SplitJoin | Node-backend-/middleware/check-auth.js:14 | splitting a join of separator-free fields gives back those fields |
| Strings.SplitAfterHead | Node-backend-/middleware/check-auth.js:14 | splitting `a + sep + b` with separator-free `a` is `a` followed by the split of `b` |
| FileUpload.FileFilterAsWritten | Node-backend-/middleware/file-upload.js:27-30 | the filter as written accepts a MIME type exactly when it is a key of the map or a name inherited from `Object.prototype`, and errors exactly when it refuses |
| FileUpload.AsWrittenAcceptsPrototypeName | Node-backend-/middleware/file-upload.js:28 | the MIME type `constructor` is not in the map yet passes the filter as written |
| FileUpload.FileFilter | Node-backend-/middleware/file-upload.js:4-8 | the corrected filter accepts exactly `image/png`, `image/jpeg` and `image/jpg`; any other type is refused with "Invalid mime type!" |
| FileUpload.FilterAgreesOffPrototypeNames | Node-backend-/middleware/file-upload.js:27-30 | the two filters decide alike on every type except the prototype names |
| FileUpload.Extension | Node-backend-/middleware/file-upload.js:23 | each accepted type maps to its own extension (types that are prototype names are not covered) |
| FileUpload.Filename | Node-backend-/middleware/file-upload.js:22-24 | the stored name is the uuid, a dot, then the type's extension |
| FileUpload.AcceptedFileHasImageSuffix | Node-backend-/middleware/file-upload.js:22-30 | a file the filter accepts is named `<uuid>.png`, `.jpeg` or `.jpg` |
| FileUpload.Upload | Node-backend-/middleware/file-upload.js:27-31 | the upload step with the corrected filter, which both routers use: no file leaves none; a file is stored exactly when its type is one of the three image types, keeping its location; a refused file ends the request with 500 "Invalid mime type!" |
| FileUpload.UploadAsWritten | Node-backend-/middleware/file-upload.js:27-31 | the upload step as written: a file is stored exactly when its type is a key of the map or an `Object.prototype` name; otherwise as above |
| FileUpload.UploadDiffersOnlyOnPrototypeNames | Node-backend-/middleware/file-upload.js:28 | the two upload steps disagree exactly on a part whose type is a prototype name, which the written step stores and the corrected one refuses with 500 |
| Routes.HandlePlaces | Node-backend-/routes/places-routes.js:10-50 | `GET /:pid` and `GET /user/:uid`, also as HEAD and with `user` in any letter case, run their controllers whatever the Authorization header holds, and never change state; every other request whose token is refused gets 403 with no change; past the gate, DELETE runs the delete controller as the token's user with no upload and no validators; POST and PATCH run the upload first and a refused upload is 500 with no change; otherwise POST runs the create controller with the create validators' verdict (title, description of at least 5, address) and PATCH the update controller with the edit validators' verdict (title and description; the address is never checked), each with the stored file's location; any state change needs a write route and a verified user; a created place's creator is the token's user; the link is preserved |
| Routes.RouteMatching | Node-backend-/routes/places-routes.js:10-12 | HEAD reaches the open reads, `USER` and `User` match the `user` segment and `SignUp`/`LOGIN` the users routes, while `users/u1`, another verb or another word does not |
| Routes.EditIgnoresAddress | Node-backend-/routes/places-routes.js:23-48 | the edit route's verdict does not depend on the address, every form the create route accepts the edit route accepts, and an edit form with a non-empty address passes the create route |
| Routes.HandleUsers | Node-backend-/routes/users-routes.js:9-27 | `GET /` (or HEAD) answers as the list controller does, with no change; signup runs the upload first (a refused upload is 500 with no change), then the signup controller with the validators' verdict (name, normalized email, password of at least 6) and the normalized email; a failing form is 422 with no change; `signup` and `login` match in any letter case; login runs the login controller on the email and password as sent, with no validators, and changes nothing; only a passing signup adds a user, under a fresh id; places and assets never change; the link and unique emails are preserved |
| InputField.Reduce | React-frontend-/src/shared/components/FormElements/Input.js:7-23 | CHANGE sets the value and its validity and keeps the touched flag; TOUCH sets touched and keeps the rest; any other action leaves the state alone |
| InputField.Initial | React-frontend-/src/shared/components/FormElements/Input.js:26-30 | starts untouched, with the given value or '', valid only when told so |
| InputField.TouchIdempotent | React-frontend-/src/shared/components/FormElements/Input.js:15-19 | touching twice is touching once |
| InputField.ChangeTouchCommute | React-frontend-/src/shared/components/FormElements/Input.js:9-19 | CHANGE and TOUCH commute |
| InputField.FreshInputHidesError | React-frontend-/src/shared/components/FormElements/Input.js:26-30 | a new input never shows its error text |
| InputField.ErrorAfterTouch | React-frontend-/src/shared/components/FormElements/Input.js:81-86 | after typing and leaving the field, the error shows exactly when the typed value fails validation |
| AuthPage.Initial | React-frontend-/src/users/pages/Auth.js:31-44 | the page starts in login mode with empty, invalid email and password, no signup fields, and an invalid form |
| AuthPage.SwitchMode | React-frontend-/src/users/pages/Auth.js:53-78 | the mode flips and email and password are kept; into login mode name and image are dropped and the form is valid exactly when both remaining inputs are; into signup mode an empty invalid name and image are added and the form is invalid |
| AuthPage.SwitchKeepsModeConsistent | React-frontend-/src/users/pages/Auth.js:53-78 | the signup-only inputs exist exactly in signup mode, initially and after every switch |
| AuthPage.SwitchTwice | React-frontend-/src/users/pages/Auth.js:53-78 | switching twice restores mode, email and password; from a login page it restores the page with the form's validity recomputed |
| ImagePicker.Initial | React-frontend-/src/shared/components/FormElements/ImageUpload.js:9-11 | no file and not valid at first |
| ImagePicker.Pick | React-frontend-/src/shared/components/FormElements/ImageUpload.js:26-40 | exactly one chosen file is a valid pick that becomes the stored file and is reported; anything else is an invalid pick that reports no file and keeps the previous one stored |
| ImagePicker.ReportMatchesState | React-frontend-/src/shared/components/FormElements/ImageUpload.js:26-40 | the report's validity equals the new state's; a valid report carries the stored file; the error text shows exactly when the report is invalid |
| ImagePicker.InvalidPickKeepsFile | React-frontend-/src/shared/components/FormElements/ImageUpload.js:30-38 | a bad pick after a good one keeps the good file and shows the error |
| UserPlacesPage.PlaceDeleted | React-frontend-/src/places/pages/UserPlaces.js:28-30 | the new list holds no place with the deleted id and every other place with its original multiplicity |
| UserPlacesPage.DeletedKeepsOrder | React-frontend-/src/places/pages/UserPlaces.js:29 | the filter distributes over concatenation, so kept places keep their order |
| UserPlacesPage.DeleteAbsentIsNoOp | React-frontend-/src/places/pages/UserPlaces.js:29 | deleting an id the list does not hold returns the same list |
| UserPlacesPage.DeleteTwiceIsOnce | React-frontend-/src/places/pages/UserPlaces.js:29 | handling the same deletion twice equals handling it once |
| AuthHook.Login | React-frontend-/src/shared/hooks/auth-hook.js:11-27 | the session and the stored record get the same user and token, with the given expiration or one hour (3,600,000 ms) from now |
| AuthHook.Logout | React-frontend-/src/shared/hooks/auth-hook.js:29-34 | the token, user and expiration are cleared and the stored record is removed |
| AuthHook.Restore | React-frontend-/src/shared/hooks/auth-hook.js:47-56 | a stored record with a non-empty token and a future expiration is logged in again with its own expiration; otherwise nothing changes |
| AuthHook.LoginSurvivesReload | React-frontend-/src/shared/hooks/auth-hook.js:47-56 | after a login, a reload restores the same session exactly while the token is non-empty and not expired |
| AuthHook.LogoutSurvivesReload | React-frontend-/src/shared/hooks/auth-hook.js:29-34 | after a logout a reload restores nothing |
| AuthHook.RestoreIdempotent | React-frontend-/src/shared/hooks/auth-hook.js:47-56 | restoring twice is restoring once |
| Seqs.Pull | Node-backend-/controllers/places-controllers.js:272 | Mongoose's `pull` removes every occurrence of the id and keeps every other element |
| Seqs.PullDistinct | Node-backend-/controllers/places-controllers.js:272 | pulling from a list without duplicates leaves a list without duplicates |
| Store.LinkedListIsCreatedBy | Node-backend-/controllers/places-controllers.js:52 | under the link, a user's list holds exactly the places whose creator is that user, so querying by creator answers the same question |

## Left out

- Concurrency: requests are modelled one at a time. The session transactions appear only as all-or-nothing writes.
- `app.js` is not part of this model. That leaves out the CORS headers, the mounting under `/api/places` and `/api/users`, the 404 for unknown routes, and the error handler's removal of an uploaded file. Its status rule, "the error's code, else 500", is used in `FileUpload.Upload`.
- The database, S3, the geocoder, bcrypt and jsonwebtoken are parameters (`Places.Effects`, `Users.Crypto`, `Users.SignupEffects`, the `verify` function). What they compute is not modelled, only which of their outcomes leads where.
- `Users.Crypto`: `sign` is a function of the claims, the issue time in seconds and the lifetime only. The secret key is fixed, and the token's encoding is not modelled.
- `AuthCheck.CheckAuth`: `verify` stands for jsonwebtoken at the moment of the request. Expiry is folded into its answer, and `AuthCheck.TokensSound` is the only link between it and `sign`.
- `FileUpload.Upload`: the routers use the corrected filter (see Findings). So a part whose MIME type is an `Object.prototype` name is refused with 500, where the code as written stores it. `FileUpload.UploadAsWritten` is the written step, and `FileUpload.UploadDiffersOnlyOnPrototypeNames` states the one difference.
- `FileUpload.Extension`: for a prototype-name type, the code names the file after the text of the inherited member. The model gives `undefined` there, and only the filter as written ever reaches it.
- `Places.CreatePlace`: the 201 body is the bare document, which carries its id as `_id`; the reads carry it as `id`. The model uses one view, `Places.PlaceView`, for all of them.
- An S3 object is identified by its URL. The `new URL(...).pathname.substring(1)` key extraction is abstracted into the `s3DeleteOk` outcome.
- Writing the upload to `uploads/images` and the error handler's unlink of it are not modelled. `assets` holds only the bucket objects that the update and delete controllers remove.
- `FileUpload.Upload`: the model takes the image location as part of the incoming file, because the controllers read `req.file.location`, the URL multer-s3 sets. The configured `multer.diskStorage` (`file-upload.js:18-25`) sets `path` and no `location`, so in the source as configured the controllers would read `undefined`. What the place and user schemas do with that is not part of this model.
- The multer `limits: 500000` option is left out: size limits are not modelled.
- The `destination` callback (`uploads/images`) is kept only as the constant `FileUpload.Destination`. The stored file's location comes with the request.
- `Routes.MinLength`: validator.js `isLength` counts a surrogate pair as one character and does not count the variation selectors U+FE0E and U+FE0F; the model counts every character, so the description rule of `Routes.CreatePlaceValid` and `Routes.UpdatePlaceValid` and the password rule of `Routes.SignupValid` differ from the source only on text holding those selectors.
- `Routes.Field`: reads the field from the parsed body only; express-validator's `check` also looks in the query string, the route parameters, the cookies and the headers (places-routes.js:27-34 and 42-45, users-routes.js:16-22), so a field sent only there is validated by the source but treated as missing by the model.
- `Routes.SignupValid`: `normalizeEmail` and `isEmail` are parameters.
- `Routes.HandlePlaces`: a path is its list of segments after the mount point, with the trailing slash that non-strict routing accepts already dropped. The reply of a HEAD request is the GET reply, whose body Node then does not send.
- `Users.Login`: body fields are modelled as strings or missing. `bodyParser.json()` also passes numbers, arrays and objects, and login runs no validator, so in the source an object such as `{"$ne": null}` as the email reaches `User.findOne` as a query operator and can match any user. Non-string JSON values are out of scope for `Routes.PlaceForm`, `Routes.UserForm` and every controller.
- `Users.Login`: a missing email or password is read as the empty string. Mongoose's dropping of `undefined` filter values is not modelled.
- `Users.Login`: `findOne` is modelled as returning some user with the email, without fixing which.
- `Places.GetPlacesByUserId`: the order of the list is the database's and is left unconstrained. The contract fixes its contents, not its order.
- `AuthHook.Login`: the logout timers (`setTimeout`/`clearTimeout`) are not modelled.
- `AuthHook.Login`: dates are integers in milliseconds, and the ISO round trip through local storage is taken to preserve them.
- `AuthHook.Hook`: a missing token stands for both the initial `false` and the `null` set by logout.
- The frontend's rendering, HTTP hook, context and the pages' request code are not modelled, beyond the state rules listed in the table.

## Findings

| source | as written | input that shows it | evidently intended | confidence | as-written member | corrected member |
|---|---|---|---|---|---|---|
| Node-backend-/middleware/file-upload.js:28 | `!!MIME_TYPE_MAP[file.mimetype]` looks the type up on a plain object, so names inherited from `Object.prototype` are truthy | a multipart part whose Content-Type is `constructor` is accepted, and its "extension" is then the inherited `Object` function turned into text | accept only the map's own keys `image/png`, `image/jpeg`, `image/jpg` | not executed | FileUpload.FileFilterAsWritten, with FileUpload.AsWrittenAcceptsPrototypeName | FileUpload.FileFilter |
