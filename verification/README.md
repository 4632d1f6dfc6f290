# Developer-Connector profile routes: a Dafny model

This project models the data logic in the profile routes of the
Developer-Connector backend (`routes/api/profile.js`). A signed-in user owns at
most one profile document. The document holds scalar fields, a `social`
sub-object, a list of skill tags and two ordered sub-collections: experience
and education. The model covers four pieces of that file:

- **Field reconciler.** `POST /api/profile` turns the submitted form into a
  sparse update record. `user` and `social` are always present. Every other key
  appears only when its input is truthy in JavaScript. `skills` is split on
  commas and each piece is trimmed.
- **Upsert.** When the user already has a profile, the record is applied as a
  top-level `$set`. Otherwise a new profile is created from it.
- **Sub-collection editor.** `PUT` puts a new experience or education entry at
  the head of its list. `DELETE` splices out the first entry whose id matches.
- **Validation and status codes.** Each mutating route checks its required
  fields with `not().isEmpty()`. Each route also has its own answers for a
  missing profile and a missing entry.

Everything is modelled with immutable datatypes and pure functions:

| module (file) | what it holds |
|---|---|
| `Optional` (optional.dfy) | `Option`, JavaScript truthiness of a body string |
| `Strings` (strings.dfy) | ECMAScript `trim`, `split` on one character, `join` |
| `Validation` (validation.dfy) | `check(...).not().isEmpty()` and `validationResult` |
| `Entries` (entries.dfy) | `unshift`, `indexOf` over entry ids, `splice(k, 1)` |
| `Profiles` (profiles.dfy) | forms, stored profile, update record, key/value document view |
| `Reconciler` (reconciler.dfy) | the `profileFields` builder |
| `ProfileStore` (store.dfy) | the profile collection as `map<UserId, Profile>`, `$set`, `new Profile`, upsert |
| `ProfileRoutes` (routes.dfy) | `GET /me`, `POST /`, `PUT`/`DELETE` experience and education |

Some inputs become explicit parameters:

- **Authenticated user.** `req.user.id` is the parameter `u`.
- **Request body.** Each body is a form datatype whose fields are
  `Option<string>`. `None` stands for `undefined`.
- **Entry id.** Mongoose generates the new entry's id. Here it is the
  parameter `freshId`.
- **Profile collection.** The collection is a value of type `Store`. Every
  route returns the store as it is after the request, next to the response it
  sends. A response is a status code plus a body. The body is the profile JSON,
  the `errors` array, a `{ msg }` object or a plain-text body.

The stored document is also viewed as a map from top-level key to value
(`ToDoc`, `FieldsDoc`). In that view `$set` is exactly map union:
`ToDoc(ApplySet(p, f)) == ToDoc(p) + FieldsDoc(f)`. Because `social` is one
top-level key, an update replaces it whole and does not merge it link by link.

Three behaviours of the code that the model keeps as written:

- **Social object always set.** `social` is always part of the update record,
  and is `{}` when no link is given (routes/api/profile.js:76).
- **No profile in a sub-collection route gives 500.** In the experience and
  education routes, `findOne` returns `null` when the caller has no profile
  and the property access on it throws. The `catch` block then sends 500 with
  the text `Server Error`.
- **Missing entry gives 500.** A delete whose entry id is not in the list
  sends 500 with the JSON `{ msg: "Server error" }` and saves nothing.

## Model

| member | source | states |
|---|---|---|
| `Strings.Trim` | routes/api/profile.js:72 | the trimmed tag is a middle slice of the piece, with only white space (ECMAScript WhiteSpace and LineTerminator) cut from each side, and it neither starts nor ends with white space |
| `Strings.TrimOfUnique` | routes/api/profile.js:72 | that characterisation of `trim` admits one result only, so it specifies `trim` completely |
| `Strings.TrimIdempotent` | routes/api/profile.js:72 | trimming a trimmed tag changes nothing |
| `Strings.TrimKeeps` | routes/api/profile.js:72 | a piece without surrounding white space is stored as given |
| `Strings.TrimStrips` | routes/api/profile.js:72 | one space on each side of a piece is removed and the inside is kept |
| `Strings.Split` | routes/api/profile.js:72 | `split(',')` yields at least one piece and no piece contains a comma |
| `Strings.JoinSplit` | routes/api/profile.js:72 | joining the pieces with commas gives back the input: split keeps every character and the order, and drops no empty piece |
| `Strings.SplitJoin` | routes/api/profile.js:72 | splitting comma-free pieces joined with commas gives back exactly those pieces |
| `Strings.SplitLength` | routes/api/profile.js:72 | the number of pieces is the number of commas plus one |
| `Reconciler.ParseSkills` | routes/api/profile.js:71-73 | there is one tag per comma-separated piece, in order, and each tag is that piece trimmed |
| `Reconciler.ParseSkillsShape` | routes/api/profile.js:71-73 | the tag count is the comma count plus one; no tag contains a comma or has surrounding white space |
| `Reconciler.ParseSkillsThree` | routes/api/profile.js:72 | three comma-separated pieces give exactly the three trimmed pieces |
| `Reconciler.ParseSkillsDropsPadding` | routes/api/profile.js:72 | input shaped like "a, b ,c" gives the tags a, b, c |
| `Reconciler.ParseSkillsKeepsEmpty` | routes/api/profile.js:72 | input shaped like "a,,c" gives the tags a, "", c: an empty tag is kept, not dropped |
| `Reconciler.BuildSocial` | routes/api/profile.js:76-91 | `social` has a link key exactly when that link's input is truthy, and the value is the input unchanged |
| `Reconciler.BuildFields` | routes/api/profile.js:50-91 | `user` is the caller's id; company, website, location, bio, status and githubusername are present exactly when truthy and then unchanged; skills are parsed exactly when truthy; `social` holds exactly the truthy links |
| `Reconciler.BuildFieldsKeys` | routes/api/profile.js:50-91 | the record's keys are exactly `user`, `social` and the optional keys whose input was truthy; no copied key holds an empty string |
| `Validation.Failures` | routes/api/profile.js:37-41 | the error list is empty exactly when every required field is truthy; it names each failing check's message and only those |
| `Validation.FailuresOne` | routes/api/profile.js:33-34 | one declared check reports its message once when its field is missing and nothing otherwise |
| `Validation.FailuresAppend` | routes/api/profile.js:33-41 | the errors of checks declared one after another are the first checks' errors followed by the later ones', so `errors.array()` keeps declaration order and reports each failing check once |
| `Entries.InsertHead` | routes/api/profile.js:214 | `unshift` makes the list one longer, puts the new entry at index 0 and keeps the old entries after it in order |
| `Entries.IndexOf` | routes/api/profile.js:232-235 | the result is -1 exactly when no entry has the id; otherwise it is the position of the first entry with that id |
| `Entries.Remove` | routes/api/profile.js:235-241 | removal fails exactly when no entry has the id; otherwise the list is one shorter, entries before the first match are unchanged and the ones after it shift down by one |
| `Entries.RemoveIsMultisetDelete` | routes/api/profile.js:241 | removal takes away exactly one entry, the first one with the id, and keeps every other entry |
| `Entries.RemoveUndoesInsert` | routes/api/profile.js:214-241 | removing the id of the entry just unshifted gives back the original list, even when older entries have the same id |
| `Entries.InsertAllReverses` | routes/api/profile.js:214 | after inserting entries one by one, they read back in reverse insertion order, ahead of the older entries |
| `ProfileStore.ApplySet` | routes/api/profile.js:99 | `$set` never touches the experience and education arrays, which the form does not carry |
| `ProfileStore.ApplySetOverwritesTopLevel` | routes/api/profile.js:99 | the updated document is the stored document overwritten key by key with the record, so `social` is replaced whole and every key the record lacks keeps its value |
| `ProfileStore.NewProfile` | routes/api/profile.js:104 | a new profile belongs to the record's user and starts with empty experience and education |
| `ProfileStore.NewProfileOverDefaults` | routes/api/profile.js:104 | a new profile's document is the record laid over the defaults: empty arrays and an empty `social` |
| `ProfileStore.Upsert` | routes/api/profile.js:95-108 | only the caller's profile is written and every other user's profile is unchanged; it is updated by `$set` when it exists and created otherwise; every profile stays filed under its owner |
| `ProfileStore.UpsertCount` | routes/api/profile.js:95-108 | an update keeps the number of profiles and a creation adds exactly one |
| `ProfileStore.ApplySetIdempotent` | routes/api/profile.js:99 | applying the same `$set` twice gives the same profile as applying it once |
| `ProfileStore.ApplySetOnNew` | routes/api/profile.js:99-104 | applying the record to the profile just created from it changes nothing |
| `ProfileStore.UpsertIdempotent` | routes/api/profile.js:95-108 | upserting the same record twice leaves the store as upserting it once |
| `ProfileRoutes.GetMine` | routes/api/profile.js:14-22 | the status is 200 exactly when the user has a profile; otherwise 400 with "There is no profile for this user" |
| `ProfileRoutes.ProfileChecksReport` | routes/api/profile.js:32-41 | validation of the create route passes exactly when status and skills are truthy; the error list is the message of each missing field, once each, status before skills |
| `ProfileRoutes.CreateOrUpdate` | routes/api/profile.js:32-112 | 400 exactly when status or skills is missing, with the store unchanged and a body listing exactly the missing fields' messages in declaration order; otherwise 200 with the upserted profile; every profile stays filed under its owner |
| `ProfileRoutes.CreateOrUpdateIdempotent` | routes/api/profile.js:95-108 | sending the same profile form twice leaves the store as sending it once |
| `ProfileRoutes.CreateThenGetMine` | routes/api/profile.js:95-107 | after a successful create-or-update, `GET /me` answers 200 with the same profile |
| `ProfileRoutes.ExperienceChecksReport` | routes/api/profile.js:179-189 | experience validation passes exactly when title, company and from are truthy; the error list names each missing field, once each, in declaration order, and no present one |
| `ProfileRoutes.AddExperience` | routes/api/profile.js:176-223 | 400 with the store unchanged when a required field is missing, and the body names exactly the missing fields in declaration order; 500 "Server Error" with the store unchanged when there is no profile; otherwise the new entry is at index 0 and the old entries follow in order, and no other field or user changes |
| `ProfileRoutes.RemoveExperience` | routes/api/profile.js:229-250 | 500 "Server Error" when there is no profile; 500 `{msg: "Server error"}` with nothing saved when the id is absent; otherwise the first entry with the id is removed, the list is one shorter, and no other field or user changes |
| `ProfileRoutes.RemoveExperienceUndoesAdd` | routes/api/profile.js:212-243 | deleting the experience entry just added gives back the original store |
| `ProfileRoutes.EducationErrorsName` | routes/api/profile.js:255-258 | each of the four required messages appears in the education report exactly when its field is missing |
| `ProfileRoutes.EducationChecksReport` | routes/api/profile.js:255-266 | education validation passes exactly when school, degree, from and fieldofstudy are truthy; the error list names each missing field, once each, in declaration order, and no present one |
| `ProfileRoutes.AddEducation` | routes/api/profile.js:252-300 | 400 with the store unchanged when a required field is missing, and the body names exactly the missing fields in declaration order (an omitted from-date gives `["From Date is required"]`); 500 "Server Error" with the store unchanged when there is no profile; otherwise the new entry is at index 0 and the old entries follow in order, and no other field or user changes |
| `ProfileRoutes.RemoveEducation` | routes/api/profile.js:306-327 | 500 "Server Error" when there is no profile; 500 `{msg: "Server error"}` with nothing saved when the id is absent; otherwise the first entry with the id is removed, the list is one shorter, and no other field or user changes |
| `ProfileRoutes.RemoveEducationUndoesAdd` | routes/api/profile.js:289-320 | deleting the education entry just added gives back the original store |

## Left out

- Authentication is left out. The `auth` middleware, token verification and
  `routes/api/auth.js` are not modelled: bcrypt comparison, JWT signing and
  the config lookup are foreign library calls. In that file both
  credential-failure branches send the same "Invalid Credentials" body.
- `routes/api/users.js` is left out. It only wires `isEmail` and `isLength`
  checks to a stub response.
- `client/src/actions/profile.js` is left out. It is an HTTP call and a Redux
  dispatch, which is I/O and UI state.
- `GET /api/profile/github/:username` is left out. It is a network request
  and JSON parsing.
- `GET /api/profile` and `GET /api/profile/user/:user_id` are left out. They
  are a plain listing and a by-owner lookup. The lookup also turns Mongoose
  `ObjectId` cast errors into 400, which cannot be expressed without Mongoose.
- `DELETE /api/profile` is left out. It is two store deletes and has no logic
  of its own.
- `populate` is left out. The model returns the profile without the joined
  user name and avatar.
- Store failures are left out. Store calls cannot fail or time out in the
  model, so the only way to reach a `catch` block is the missing profile in
  the sub-collection routes.
- Concurrency and atomicity of the backing store are not modelled.
- Mongoose schema behaviour is left out: casting `from`/`to` to dates, the
  schema's own defaults and required flags, and the `_id` of entries. The
  `models/Profile` schema is not part of this model. Entry bodies are stored
  exactly as submitted, and new ids are supplied by the caller.
- Non-string body values are left out. Every form field is a string, and
  `current` is a boolean. express-validator would stringify other JSON values
  before its check.
- Request locations other than the body are left out. `check(field)` reads
  the field from the body, cookies, headers, route parameters and query
  string, and every place where it is present must pass. The model reads the
  body only. So `POST /api/profile?status=dev` with a body lacking `status`
  passes validation in the code, but the model's `CreateOrUpdate` answers 400.
- The shape of each validation error is left out. `errors.array()` items are
  objects `{ location, param, value, msg }`. `ErrorsJson` keeps only `msg`,
  in the same order.
- UTF-16 detail is left out. JavaScript strings are sequences of UTF-16 code
  units and `JSON.parse` can produce a lone surrogate, which a Dafny `char`
  cannot hold. `split(',')` and `trim` treat well-formed strings the same way
  in both.
- Logging is left out: `console.error`, and the `console.log` of skills at
  routes/api/profile.js:114.
