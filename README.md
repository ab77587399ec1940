# AI-hub server core in Dafny

This project models the decision logic of the AI-hub backend. The backend
brokers text generation, image generation, background and object removal,
and resume review behind a free-quota and premium entitlement layer. It stores
each result as a row of the `creations` table.

It models three parts:

- **The generation handlers** (`server/controllers/aiController.js`). This covers the
  entitlement helpers `checkPremiumStatus`, `getFreeUsage` and `incrementFreeUsage`,
  and the six handlers. Each handler validates its input, applies the quota gate or
  the premium-only gate, calls its provider, inserts a creation, charges the free
  quota (article and blog title only) and responds. The file-bearing handlers also
  clean up the staged upload.
- **The authentication middleware** (`server/middlewares/auth.js`). It extracts the
  user id, writes default `free_usage = 0` and `plan = "free"` into the caller's
  metadata, and derives `req.plan` and `req.free_usage`.
- **The creation ledger endpoints** (`server/controllers/userController.js`). These are
  the likes toggle with its 404 case, and the two listings, filtered and sorted
  newest first.

All external state is one `World` object (`services.dfy`). It holds:

- the identity provider's metadata bag for each principal;
- the count of metadata updates issued;
- the `creations` table and its id sequence;
- the set of files in the staging directory;
- the provider requests issued;
- the object-store uploads issued.

Each external call that can fail gets its outcome from the caller, as a `bool`
or an `Option`. Examples are a `getUser` lookup, a provider reply, a Cloudinary
upload, an INSERT and a metadata write. The store's clock (`now`) and
Cloudinary's URL builder (`transformUrl`) are parameters as well. A principal
missing from the metadata map fails every lookup, just as `getUser` throws for an
unknown user.

Files:

- `js_values.dfy`: the JavaScript value semantics the code relies on: truthiness,
  `Number(...)`, and `x + 1`.
- `services.dfy`: the world and its primitive effects.
- `entitlement.dfy`: the entitlement helpers.
- `auth.dfy`: the middleware.
- `ai_controller.dfy`: the six handlers.
- `user_controller.dfy`: the ledger.

Behaviours of the code that the model makes explicit:

- In the AI handlers, a failed identity lookup does not fail the request. `checkPremiumStatus` answers
  "not premium" and `getFreeUsage` answers 0, so the quota gate fails open on a usage
  lookup error (`Entitlement.GateFailsOpenOnLookupError`).
- `incrementFreeUsage` re-reads the usage through `getFreeUsage`. If that read fails
  and the write succeeds, the count restarts at 1 (`Entitlement.ChargeAfterLookupFailure`).
- The count is charged with JavaScript `+ 1`, so a usage stored as a string grows by
  concatenation: "5" becomes "51" (`Entitlement.StringUsageJumpsPastLimit`).
- A staged file is not deleted on every exit path:
  - `removeImageObject` returns 400 for a missing `object` and leaves the file.
  - `removeImageBackground` leaves the `_nobg.png` cutout when the upload of that
    cutout fails.
- The article, blog-title, auth and ledger handlers return the caught `err.message`
  to the client, modelled as `ErrorMessage`.
- The auth middleware writes back every stored key with its defaults. The identity
  provider deletes the keys whose value is null, so a stored null key disappears
  (`Auth.Persisted`).

## Model

| member | source | states |
|---|---|---|
| JsValues.Truthy | server/controllers/aiController.js:22 | a present value is falsy (for `||` and `!`, also at line 32) exactly when it is null, false, 0 or "" |
| JsValues.TruthyOpt | server/middlewares/auth.js:33 | a possibly-undefined value is falsy exactly when it is undefined, null, false, 0 or "" |
| JsValues.ToNumber | server/middlewares/auth.js:44 | `Number(v)`: a number converts to itself; null, false, 0 and "" convert to 0; true converts to 1; a string or object converts as its string does; NaN is None |
| JsValues.StringToNumber | server/middlewares/auth.js:44 | `Number(s)` on a string: a number exactly when the string is all digits, and then its decimal value; 0 for the empty string; never negative |
| JsValues.DecimalAppend | server/middlewares/auth.js:44 | appending a digit to a digit string multiplies its value by ten and adds the digit |
| JsValues.PlusOne | server/controllers/aiController.js:42 | `v + 1`: integer addition on numbers; on a string or object, that string with "1" appended; never null |
| Entitlement.PremiumStatus | server/controllers/aiController.js:17-27 | false whenever the lookup fails or the principal is unknown; otherwise premium iff `is_premium` is truthy or `plan` is "premium" |
| Entitlement.IsPremium | server/controllers/aiController.js:22 | premium iff `is_premium` is present and truthy, or `plan` is exactly "premium" |
| Entitlement.FreeUsage | server/controllers/aiController.js:32 | the stored `free_usage` when it is truthy, otherwise 0; never null, false or "" |
| Entitlement.FreeUsageStatus | server/controllers/aiController.js:29-36 | 0 on a lookup error or an unknown principal, otherwise the bag's free usage |
| Entitlement.LimitReached | server/controllers/aiController.js:62 | `freeUsage >= 10`: on a number, the comparison itself; never for a falsy value or a non-numeric string |
| Entitlement.QuotaExhausted | server/controllers/aiController.js:59-62 | never for a premium caller; for a free caller whose usage lookup succeeds, exactly when the stored usage reaches the limit |
| Entitlement.Charged | server/controllers/aiController.js:38-47 | a successful write sets the caller's `free_usage` to the re-read usage plus one and keeps every other key and every other principal; a failed write changes nothing |
| Entitlement.GateFailsOpenOnLookupError | server/controllers/aiController.js:59-67 | when the usage lookup errors, the quota gate never rejects |
| Entitlement.ChargePreservesPremium | server/controllers/aiController.js:41-43 | charging never changes whether the caller is premium |
| Entitlement.ChargeAfterLookupFailure | server/controllers/aiController.js:38-43 | a charge whose own lookup fails stores 1, whatever the previous count |
| Entitlement.ChargeAddsOne | server/controllers/aiController.js:38-43 | a charge on a count of k stores k + 1 |
| Entitlement.StringUsageJumpsPastLimit | server/controllers/aiController.js:38-43 | a usage stored as "5" is under the limit; one charge makes it "51", which is over it |
| Entitlement.ChargedTimesCounts | server/controllers/aiController.js:38-43 | n successful charges raise a count of k to k + n |
| Entitlement.ChargedTimesIsolated | server/controllers/aiController.js:41-43 | charging one principal any number of times leaves every other principal's bag untouched |
| Entitlement.FreeQuotaIsTen | server/controllers/aiController.js:62-67 | from an unused quota, the gate rejects after exactly ten charges and not before |
| AiController.Given | server/controllers/aiController.js:53 | a body field passes the `!field` test (also at lines 95, 137 and 288) exactly when it is present and a truthy string |
| AiController.CutoutPath | server/controllers/aiController.js:248 | the cutout's path is the staged path followed by `_nobg.png`, so it never equals the staged path |
| AiController.ObjectPrompt | server/controllers/aiController.js:314 | the stored prompt is "Remove ", then the object name, then " from image" |
| AiController.ReviewPrompt | server/controllers/aiController.js:356 | the review prompt is the fixed instruction followed by the parsed resume text |
| AiController.IncrementFreeUsage | server/controllers/aiController.js:38-47 | issues exactly one metadata update; the metadata becomes `Charged(...)`; the table, the files, providers and uploads are untouched |
| AiController.GenerateArticle | server/controllers/aiController.js:50-89 | 400 with no effect when `prompt` or `length` is falsy; 200/`success:false` with no effect when the quota gate rejects; otherwise one completion request with `parseInt(length)` tokens; on success, exactly one `article` row with the caller's prompt, and a charge iff not premium; on provider or insert failure, 500 with metadata and table unchanged; a failure inside the charge still returns success |
| AiController.GenerateBlogTitle | server/controllers/aiController.js:92-131 | as for the article, with only `prompt` required, a 500-token request and a `blog-title` row |
| AiController.GenerateImage | server/controllers/aiController.js:134-187 | 400 when `prompt` is falsy; a non-premium caller is declined with no provider call, no upload and no row; otherwise one text-to-image request, then an upload of its bytes, then one `image` row with `publish` (default false); metadata and files are never touched |
| AiController.RemoveImageBackground | server/controllers/aiController.js:190-277 | 400 when no file is staged; on every other path the staged file is gone afterwards; non-premium callers are declined before any provider call or upload; without a remove.bg key, the original is uploaded and success carries the degraded-mode message; with a key, both the original and `<path>_nobg.png` are deleted on success, and the cutout remains when its upload fails |
| AiController.RemoveImageObject | server/controllers/aiController.js:280-326 | 400 when no file is staged; 400 for a falsy `object` with the staged file left in place; otherwise the staged file is gone afterwards; non-premium callers are declined before any upload; on success one `image` row with prompt "Remove " + object + " from image" and the transformed URL |
| AiController.ResumeReview | server/controllers/aiController.js:329-381 | 400 when no file is staged; on every other path the staged file is gone afterwards; the premium check comes before the size check; over 5 MiB gives 400 with no provider call; on success one completion request embedding the parsed text, with 1000 tokens, and one `resume-review` row; never touches metadata |
| Auth.ExtractUserId | server/middlewares/auth.js:6-22 | an id exactly when a non-throwing getter or the auth object carries a non-empty one, and then that id; none when the getter throws or `req.auth` is absent |
| Auth.UsageMissing | server/middlewares/auth.js:30 | missing implies falsy, but a stored 0, false or "" is not missing |
| Auth.PlanMissing | server/middlewares/auth.js:33 | missing exactly when the plan is undefined, null, false, 0 or "" |
| Auth.NeedsDefaultsIffChange | server/middlewares/auth.js:29-36 | an update is needed exactly when the written bag would differ from the stored one |
| Auth.DefaultedUsage | server/middlewares/auth.js:26-32 | 0 exactly when `free_usage` is undefined or null; a stored 0 or any other value is kept |
| Auth.DefaultedPlan | server/middlewares/auth.js:27-35 | the default "free" applies exactly when the stored plan is falsy; otherwise the stored plan is kept; always truthy |
| Auth.Normalized | server/middlewares/auth.js:36-40 | the written bag is the old bag plus `free_usage` and `plan`; every other key is kept; it is the old bag itself when no default applies |
| Auth.Persisted | server/middlewares/auth.js:36-40 | the stored bag after the write needs no default; it holds the defaulted `free_usage` and `plan`, keeps every other non-null key, drops the null ones, and adds nothing else |
| Auth.ContextOf | server/middlewares/auth.js:42-44 | the context carries the caller's id, "premium" iff the stored plan is "premium", usage 0 when missing, and a stored number as is |
| Auth.RequestPlan | server/middlewares/auth.js:43 | "premium" iff the stored plan is exactly "premium", otherwise "free" |
| Auth.NormalizedMeta | server/middlewares/auth.js:36-40 | only the caller's bag changes, to the stored merge, and only when a default applies and the write succeeds |
| Auth.Authenticate | server/middlewares/auth.js:3-56 | 401 "Unauthorized" with no effect without a user id; 500 with no effect when the lookup fails; one metadata update iff a default applies; 500 when that update fails; otherwise `next` with the derived plan and `Number(free_usage)` |
| Auth.NormalizeIdempotent | server/middlewares/auth.js:29-44 | once the write is stored, no default applies any more and the stored bag derives the same context; normalising a written bag again changes nothing |
| Auth.NormalizePreservesEntitlement | server/middlewares/auth.js:29-40 | the stored write changes neither `checkPremiumStatus` nor `getFreeUsage` |
| Auth.RequestPlanIgnoresLegacyFlag | server/middlewares/auth.js:43 | `req.plan` premium implies premium status; a bag with only `is_premium: true` is premium yet has `req.plan` "free" |
| Auth.AuthenticateTwice | server/middlewares/auth.js:25-44 | a second request by the same caller yields the same context, with at most one metadata update over both |
| UserController.Without | server/controllers/userController.js:38 | the filtered list has no occurrence of the user; it has every other member and no new one |
| UserController.Toggled | server/controllers/userController.js:37-43 | a toggle flips the user's membership and keeps everyone else's |
| UserController.ToggleMessage | server/controllers/userController.js:37-43 | "Creation Liked" exactly when the user now likes the creation, "Like removed" exactly when not |
| UserController.ToggleKeepsOthers | server/controllers/userController.js:37-43 | the other likers are kept, in the same relative order |
| UserController.ToggleTwiceRestoresAbsent | server/controllers/userController.js:37-43 | two toggles by a user who was absent restore the exact original list |
| UserController.ToggleTwiceMovesPresentToEnd | server/controllers/userController.js:37-43 | two toggles by a user who was present give the others in order followed by the user, with the same set of likers |
| UserController.ToggleTwiceKeepsSingleLike | server/controllers/userController.js:37-43 | two toggles by a user who liked exactly once keep the multiset of likers |
| UserController.WithoutCountOnce | server/controllers/userController.js:38 | filtering removes exactly one element when the user occurs once |
| UserController.InsertByAge | server/controllers/userController.js:5 | inserting keeps every row and adds the new one exactly once |
| UserController.SortNewestFirst | server/controllers/userController.js:5 | the sorted listing is a permutation of its input |
| UserController.SortNewestFirstOrdered | server/controllers/userController.js:5 | the sorted listing is ordered by `created_at`, non-increasing |
| UserController.OwnedBy | server/controllers/userController.js:5 | holds exactly the rows whose `user_id` is the caller, each as often as stored |
| UserController.PublishedRows | server/controllers/userController.js:14 | holds exactly the rows with `publish = true`, each as often as stored |
| UserController.SortKeepsRows | server/controllers/userController.js:5 | sorting neither adds nor drops a row |
| UserController.UserCreations | server/controllers/userController.js:5 | the caller's query is a permutation of the caller's rows, newest first |
| UserController.PublishedCreations | server/controllers/userController.js:14 | the public query is a permutation of the published rows, newest first |
| UserController.UserCreationsExact | server/controllers/userController.js:5 | the caller's listing holds each of the caller's rows as often as stored, and no other row |
| UserController.PublishedCreationsExact | server/controllers/userController.js:14 | the public listing holds each published row as often as stored, and no other row |
| UserController.GetUserCreations | server/controllers/userController.js:3-10 | on success, 200 with the caller's rows newest first; on a query failure, 500 |
| UserController.GetPublishCreations | server/controllers/userController.js:12-19 | on success, 200 with the published rows newest first; on a query failure, 500 |
| UserController.Find | server/controllers/userController.js:25 | finds a row with the requested id, or reports that none has it |
| UserController.ToggleLikeCreation | server/controllers/userController.js:21-51 | 404 "Creation not found" with nothing changed for an unknown id; otherwise only the target row's `likes` changes (no metadata update, no id consumed), to the toggled list (NULL read as empty); the reply carries the stored list and the matching message; 500 with no change when the SELECT or UPDATE fails |
| Services.World.Insert | server/controllers/aiController.js:78-81 | appends exactly one row with a fresh store-assigned id, default `likes` and the clock's `created_at`; ids stay unique |
| Services.World.SetLikes | server/controllers/userController.js:45 | replaces the `likes` of one row and nothing else |
| Services.MergeBag | server/middlewares/auth.js:37-39 | the identity provider's merge: the update's non-null keys overwrite, the other stored keys stay, a key set to null is deleted, and nothing else appears |
| Services.MergeWithoutNull | server/controllers/aiController.js:41-43 | an update with no null value is a plain overwrite of its keys |
| Services.World.UpdateMetadata | server/controllers/aiController.js:41-43 | one update issued; a successful one stores the provider's merge of the changes into the caller's bag |
| Services.World.Unlink | server/controllers/aiController.js:202 | `fs.unlinkSync` of an existing file: exactly that path is removed |
| Services.World.WriteFile | server/controllers/aiController.js:249 | `fs.writeFileSync`: exactly that path is added |
| Services.World.CallProvider | server/controllers/aiController.js:69-74 | exactly one provider request is appended |
| Services.World.IssueUpload | server/controllers/aiController.js:169 | exactly one upload is appended |
| Services.World.DiscardIfExists | server/controllers/aiController.js:269-271 | the catch-block cleanup: the path is absent afterwards, whether or not it existed |

## Left out

- The provider and SDK calls themselves (Gemini chat completions, ClipDrop, remove.bg, Cloudinary upload and URL generation, pdf-parse). Each is an opaque outcome parameter, because what they generate is unspecifiable. Provider requests record the prompt and the token limit, but not the model name or the temperature.
- The base64 data-URI encoding of the generated image and the Cloudinary folder name. The upload records the provider's raw bytes.
- The SQL engine. The table is a sequence, and each query is a filter, a sort or a single-row update. The order of rows with equal `created_at` is the sort's own, not Postgres's. The table's defaults are taken as `publish = false` and `likes` = empty list.
- Concurrency: read-modify-write races on `free_usage` and on `likes` between requests. One request is modelled at a time.
- `console` logging, `req.user` (auth.js:45), and the text of `err.message`. That text is the single value `ErrorMessage`.
- Failures of local file operations (`unlinkSync`, `writeFileSync`, `readFileSync`). They never fail here. The upload middleware's 10 MB limit and multer's own errors are library configuration.
- The identity provider merges nested objects key by key. The model replaces a nested object (`Compound`) as a whole. No key the core reads holds a nested object.
- JavaScript numbers are integers here. Floats and stored NaN are not modelled. A numeric string converts to a number only when it is all digits (or empty). Whitespace, signs, decimals, exponents and hex, which JavaScript also accepts, count as NaN in the model.
- Request-body fields other than `length` are modelled as strings (`prompt`, `object`) or as a JSON boolean (`publish`). `parseInt(length)` is recorded unevaluated in the provider request.
- A provider reply whose `choices[0].message.content` is undefined. A reply is either a string or a thrown call.
- The like toggle's `id` is a natural number. A missing or malformed `id` is part of the SELECT's outcome.
- Express routing, `server.js`, the DB and multer configuration, and the client pages.
