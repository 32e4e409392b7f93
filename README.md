# Nationwide Services site: a Dafny model of its core

This project models the logic behind the Nationwide Services marketing site
and its admin pages, and proves properties of that model. The site is a
Next.js application.

- **Chat endpoint** (`ChatRoute`). The `POST /api/chat` handler:
  - input validation and the credential and knowledge-base checks;
  - model/version resolution;
  - the 404 fallback ladder and model discovery;
  - the translation of upstream failures into HTTP-200 error envelopes.
- **Chat widget** (`ChatWidget`):
  - keyword routing of a message to a local topic or to the endpoint;
  - the `**bold**` and icon rewriting of replies and per-line rendering;
  - category filters and the six-action cap;
  - the widget's state (`class Widget`).
- **Video review dashboard** (`VideoReview`):
  - the 50 MB upload guard and the five-video cap;
  - list replacement and removal by id;
  - `formatDuration`;
  - the dashboard's state (`class Dashboard`).
- **Achievements admin page** (`AchievementsAdmin`):
  - the list URL with page, limit and optional name;
  - form packing (a loop) and the submit target;
  - the date prefix shown when editing;
  - the pagination range;
  - the page state (`class Admin`).
- **Cloudinary request signing** (`Cloudinary`): keys sorted, `key=value`
  pieces joined with `&`, the secret appended, then hashed.
- **Launch countdown** of the home page (`Countdown`).
- **Colour scheme hook** (`ColorSchema`): `getClasses` and `getStyles`.
- **"Why choose us" section** (`WhyChooseUs`):
  - office lookup and the first two contact phones;
  - logo slugs and the failed-logo set;
  - service blurbs.
- **Navigation bar** (`Navbar`): active-link rules, `tel:` links, and the menu state (`class Bar`).
- **Footer** (`Footer`):
  - link sections and social links;
  - the accordion map;
  - scroll visibility and the mount guard (`class FooterState`).

`JsText` holds the JavaScript string and array built-ins the core relies on:
- `trim`, `toLowerCase`, `includes`, `split`/`join`, `find`, `filter`, `slice`;
- `padStart`, number-to-string, `encodeURIComponent`;
- the truncating `%` on numbers.

JavaScript's dynamic features are written out explicitly:
- truthiness and `||` defaults;
- optional chaining;
- the truncating remainder.

Network calls, the hash function and the browser events are inputs: oracle
functions or method parameters.

## Model

| member | source | states |
|---|---|---|
| ChatRoute.ValidateMessage | src/app/api/chat/route.js:6-27 | a message passes iff it is a string that is not all whitespace and at most 1000 characters long; every rejection is a 400, and "too long" is given exactly to a non-blank string over 1000 |
| ChatRoute.RejectionStatus | src/app/api/chat/route.js:6-59 | each early rejection has status 400, 500 or 503: 400 exactly for the two input rejections, 503 exactly for the missing API key, 500 exactly for the missing knowledge base |
| ChatRoute.StatusOf | src/app/api/chat/route.js:274-324 | every reply except an early rejection has HTTP status 200, including upstream failures and the outer catch |
| ChatRoute.ErrorTextsDistinct | src/app/api/chat/route.js:253-271 | every error envelope has a non-empty error text, and the busy, forbidden, generic and server-fault texts are pairwise distinct |
| ChatRoute.ResolveModelAndVersion | src/app/api/chat/route.js:64-73 | the version is always `v1` or `v1beta`, and `v1beta` exactly for `gemini-1.0-pro`; a table id resolves to itself except `gemini-pro`, which becomes `gemini-1.0-pro`; an unknown id maps to itself on `v1` |
| ChatRoute.ResolveIdempotent | src/app/api/chat/route.js:64-73 | resolving the resolved model again gives the same model and version |
| ChatRoute.PrimaryAttempt | src/app/api/chat/route.js:192-196 | an explicit version is used as given and leaves the model id unresolved; without one the version is `v1` or `v1beta` and the model is a fixed point of the alias table; the requested id changes only through the table |
| ChatRoute.DefaultPrimaryAttempt | src/app/api/chat/route.js:62-67 | with neither the model nor the version variable set, the primary call is `gemini-2.0-flash` under `v1` |
| ChatRoute.AliasResolvedOnlyWithoutVersion | src/app/api/chat/route.js:192-196 | `GOOGLE_MODEL=gemini-pro` becomes `gemini-1.0-pro` under `v1beta` without a version variable, and stays `gemini-pro` under the given version with one |
| ChatRoute.StripLatest | src/app/api/chat/route.js:135 | the desired base is the id with one trailing `-latest` removed, and the id itself when there is none |
| ChatRoute.PickClosestSupportedModel | src/app/api/chat/route.js:134-156 | no pick iff no listed model supports `generateContent`; an exact, usable match always wins (the later steps are stated by `LatestBeatsFamily`, `FamilyBeatsAny` and `AnyFallback`) |
| ChatRoute.LatestBeatsFamily | src/app/api/chat/route.js:139-147 | without an exact match, a usable `<base>-latest` model is chosen before any family match |
| ChatRoute.FamilyBeatsAny | src/app/api/chat/route.js:146-151 | without an exact or `-latest` match, the first usable model whose name contains `/models/` and the three-part family is picked, by its short name |
| ChatRoute.AnyFallback | src/app/api/chat/route.js:153-155 | without an exact, `-latest` or family match, the first usable model is picked by its short name, and a nameless one throws |
| ChatRoute.PickedModelIsServed | src/app/api/chat/route.js:134-156 | every picked id names a listed model that supports `generateContent` |
| ChatRoute.ShortNameServed | src/app/api/chat/route.js:150 | the short name taken after the last `/models/` is a suffix of the full name |
| ChatRoute.FirstSettled | src/app/api/chat/route.js:231-233 | the `||` chain over three desired ids yields a settled pick or none |
| ChatRoute.FirstSettledAt | src/app/api/chat/route.js:231-233 | the chain returns the pick for the first desired id whose pick settles |
| ChatRoute.FirstSettledNone | src/app/api/chat/route.js:231-233 | when no desired id settles, the chain yields no model |
| ChatRoute.CallGenerate | src/app/api/chat/route.js:158-190 | a call that throws or is aborted becomes a non-ok 408 response; otherwise it is the upstream response |
| ChatRoute.Flip | src/app/api/chat/route.js:209 | the other version is always `v1` or `v1beta` and differs from the given one |
| ChatRoute.TroubleFor | src/app/api/chat/route.js:259-272 | the busy text exactly for 429 and the forbidden text exactly for 403 |
| ChatRoute.EchoId | src/app/api/chat/route.js:299 | a truthy conversation id is echoed back; a falsy one becomes `null` |
| ChatRoute.Conclude | src/app/api/chat/route.js:248-307 | always status 200; a soft error exactly when the final response is not ok, chosen by its status, with the knowledge-base contact; an answer names the serving model and echoes the id, and carries the model's non-empty text |
| ChatRoute.Post | src/app/api/chat/route.js:1-326 | the handler, with its fallback and discovery loops, returns exactly the reply and the call trace of the specification function `PostSpec` |
| ChatRoute.TryStrategies | src/app/api/chat/route.js:214-223 | the strategy loop calls the fallback strategies in order and ends in the state the recursive strategy specification gives: the first ok response with its strategy, or the primary response after all four calls |
| ChatRoute.Discover | src/app/api/chat/route.js:225-245 | the discovery loop over `[version, other version]` ends in the state the recursive discovery specification gives |
| ChatRoute.RunStrategiesExtends | src/app/api/chat/route.js:214-223 | the fallback loop only appends to the call trace |
| ChatRoute.RunDiscoveryExtends | src/app/api/chat/route.js:226-245 | discovery only appends to the call trace |
| ChatRoute.DiscoverOneExtends | src/app/api/chat/route.js:228-243 | one discovery step appends calls and lists exactly its version |
| ChatRoute.TryPickExtends | src/app/api/chat/route.js:234-242 | trying a pick appends calls and lists no version |
| ChatRoute.DiscoverOneKeeps | src/app/api/chat/route.js:228-243 | a discovery step that does not succeed leaves the response and attempt untouched |
| ChatRoute.TryPickKeeps | src/app/api/chat/route.js:234-242 | a pick whose call fails leaves the response and attempt untouched |
| ChatRoute.DiscoverOneConsistent | src/app/api/chat/route.js:228-243 | a discovery step keeps the attempt it holds called, and an ok response it holds is that attempt's response |
| ChatRoute.TryPickConsistent | src/app/api/chat/route.js:234-242 | trying a pick keeps the same consistency |
| ChatRoute.RunStrategiesConsistent | src/app/api/chat/route.js:214-223 | the fallback loop keeps the same consistency |
| ChatRoute.RunDiscoveryConsistent | src/app/api/chat/route.js:226-245 | discovery keeps the same consistency |
| ChatRoute.FallbackStartsWithPrimary | src/app/api/chat/route.js:199-201 | the first call made is always the primary attempt |
| ChatRoute.NoLadderUnless404 | src/app/api/chat/route.js:204 | an ok or non-404 primary response makes no further call and is final |
| ChatRoute.RunStrategiesFirstOk | src/app/api/chat/route.js:214-223 | the loop stops at the first strategy whose response is ok, and serves that strategy |
| ChatRoute.RunStrategiesAllFail | src/app/api/chat/route.js:214-223 | when every strategy fails, all are called and the response and attempt are unchanged |
| ChatRoute.FirstSuccessfulStrategyWins | src/app/api/chat/route.js:207-223 | after a primary 404 the first ok strategy of the four serves the request, and no later strategy is called |
| ChatRoute.DiscoveryAfterStrategies | src/app/api/chat/route.js:225-228 | discovery runs exactly when all four strategies fail, over the attempt's version and then the other version |
| ChatRoute.ListedVersionsAppend | src/app/api/chat/route.js:228-229 | the listed versions of a concatenated trace are the two traces' listed versions in order |
| ChatRoute.DiscoveryListsInOrder | src/app/api/chat/route.js:227-229 | discovery lists a non-empty prefix of the preferred version order, in that order |
| ChatRoute.DiscoveryStopsAtFirstOk | src/app/api/chat/route.js:236-242 | once a version's picked model answers ok, discovery ends with that response under that version: its listing and the one generate call are the last calls |
| ChatRoute.DiscoveryFailureKeepsState | src/app/api/chat/route.js:226-245 | failed discovery leaves the failing response and the attempt as they were |
| ChatRoute.FallbackConsistent | src/app/api/chat/route.js:199-246 | at the end of the ladder the attempt reported was called, and an ok response is that attempt's |
| ChatRoute.LadderFailureKeeps404 | src/app/api/chat/route.js:204-246 | when the ladder started by a 404 fails, the response reported is still the 404 |
| ChatRoute.RejectionsComeFirst | src/app/api/chat/route.js:6-59 | the status is 200, 400, 500 or 503; a non-200 exactly for a rejected request; no upstream call before all checks pass; the primary attempt comes first |
| ChatRoute.ConfigurationRejections | src/app/api/chat/route.js:28-59 | for a valid message, a missing API key gives the 503 rejection and a missing knowledge base (with a key) the 500 rejection, both before any upstream call; 503 and 500 occur exactly in those cases |
| ChatRoute.InvalidMessageFirst | src/app/api/chat/route.js:6-59 | a missing, non-string, blank or over-long message is refused with its own 400 reply whatever the credential and knowledge base are, and nothing upstream is called: message validation comes before the 503 and 500 checks |
| ChatRoute.NonObjectBodyRefused | src/app/api/chat/route.js:3-15 | a JSON body that is not an object destructures to no message and is refused with 400 before any upstream call |
| ChatRoute.AcceptedRequestRunsLadder | src/app/api/chat/route.js:192-246 | an accepted request's reply is the conclusion of the fallback ladder on the primary attempt |
| ChatRoute.PrimaryFailureReported | src/app/api/chat/route.js:249-277 | a non-404 primary failure gives a soft error chosen by its status, after exactly one call |
| ChatRoute.After404OnlyGenericError | src/app/api/chat/route.js:204-272 | after a primary 404 every soft error is the generic one |
| ChatRoute.AnswerNamesServingModel | src/app/api/chat/route.js:293-300 | an answer's model was called on some version and answered ok |
| ChatWidget.RouteByFirst | src/app/components/chatbubble.jsx:350-443 | the first rule with a keyword in the message decides its route |
| ChatWidget.RouteByNone | src/app/components/chatbubble.jsx:350-446 | a message that matches no rule goes to the endpoint |
| ChatWidget.ClassifyFirstRule | src/app/components/chatbubble.jsx:350-443 | the first of the seven keyword rules that matches decides the route, and the endpoint is not called |
| ChatWidget.ClassifyApiIffNoRule | src/app/components/chatbubble.jsx:350-446 | a message goes to the endpoint iff its lower-cased text matches no rule keyword |
| ChatWidget.CertifiedQuickActionRoutesToVisa | src/app/components/chatbubble.jsx:188-193 | the "Certified Consultants" quick action is answered by the visa topic, because "immigration" matches before "certif" |
| ChatWidget.SameAfterCapital | src/app/components/chatbubble.jsx:190 | lower-casing the certified query changes only its initial capital |
| ChatWidget.EndpointMessage | src/app/components/chatbubble.jsx:446-491 | the reply is HTML iff the endpoint answered without `error`; an `error` gives the connection-trouble text, a failed fetch the unavailable text; a non-empty reply is formatted, otherwise the fallback sentence |
| ChatWidget.BotReplies | src/app/components/chatbubble.jsx:349-491 | a university query adds no bot message; every other route adds exactly one; a local topic adds its canned answer, which is not HTML |
| ChatWidget.EndpointRepliesShown | src/app/components/chatbubble.jsx:453-476 | composed with the endpoint, the widget shows HTML exactly for an answer, the model's text formatted, and the connection-trouble text for every error envelope |
| ChatWidget.BoldPlain | src/app/components/chatbubble.jsx:325 | text without `**` is left unchanged by the bold rewrite |
| ChatWidget.BoldWraps | src/app/components/chatbubble.jsx:325 | a `**w**` span, with `w` free of `*` and line breaks, becomes `<strong>w</strong>` and the rest is rewritten the same way |
| ChatWidget.ReplaceAllCIAbsent | src/app/components/chatbubble.jsx:328-334 | a case-insensitive replacement whose pattern does not occur changes nothing |
| ChatWidget.FormatPlainText | src/app/components/chatbubble.jsx:321-337 | text with no `**` and no icon keyword is returned unchanged by `formatMessage` |
| ChatWidget.IconsAbsent | src/app/components/chatbubble.jsx:328-334 | the chain of icon replacements changes nothing when none of the keywords occurs |
| ChatWidget.Render | src/app/components/chatbubble.jsx:548-560 | HTML is one markup block; plain text gives one block per line, a break exactly for a blank line, and otherwise the line with bold applied |
| ChatWidget.ByCategory | src/app/components/chatbubble.jsx:540-546 | `all` keeps everything; otherwise exactly the entries of the active category remain |
| ChatWidget.ByCategoryAppend | src/app/components/chatbubble.jsx:540-546 | filtering distributes over concatenation, so order is kept |
| ChatWidget.Capped | src/app/components/chatbubble.jsx:658 | the shown quick actions are the first min(6, n) of the filtered ones |
| ChatWidget.AllCategoryCapped | src/app/components/chatbubble.jsx:544-546 | under `all`, exactly the first six quick actions are shown |
| ChatWidget.QuickActionsSend | src/app/components/chatbubble.jsx:157-206 | every quick action's query survives the blank-message guard of `handleSend` |
| ChatWidget.QuickTipsSend | src/app/components/chatbubble.jsx:810-826 | every tip button's query survives the blank-message guard of `handleSend` |
| ChatWidget.SuggestionsAfter | src/app/components/chatbubble.jsx:306-318 | more than two messages hide the suggestions; opening shows them iff at most one message exists; otherwise they are unchanged |
| ChatWidget.Widget.constructor | src/app/components/chatbubble.jsx:37-50 | the widget starts closed with only the greeting, no input, suggestions on, category `all` |
| ChatWidget.Widget.SetOpen | src/app/components/chatbubble.jsx:306-311 | opening or closing changes only the open flag and, on opening, the suggestions |
| ChatWidget.Widget.SetInput | src/app/components/chatbubble.jsx:888 | typing changes only the input |
| ChatWidget.Widget.HandleSend | src/app/components/chatbubble.jsx:339-492 | a blank message changes nothing; otherwise the trimmed message and the route's replies are appended, the input is cleared, loading ends, and the endpoint is called iff no rule matched |
| ChatWidget.Widget.Deliver | src/app/components/chatbubble.jsx:343-492 | a routed message appends the user message and the route's bot replies; a university route opens the selection |
| ChatWidget.Widget.HandleQuickAction | src/app/components/chatbubble.jsx:494-499 | pressing a suggestion sends its query with exactly the effects `handleSend` has on typed text: a blank query changes nothing, otherwise the trimmed query and its routed replies are appended and the input, loading flag and suggestions are cleared |
| ChatWidget.Widget.HandleUniversitySelect | src/app/components/chatbubble.jsx:501-522 | choosing a university closes the selection and appends its card; suggestions are hidden when the widget is open, and when closed stay shown only if they were and the log has at most two messages |
| ChatWidget.Widget.ClearChat | src/app/components/chatbubble.jsx:524-538 | clearing leaves only the greeting, closes the selection, shows the suggestions and resets the category |
| ChatWidget.Widget.SetCategory | src/app/components/chatbubble.jsx:643 | choosing a category changes only the category |
| VideoReview.FileGuardBoundary | src/app/nws/videoReview/page.js:66-75 | a file of exactly 50 MiB is accepted, one byte more is refused, and no file is refused |
| VideoReview.ReplaceById | src/app/nws/videoReview/page.js:188-190 | every video with the id is replaced by the updated one and every other video is kept in place |
| VideoReview.ReplaceMissingId | src/app/nws/videoReview/page.js:188-190 | an id that is not in the list leaves it unchanged |
| VideoReview.ReplaceIdempotent | src/app/nws/videoReview/page.js:240-242 | replacing twice with the same video is replacing once |
| VideoReview.RemoveById | src/app/nws/videoReview/page.js:305 | removal drops exactly the videos with the id, keeping every other one |
| VideoReview.RemoveAppend | src/app/nws/videoReview/page.js:305 | removal distributes over concatenation, so order is kept |
| VideoReview.RemoveMissingId | src/app/nws/videoReview/page.js:305 | removing an absent id changes nothing |
| VideoReview.RemoveAfterReplace | src/app/nws/videoReview/page.js:188-190 | deleting a video after updating it gives the same list as deleting it directly |
| VideoReview.RemainingSlots | src/app/nws/videoReview/page.js:457 | the remaining-slot count plus the list length is 5, and it is positive iff another upload is offered |
| VideoReview.DurationParts | src/app/nws/videoReview/page.js:354-355 | for a non-negative duration, minutes and seconds below 60 recombine to its whole seconds |
| VideoReview.FormatDurationFalsy | src/app/nws/videoReview/page.js:353 | a missing or zero duration reads `0:00` |
| VideoReview.FormatDurationReadsBack | src/app/nws/videoReview/page.js:352-357 | a positive duration prints as `m:ss`, with two-digit seconds below 60, and reads back as its whole seconds |
| VideoReview.TwoDigitValue | src/app/nws/videoReview/page.js:356 | seconds below 60 padded to two digits are two digits that read back as the number |
| VideoReview.Dashboard.constructor | src/app/nws/videoReview/page.js:5-26 | the dashboard starts with the given list, an empty upload form, no edit and no transfer |
| VideoReview.Dashboard.SelectFile | src/app/nws/videoReview/page.js:52-60 | a chosen file is stored in the upload form; no file changes nothing |
| VideoReview.Dashboard.UploadInputChange | src/app/nws/videoReview/page.js:336-341 | a field change updates that field of the upload form only |
| VideoReview.Dashboard.StartUpload | src/app/nws/videoReview/page.js:63-79 | an upload is sent exactly when the selected file passes the guard, and then uploading is set |
| VideoReview.Dashboard.FinishUpload | src/app/nws/videoReview/page.js:100-110 | a stored video is appended and the form cleared; a failure changes neither |
| VideoReview.Dashboard.SettleUpload | src/app/nws/videoReview/page.js:125-168 | once the upload settles, uploading ends |
| VideoReview.Dashboard.StartVideoUpdate | src/app/nws/videoReview/page.js:204-218 | a file update is sent exactly when the file passes the guard, and marks that video as updating |
| VideoReview.Dashboard.FinishVideoUpdate | src/app/nws/videoReview/page.js:236-242 | a stored update replaces the video with the id; a failure changes nothing |
| VideoReview.Dashboard.SettleVideoUpdate | src/app/nws/videoReview/page.js:252-289 | once the update settles, no video is updating |
| VideoReview.Dashboard.StartEdit | src/app/nws/videoReview/page.js:318-327 | editing loads the video's five editable fields and its id |
| VideoReview.Dashboard.CancelEdit | src/app/nws/videoReview/page.js:330-333 | cancelling clears the edit id and the edit form |
| VideoReview.Dashboard.EditInputChange | src/app/nws/videoReview/page.js:343-349 | a checkbox stores its checked flag and any other input its text, under its name |
| VideoReview.Dashboard.SaveEdit | src/app/nws/videoReview/page.js:176-201 | a successful save replaces the video and closes the edit; a failure keeps everything |
| VideoReview.Dashboard.Delete | src/app/nws/videoReview/page.js:297-315 | a confirmed, successful delete removes the video with the id; otherwise nothing changes |
| AchievementsAdmin.PackedFields | src/app/nws/achievements/page.js:98-101 | title and date are sent iff non-empty, a chosen photo is always sent, no photo means no `photo` key, and an empty form sends nothing |
| AchievementsAdmin.PackForm | src/app/nws/achievements/page.js:98-101 | the packing loop appends exactly the truthy fields, in key order |
| AchievementsAdmin.FetchUrl | src/app/nws/achievements/page.js:68-69 | the URL always starts with the page and limit query, is exactly that query iff the name is empty, and otherwise ends with `&name=` and the encoded name |
| AchievementsAdmin.SubmitTarget | src/app/nws/achievements/page.js:103-104 | PUT to the record's path when editing, POST to the collection otherwise |
| AchievementsAdmin.DeletePathDiffersFromUpdate | src/app/nws/achievements/page.js:103-127 | the delete path (lower-case `achievements`) never equals the update path (capital `Achievements`) for the same id |
| AchievementsAdmin.DatePrefixSpec | src/app/nws/achievements/page.js:144 | the date shown when editing is the longest prefix of the stored date without `T`, and a `T` follows it unless it is the whole date |
| AchievementsAdmin.ShowingRangeWithin | src/app/nws/achievements/page.js:577-578 | on a page that holds records, the range shown lies within 1..total and covers min(limit, remaining) records |
| AchievementsAdmin.PageHoldsRecords | src/app/nws/achievements/page.js:569-578 | a page is within the page count iff records precede it |
| AchievementsAdmin.OrElse | src/app/nws/achievements/page.js:77-78 | a present non-zero number is kept; a missing or zero one takes the fallback |
| AchievementsAdmin.Admin.constructor | src/app/nws/achievements/page.js:22-44 | the page starts empty, with no error, an empty form, no edit and page 1 of 1 with a limit of 12 |
| AchievementsAdmin.Admin.Fetch | src/app/nws/achievements/page.js:64-86 | a fetch requests the list URL; success replaces the list and the page counts, clearing the error; failure keeps both and records the message |
| AchievementsAdmin.FetchEffect | src/app/nws/achievements/page.js:64-86 | a successful fetch takes the list and both page counts from the body, moves to the requested page and clears the error; a failed one keeps list and pages and records the message; the limit never changes |
| AchievementsAdmin.RequestError | src/app/nws/achievements/page.js:110-131 | a create, update or delete that is not ok records its fixed message, and one that throws records the thrown message |
| AchievementsAdmin.Admin.Mount | src/app/nws/achievements/page.js:50-52 | the page first fetches page 1 with no name |
| AchievementsAdmin.Admin.Search | src/app/nws/achievements/page.js:89-91 | a settled search term (or Reset, with the term empty) is kept and page 1 of its matches is fetched |
| AchievementsAdmin.Admin.PageChange | src/app/nws/achievements/page.js:169-174 | a page is requested, with the current search term, iff it lies in 1..totalPages, and then the state is that fetch's effect; otherwise nothing changes |
| AchievementsAdmin.Admin.ResetForm | src/app/nws/achievements/page.js:162-166 | the form, the edit id and the error are cleared |
| AchievementsAdmin.Admin.Edit | src/app/nws/achievements/page.js:139-148 | editing loads the record's fields, its date prefix and no photo, and opens the form |
| AchievementsAdmin.Admin.Submit | src/app/nws/achievements/page.js:94-121 | the packed form goes to the submit target; a response that is not ok records the create or update error, a thrown request its own message, and both keep the form, list and pages; an ok response refetches the page being viewed with the current term, taking the list and page counts from a successful refetch and keeping them on a failed one, then clears the form and any error and closes it |
| AchievementsAdmin.Admin.Saved | src/app/nws/achievements/page.js:113-115 | after a save the current page is refetched with the current term (list and page counts follow the refetch's outcome), then the form is reset and closed, which clears any refetch error |
| AchievementsAdmin.Admin.Remove | src/app/nws/achievements/page.js:124-136 | a delete always clears the confirmation; a response that is not ok records "Failed to delete", a thrown request its own message, and both keep the list and pages; an ok response refetches the page being viewed with the current term, whose outcome decides list, pages and error |
| Cloudinary.StrLessTransitive | src/lib/cloudinary.js:6 | the string order used by `sort()` is transitive |
| Cloudinary.StrLessTotal | src/lib/cloudinary.js:6 | any two distinct strings are ordered one way or the other |
| Cloudinary.StrLessIrreflexive | src/lib/cloudinary.js:6 | no string is below itself |
| Cloudinary.Insert | src/lib/cloudinary.js:6 | insertion adds exactly the new key |
| Cloudinary.InsertSorted | src/lib/cloudinary.js:6 | inserting an absent key into strictly sorted keys keeps them strictly sorted |
| Cloudinary.Sort | src/lib/cloudinary.js:6 | sorting keeps the length and the set of keys |
| Cloudinary.SortSorted | src/lib/cloudinary.js:6 | distinct keys sort into strictly increasing order |
| Cloudinary.SortedUnique | src/lib/cloudinary.js:6 | two strictly sorted sequences with the same members are equal |
| Cloudinary.Keys | src/lib/cloudinary.js:6 | the key list has one key per entry, in insertion order |
| Cloudinary.ValueOfEntry | src/lib/cloudinary.js:7 | in an object with distinct keys, `params[k]` is the value stored under `k` |
| Cloudinary.Pieces | src/lib/cloudinary.js:7 | each piece is `key=value` for the key at that position |
| Cloudinary.CanonicalListsEveryEntry | src/lib/cloudinary.js:5-7 | the string to sign lists every entry as `key=value`, with keys strictly increasing |
| Cloudinary.SignatureOrderIndependent | src/lib/cloudinary.js:5-8 | two objects with the same entries get the same signature whatever their insertion order |
| Cloudinary.EmptyParamsSignSecret | src/lib/cloudinary.js:5-8 | without parameters the string to sign is empty, so the signature is the hash of the secret alone |
| Cloudinary.ApiSignRequest | src/lib/cloudinary.js:5 | missing parameters default to `{}` and a missing secret to `''` |
| Countdown.FloorQuotients | src/app/page.js:17-20 | the floor of the exact quotient by each unit is the integer quotient |
| Countdown.SecondsUnit | src/app/page.js:20 | the seconds field is the whole seconds less sixty times the whole minutes |
| Countdown.MinutesUnit | src/app/page.js:19 | the minutes field is the whole minutes less sixty times the whole hours |
| Countdown.HoursUnit | src/app/page.js:18 | the hours field is the whole hours less twenty-four times the whole days |
| Countdown.PastLaunchIsEmpty | src/app/page.js:13-15 | when the launch has passed the result is the empty object |
| Countdown.UnitsAddUp | src/app/page.js:15-22 | before the launch, hours < 24, minutes and seconds < 60, and the four units add up to the whole seconds left |
| Countdown.Tiles | src/app/page.js:96 | no tiles after the launch, otherwise four |
| Countdown.TilesInKeyOrder | src/app/page.js:96-104 | the tiles list days, hours, minutes and seconds in that order with their values |
| ColorSchema.Lookup | src/app/hooks/useColorSchema.js:54 | a found value is stored under the key; nothing is found iff no entry has the key |
| ColorSchema.LookupEntry | src/app/hooks/useColorSchema.js:54 | in a table with distinct keys, each entry is found under its own key |
| ColorSchema.TablesDistinct | src/app/hooks/useColorSchema.js:25-52 | the class tables have distinct type and variant keys |
| ColorSchema.GetClassesTable | src/app/hooks/useColorSchema.js:24-55 | every type and variant in the table yields its class string |
| ColorSchema.GetClassesMissing | src/app/hooks/useColorSchema.js:54 | a type and variant pair that is not in the table yields `''` |
| ColorSchema.ClassesNonEmpty | src/app/hooks/useColorSchema.js:25-52 | every class string in the table is non-empty, so `|| ''` only serves missing pairs |
| ColorSchema.DefaultVariantHasNoClasses | src/app/hooks/useColorSchema.js:24 | the default variant `main` names no class table entry, so `getClasses(type)` is always `''` |
| ColorSchema.GetStyles | src/app/hooks/useColorSchema.js:77 | an unknown style kind yields `{}` |
| ColorSchema.GetStylesTable | src/app/hooks/useColorSchema.js:58-78 | every kind and variant in the table yields its style |
| ColorSchema.DefaultVariantStyles | src/app/hooks/useColorSchema.js:58-77 | the default variant gives the solid main style for primary and secondary, and `{}` for neutral |
| WhyChooseUs.Offices | src/app/components/ui/home/whyChooseUS.js:94 | a missing contact or offices list reads as no offices |
| WhyChooseUs.CanadaOffice | src/app/components/ui/home/whyChooseUS.js:95 | the first office in Canada, and none iff no office is in Canada |
| WhyChooseUs.IndiaOfficesSpec | src/app/components/ui/home/whyChooseUS.js:96 | exactly the offices in India, in order |
| WhyChooseUs.AllPhonesAppend | src/app/components/ui/home/whyChooseUS.js:97 | the flattened phones of two office lists are their phones in order |
| WhyChooseUs.ContactPhones | src/app/components/ui/home/whyChooseUS.js:97 | the contact phones are the first min(2, n) phones of all offices in order |
| WhyChooseUs.PhonelessOfficeAddsNothing | src/app/components/ui/home/whyChooseUS.js:97 | an office without phones contributes none |
| WhyChooseUs.FirstOfficePhones | src/app/components/ui/home/whyChooseUS.js:97 | a first office with two phones supplies both contact phones |
| WhyChooseUs.DashRuns | src/app/components/ui/home/whyChooseUS.js:268 | replacing whitespace runs leaves no whitespace and does not lengthen; text without whitespace is unchanged |
| WhyChooseUs.WhitespaceRunIsOneDash | src/app/components/ui/home/whyChooseUS.js:268 | a whole run of whitespace between a word and the rest becomes one dash |
| WhyChooseUs.Slug | src/app/components/ui/home/whyChooseUS.js:266-269 | a slug holds only `a-z`, `0-9` and `-` |
| WhyChooseUs.SlugOfSlug | src/app/components/ui/home/whyChooseUS.js:266-269 | a string already made of slug characters is its own slug |
| WhyChooseUs.SlugIdempotent | src/app/components/ui/home/whyChooseUS.js:266-270 | slugging a slug changes nothing |
| WhyChooseUs.Dedup | src/app/components/ui/home/whyChooseUS.js:284 | `Array.from(new Set(..))` keeps the same members without duplicates |
| WhyChooseUs.DedupNoDup | src/app/components/ui/home/whyChooseUS.js:284 | a list without duplicates is unchanged by deduplication |
| WhyChooseUs.AddFailedSpec | src/app/components/ui/home/whyChooseUS.js:277-284 | after a logo fails it is no longer shown, every other logo keeps its state, and an index is recorded once |
| WhyChooseUs.Blurb | src/app/components/ui/home/whyChooseUS.js:350 | the blurb is the fixed opening, the lower-cased service, then the fixed closing |
| WhyChooseUs.BlurbDistinguishes | src/app/components/ui/home/whyChooseUS.js:350 | two services get the same blurb iff they agree when lower-cased |
| Navbar.ServiceItemsUnderPrefix | src/app/components/Navbar.jsx:56-62 | every service page lies under `/immigration` |
| Navbar.ServicePageHighlightsButton | src/app/components/Navbar.jsx:115-160 | on an active service page the services button is highlighted and no plain link is |
| Navbar.AtMostOnePlainActive | src/app/components/Navbar.jsx:47-52 | no two plain links are active on the same path |
| Navbar.Digits | src/app/components/Navbar.jsx:205 | the `tel:` number keeps only digits |
| Navbar.DigitsSpec | src/app/components/Navbar.jsx:205 | stripping non-digits distributes over concatenation, keeps digits and drops everything else |
| Navbar.TelHref | src/app/components/Navbar.jsx:205 | a `tel:` href is the scheme followed by digits only, never longer than the number |
| Navbar.DialledDigits | src/app/components/Navbar.jsx:43-44 | a number written `+cc nnnnn-nnnnn`, as both menu numbers are, dials exactly its three digit groups |
| Navbar.NextDropdown | src/app/components/Navbar.jsx:32-34 | toggling the open dropdown closes it; toggling another opens that one |
| Navbar.ToggleDropdownTwice | src/app/components/Navbar.jsx:32-34 | toggling the same dropdown twice restores the state |
| Navbar.Bar.constructor | src/app/components/Navbar.jsx:13-17 | the bar starts with every menu closed and not scrolled |
| Navbar.Bar.Scroll | src/app/components/Navbar.jsx:22 | the bar is marked scrolled iff the page is more than 10 pixels down |
| Navbar.Bar.ToggleMenu | src/app/components/Navbar.jsx:27-30 | the menu flips and the body scroll lock follows it |
| Navbar.Bar.ToggleDropdown | src/app/components/Navbar.jsx:32-34 | the active dropdown toggles and nothing else changes |
| Navbar.Bar.CloseMobileMenu | src/app/components/Navbar.jsx:36-40 | the menu and dropdown close and the body scroll lock is released |
| Navbar.Bar.HoverServices | src/app/components/Navbar.jsx:110-111 | the services menu is open exactly while hovered |
| Navbar.Bar.TogglePhone | src/app/components/Navbar.jsx:183 | the phone menu flips |
| Footer.InstagramAnchorHasNoHref | src/app/components/footer.jsx:103-108 | as written, the Instagram entry stores its URL under `ref`, so its anchor has no `href` |
| Footer.IntendedSocialAnchorsLink | src/app/components/footer.jsx:103-113 | with the URL stored as `href`, every social anchor links to its own URL |
| Footer.MobileLinkBackgroundIsEmpty | src/app/components/footer.jsx:304 | as written, the mobile link background `getClasses('bg', 'perimary')` is empty |
| Footer.IntendedMobileLinkBackgroundIsBrand | src/app/components/footer.jsx:304 | spelt `primary`, the variant yields the brand background `bg-[#CB342A]` |
| Footer.Toggle | src/app/components/footer.jsx:42-47 | toggling flips the expansion of that section only |
| Footer.ToggleParity | src/app/components/footer.jsx:42-47 | after a series of toggles a section's state is flipped iff it was toggled an odd number of times |
| Footer.ExpandedIffOddToggles | src/app/components/footer.jsx:13-47 | from the empty map, a section is open iff it was toggled an odd number of times |
| Footer.DesktopLayout | src/app/components/footer.jsx:193-229 | the desktop layout shows the first two sections as link columns and the third as the contact column |
| Footer.FooterState.constructor | src/app/components/footer.jsx:12-14 | the footer starts unmounted, hidden, with no section open |
| Footer.FooterState.Mount | src/app/components/footer.jsx:16-18 | mounting sets the mounted flag only |
| Footer.FooterState.Scroll | src/app/components/footer.jsx:21-27 | the back-to-top button is visible iff the page is more than 300 pixels down |
| Footer.FooterState.ToggleSection | src/app/components/footer.jsx:42-47 | the accordion map is updated by the toggle of that section |
| Footer.FooterState.MobileLinkClick | src/app/components/footer.jsx:305 | following a mobile link closes every section |
| Footer.FooterState.Render | src/app/components/footer.jsx:124-304 | nothing is rendered before mounting; afterwards the link sections are the desktop columns and the contact section the contact column, the back-to-top button follows the visibility, the Instagram anchor has no link and the WhatsApp anchor links to its URL, and the mobile link class is empty |
| Footer.FooterState.IntendedRender | src/app/components/footer.jsx:106-304 | with both slips corrected, both social anchors link to their URLs and the mobile links get the brand background, and nothing else differs from what is rendered |
| JsText.TrimEmptyIffAllWhiteSpace | src/app/api/chat/route.js:6 | `trim()` is empty iff the string is all whitespace |
| JsText.TrimUnpadded | src/app/components/chatbubble.jsx:340 | a string without leading or trailing whitespace is its own trim |
| JsText.Lower | src/app/components/chatbubble.jsx:350 | lower-casing maps every character and keeps the length |
| JsText.LowerHasNoCapitals | src/app/components/chatbubble.jsx:350 | a lower-cased string has no ASCII capital |
| JsText.ContainsIffFound | src/app/components/chatbubble.jsx:352 | `includes` holds iff a search finds an occurrence |
| JsText.JoinSplit | src/app/api/chat/route.js:147 | joining the parts of a split with the separator restores the string |
| JsText.SplitHead | src/app/nws/achievements/page.js:144 | the first part of a split is a prefix without the separator, and is the whole string when the separator is absent |
| JsText.SplitLast | src/app/api/chat/route.js:150 | the last part of a split is a suffix, preceded by the separator when it occurs |
| JsText.FirstWhere | src/app/components/ui/home/whyChooseUS.js:95 | `find` returns the first matching position, and none iff nothing matches |
| JsText.Filter | src/app/components/ui/home/whyChooseUS.js:96 | `filter` keeps exactly the matching elements |
| JsText.FilterAppend | src/app/components/ui/home/whyChooseUS.js:96 | `filter` distributes over concatenation |
| JsText.Take | src/app/components/ui/home/whyChooseUS.js:97 | `slice(0, n)` is the first min(n, length) elements |
| JsText.NatToStringValue | src/app/nws/videoReview/page.js:356 | the decimal text of a number reads back as that number |
| JsText.PadStart2 | src/app/nws/videoReview/page.js:356 | `padStart(2, '0')` gives at least two characters, ends with the text and pads with zeros |
| JsText.Trunc | src/app/page.js:18-20 | truncation toward zero, as JavaScript's `%` uses |
| JsText.Rem60 | src/app/nws/videoReview/page.js:355 | `x % 60` has the sign of `x` and magnitude below 60 |
| JsText.Rem24 | src/app/page.js:18 | `x % 24` has the sign of `x` and magnitude below 24 |
| JsText.EncodeUriComponent | src/app/nws/achievements/page.js:69 | the encoding holds only URI-safe characters and leaves unreserved text unchanged |

Several functions that model the code are specified by lemmas rather than by
contracts of their own. Their properties are in these rows:

- `Countdown.CalculateTimeLeft`: `PastLaunchIsEmpty`, `UnitsAddUp`, `TilesInKeyOrder`.
- `ColorSchema.GetClasses`: `GetClassesTable`, `GetClassesMissing`, `DefaultVariantHasNoClasses`.
- `ChatWidget.Classify`: `ClassifyFirstRule`, `ClassifyApiIffNoRule`, `CertifiedQuickActionRoutesToVisa`.
- `ChatWidget.FormatMessage`: `FormatPlainText`.
- `ChatWidget.RenderMessage`: `ChatWidget.Render`, which it applies to the message's text and markup flag.
- `Cloudinary.Signature`: `ApiSignRequest`, `SignatureOrderIndependent`, `EmptyParamsSignSecret`.
- `VideoReview.FormatDuration`: `FormatDurationFalsy`, `FormatDurationReadsBack`.
- `VideoReview.FileAccepted`: `FileGuardBoundary`, and the upload methods that use it.
- `ChatRoute.PostSpec`: `Post`, `RejectionsComeFirst`, `ConfigurationRejections`, `NonObjectBodyRefused`, `AcceptedRequestRunsLadder`, `PrimaryFailureReported`, `After404OnlyGenericError`, `AnswerNamesServingModel`.
- `ChatRoute.Fallback`: `FallbackStartsWithPrimary`, `NoLadderUnless404`, `FirstSuccessfulStrategyWins`, `DiscoveryAfterStrategies`, `FallbackConsistent`, `LadderFailureKeeps404`.
- `WhyChooseUs.AddFailed`: `AddFailedSpec`.
- `AchievementsAdmin.DatePrefix`: `DatePrefixSpec`, and `Admin.Edit`.
- `AchievementsAdmin.ShowingRange`: `ShowingRangeWithin`.

## Left out

- Network I/O is not modelled as I/O:
  - the chat endpoint's upstream calls are oracle functions from (model, version) to a response (or none, for a throw or abort);
  - model listing is a function from version to listed models;
  - every browser `fetch`/XHR outcome on the admin pages is a method parameter.
- The hash in Cloudinary signing is a function parameter, not SHA-1 itself.
- Timers are left out:
  - the 5 s and 30 s abort timers, `setTimeout` delays and scroll animations;
  - the timing of the 500 ms search debounce. A search is modelled once the debounce settles (`AchievementsAdmin.Admin.Search`). The terms typed before it settles are not modelled, and neither is the second, debounced fetch of page 1 that follows the Reset button's own fetch.
- Loading and progress state on the admin pages is left out: `isLoading` and `isSubmitting` of the achievements page, upload progress percentages and status texts, the success popup, and `alert`/`confirm` dialogs (confirmation is a boolean input). The chat widget's `isLoading` is modelled, but only between handlers, where it is always false (see the next line).
- ChatWidget.Widget.HandleSend: a send is one atomic step, from the user message to the last reply. The code awaits the endpoint in between, so `clearChat`, a second send or a university choice can run in the meantime. A reply that arrives after `clearChat` is then appended to the fresh log, and the replies of two sends can interleave. The model does not capture these orders, or the visible loading state while a request is pending.
- ChatRoute.PickClosestSupportedModel: listing entries are assumed to be objects whose `name`, when present, is a string (`ListedModel`). A `null` entry or a non-string `name` makes `m.name?.endsWith(...)` (route.js:139, 143) or `m.name?.includes(...)` (route.js:149) throw, and the outer catch then answers with the server-fault envelope; the model does not represent these listings. Only a missing name on the any-model step (`NamelessModel`) is modelled.
- Logging (`console.*`), the prompt text and the knowledge-base JSON import are left out. A failed import is a `None` knowledge base.
- JSX markup, CSS classes other than the colour scheme's, animations (framer-motion, in-view hooks) and icons are left out.
- The `colors` object of the colour hook is not modelled. `getClasses`/`getStyles` are.
- Lookups on plain objects ignore inherited `Object.prototype` keys such as `toString`.
- The canned text of an answer without model text is kept symbolic (`ReplyText.CannedText`). Its wording and phone list are not modelled, so `ChatRoute.TextOf` has no contract.
- `Date` parsing and the clock are left out. The countdown takes the millisecond difference as input, and the achievement date is kept as the stored string.
- Floating point is left out. Durations, divisions and remainders are exact reals. The model therefore says nothing about NaN, Infinity or rounding.
- VideoReview.FormatDuration: a non-numeric or NaN duration is not modelled (the input is an optional real).
- Countdown.CalculateTimeLeft: the remainders use exact reals, not IEEE doubles. For whole-millisecond differences the two agree, up to rounding of the 64-bit division.
- JsText.Lower: `toLowerCase` is modelled for ASCII capitals only. Other letters are left unchanged.
- Cloudinary.Sort: keys are compared by Unicode scalar value. JavaScript compares UTF-16 code units, which orders characters above U+FFFF differently.
- Lengths are counted in Unicode scalars, not UTF-16 units. This affects the 1000-character limit for text outside the Basic Multilingual Plane.
- JsText.EncodeUriComponent: lone surrogates, which throw in JavaScript, cannot occur in a Dafny string.
- The chat widget's scroll-to-message helpers and focus handling are left out. The university list is reduced to the fields the messages use.
- Two behaviours of the code worth knowing:
  - After a primary 404, failed strategies and discovery never overwrite the upstream response. Every error envelope after a 404 is therefore the generic one (`ChatRoute.After404OnlyGenericError`).
  - A successful submit or delete refetches the list. When that refetch fails, the submit's `resetForm` clears the error it recorded (`AchievementsAdmin.Admin.Saved`).

## Findings

| source | as written | input that shows it | evidently intended | confidence | as-written member | corrected member |
|---|---|---|---|---|---|---|
| src/app/components/footer.jsx:106 | the Instagram social entry stores its URL under `ref`, while the anchor reads `social.href` (line 172) | rendering the footer: the Instagram icon has no link | the URL under `href`, like the WhatsApp entry | high (not executed) | Footer.InstagramAnchorHasNoHref | Footer.IntendedSocialAnchorsLink |
| src/app/components/footer.jsx:304 | the mobile link background asks for `getClasses('bg', 'perimary')` | any mobile footer link: the lookup misses and yields `''` | variant `primary`, giving `bg-[#CB342A]` | high (not executed) | Footer.MobileLinkBackgroundIsEmpty | Footer.IntendedMobileLinkBackgroundIsBrand |
