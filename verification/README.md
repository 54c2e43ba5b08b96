# Urbanlytic incident backend: a Dafny model

Urbanlytic is a municipal incident-reporting backend. Citizens submit an incident description. A hosted language model classifies and summarises it. The enriched record is written to a document store, published on a broker topic and broadcast over a socket to live dashboards. Users register and log in against a `users` collection.

This project models the sequential logic of that backend, with every foreign service left abstract:

- **`UserService`**: `validate_registration` with its ten error flags, `register_user` and `authenticate_user`. The users collection is a map from username to user document (`UserRepo.UserStore`).
- **`AiService`**: the post-processing of the model's reply in `AIService.classify_incident`:
  - `str.strip()`, modelled in `Text`;
  - the multiline substitution that removes Markdown code fences, modelled as a position-by-position scan of `re.sub`;
  - the second strip;
  - the parse, or its fallback record.
- **`ReportService`**: `create_report`. It builds the incident record, adds the media URL when a file is sent, merges the classifier's object into the record and writes it once under a fresh id. The incidents collection is a class holding a map and an id counter (`IncidentRepo.IncidentStore`).
- **`App`**: the Flask module's own items:
  - its copy of `classify_incident`, whose fallback has no priority;
  - `/submit`: classify, publish, store, broadcast;
  - the broker subscription's `callback`;
  - `/register`, `/history` and `/logout`.

External calls cannot be executed in a proof, so they become parameters:

- the model's reply (`Result<string>`);
- `json.loads` (`string -> Option<Value>`);
- password hashing and hash checking;
- `secure_filename`;
- the outcomes of saving a file, publishing, writing the store and emitting;
- the clock.

The calls to the model, the media save, the publisher, the incidents collection's write, the socket emit and the message ack are appended to a trace of `Effect`s. Each of these except the ack has an outcome given as a parameter; the ack always succeeds. The incidents collection changes only when its write succeeds. Properties about call order are stated over these traces. Reads and writes of the users collection and the `/history` query are not traced and always succeed.

Points of the code's behaviour that a reader might not expect, all modelled as the code has them:

- `/submit` publishes the message **before** writing the store. A failed write therefore comes after a successful publish.
- Any failure in `/submit` gives a 500 response, including a failed publish or a failed broadcast. A failed broadcast comes after the record was stored, yet the response is still a 500.
- The subscriber's callback does **not** acknowledge a message that fails to decode. It logs the error and returns.
- A classifier error raised by the model call itself propagates. Only a parse failure falls back.
- `/register` in the Flask module checks only password confirmation and username existence. It does not run the service's ten checks. It also writes no phone number.

## Model

| member | source | states |
|---|---|---|
| UserService.Search | services/user_service.py:18-25 | `re.search` of a one-character class finds a match exactly when some character of the password is in the class |
| UserService.IsDigitString | services/user_service.py:26 | `isdigit()` holds exactly for a non-empty string of decimal digits; the empty string fails |
| UserService.MailMatchesSound | services/user_service.py:28 | every address the scanning matcher accepts has the shape of the pattern `[^@]+@[^@]+\.[^@]+` anchored at the start |
| UserService.MailMatchesComplete | services/user_service.py:28 | every address with the pattern's shape is accepted by the scanning matcher |
| UserService.MailMatchesIff | services/user_service.py:28-29 | the matcher accepts an address exactly when the start-anchored pattern matches it; trailing text such as in `a@b.c@@` is allowed |
| UserService.PasswordErrors | services/user_service.py:14-25 | each of passError, lengthError, upperCaseError, lowerCaseError, numberError and specialCharError is set exactly when its check fails, and no other flag is set |
| UserService.UserService.AccountErrors | services/user_service.py:12-31 | userError exactly when the username is taken, phoneError exactly when the phone is not all digits, is empty or is shorter than 10, mailNotValidError exactly when the pattern fails, mailError exactly when some user has the address; the store is only read |
| UserService.UserService.ValidateRegistration | services/user_service.py:10-33 | each of the ten flags is present exactly when its check fails, stated per flag in both directions |
| UserService.NoErrorsIffAllChecksPass | services/user_service.py:10-33 | the flag set is empty exactly when all ten checks pass |
| UserService.UserService.RegisterUser | services/user_service.py:35-45 | the document under the username becomes the submitted details with the password replaced by its hash and the creation time; every other document is unchanged |
| UserService.UserService.AuthenticateUser | services/user_service.py:47-53 | exactly one of user and error is present; an unknown username gives "User not found" whatever the password; a failed hash check gives "Invalid password"; otherwise the stored user is returned |
| UserRepo.UserStore.GetUserByUsername | repository/user_repository.py:9-11 | the document exists exactly when the username is a key, and it is the stored one |
| UserRepo.UserStore.SaveUser | repository/user_repository.py:17-18 | the document under the user's username is replaced, nothing else changes |
| UserRepo.SaveUserEmails | repository/user_repository.py:13-18 | `get_user_by_email` (`HasEmail`, over `EmailIn`) finds a document for an address exactly when some user document holds it; after a save, that is exactly when it is the saved user's address or another username's, so the replaced document's address is no longer found through it |
| Values.Take | services/ai_service.py:38 | `s[:n]` is a prefix of `s` of length `min(len(s), n)`, the whole of `s` when it is no longer than `n` |
| Values.SliceTo | services/ai_service.py:38 | slicing succeeds exactly on strings and lists and gives their prefix; every other value raises TypeError (Python before 3.12) |
| Values.Update | services/report_service.py:27 | `update` keeps the keys of both dictionaries, the argument's value winning on shared keys and the original's value kept elsewhere |
| Text.Strip | services/ai_service.py:32 | the stripped text has no whitespace at either end; whitespace is the set `str.isspace()` accepts, written out in `IsSpace` (ASCII TAB to CR, FS to US, SPACE, NEL, NO-BREAK SPACE and the Unicode space, line and paragraph separators) |
| Text.StripBounds | services/ai_service.py:32 | strip removes only whitespace: the result lies between an all-whitespace prefix and an all-whitespace suffix |
| Text.StripIs | services/ai_service.py:32 | any slice between an all-whitespace prefix and suffix, with no whitespace at its own ends, is the stripped text |
| Text.StripIdempotent | services/ai_service.py:33 | stripping twice is stripping once |
| Text.StripPadded | services/ai_service.py:33 | whitespace added around a text does not change what it strips to |
| Text.StripTrimmed | services/ai_service.py:33 | a text with no whitespace at either end strips to itself |
| Text.SplitLines | services/ai_service.py:33 | no line produced by splitting at newlines holds a newline |
| Text.JoinSplit | services/ai_service.py:33 | joining the lines of a text with newlines gives the text back |
| Text.SplitJoin | services/ai_service.py:33 | splitting newline-free lines after joining them gives the lines back |
| Text.SplitAround | services/ai_service.py:33 | the lines of `x + "\n" + y` are the lines of `x` followed by the lines of `y` |
| AiService.FenceAtIs | services/ai_service.py:33 | the fence predicates hold exactly where the text holds "```" or "```json" |
| AiService.MatchLength | services/ai_service.py:33 | the fence pattern matches 0, 3 or 7 characters, never past the end of the text |
| AiService.RemoveFences | services/ai_service.py:33 | the `re.sub` scan (`Substitute`: drop each match, keep every other character, move on) never lengthens the text; `RemoveFencesLineByLine` pins it down as per-line fence removal |
| AiService.SubstituteShrinks | services/ai_service.py:33 | the scan from any position yields at most the remaining characters |
| AiService.RemoveLineFencesParts | services/ai_service.py:33 | a line is its leading fence, what remains of it, and a trailing fence, in that order and without overlap: nothing else is removed |
| AiService.RemoveLineFencesUnchanged | services/ai_service.py:33 | a line that neither starts nor ends with "```" is left as it is |
| AiService.SubstituteLine | services/ai_service.py:33 | on a single line the substitution removes a leading "```json" or "```" and then a trailing "```" |
| AiService.RemoveFencesLineByLine | services/ai_service.py:33 | the multiline substitution equals splitting at newlines, removing the fences of each line separately, and joining again |
| AiService.CleanReply | services/ai_service.py:32-33 | the cleaned reply has no whitespace at either end |
| AiService.CleanReplyWithoutFence | services/ai_service.py:32-33 | a reply without "```" cleans to the stripped reply |
| AiService.RemoveFencesOfFenced | services/ai_service.py:33 | substitution on "```json\n" + body + "\n```" leaves "\n" + body + "\n" when no body line starts or ends with "```" |
| AiService.CleanReplyFenced | services/ai_service.py:32-33 | a reply "```json\n" + body + "\n```" cleans to the stripped body when no body line starts or ends with "```" |
| AiService.Fallback | services/ai_service.py:37-38 | the fallback has exactly the keys category ("Other"), summary (the description's first 100 items) and, when given, priority; a description that cannot be sliced raises TypeError |
| AiService.ClassifyReply | services/ai_service.py:35-38 | a failed model call propagates unchanged; a parsed reply is returned as parsed, unchecked; an unparsable reply gives the fallback; the only other error is the fallback's TypeError |
| AiService.ClassifyIncident | services/ai_service.py:14-38 | `AIService.classify_incident`: an error of the model call propagates unchanged; when the reply does not parse, the record returned has exactly the keys category, summary and priority, with priority "Low"; `ClassifyReply` and `ClassifyIncidentFallback` pin down the rest |
| AiService.ClassifyIncidentFallback | services/ai_service.py:37-38 | when parsing fails on a string description the result is exactly {category: "Other", summary: description[:100], priority: "Low"}; the summary is a prefix of at most 100 characters, the whole description when that is short |
| IncidentRepo.ResolveServerTimestamps | repository/incident_repo.py:11 | the write keeps every key; the server-timestamp placeholder becomes the commit time; every other value is written as given |
| IncidentRepo.IncidentStore.NewDocument | repository/incident_repo.py:10 | a document reference gets an id no stored document has; the documents are unchanged |
| IncidentRepo.IncidentStore.Set | repository/incident_repo.py:11 | a successful write stores exactly the resolved record under the id; a failed one changes nothing |
| IncidentRepo.IncidentStore.Save | repository/incident_repo.py:9-12 | on success exactly one new document, under a fresh id that is returned, holds the record, and the existing documents are unchanged; on failure the error is raised and nothing changes |
| IncidentRepo.TimedIds | app.py:155 | collects exactly the ids below the bound whose documents have a timestamp |
| IncidentRepo.InsertByTime | app.py:155 | inserting into a newest-first list keeps it newest first and adds exactly the one id |
| IncidentRepo.SortByTime | app.py:155 | the result is newest first and a permutation of the input |
| IncidentRepo.Recent | app.py:155 | `order_by("timestamp", DESCENDING).limit(limit)`: at most `limit` ids; `RecentSpec` states the rest |
| IncidentRepo.PermutationDistinct | app.py:155 | reordering a list of ids without repetitions creates none, so sorting the query's ids keeps them distinct |
| IncidentRepo.RecentDistinct | app.py:155 | the query returns each document at most once |
| IncidentRepo.RecentOnlyTimed | app.py:155 | the query returns only documents that have a timestamp |
| IncidentRepo.RecentLeavesOutOlder | app.py:155 | a timed document the query leaves out is no newer than any it returns, and it is left out only when `limit` are returned |
| IncidentRepo.RecentSpec | app.py:155 | the query returns at most `limit` timed documents, each at most once, newest first; a timed document is left out only when `limit` are returned and it is no newer than any of them |
| ReportService.Assemble | services/report_service.py:14-27 | the record `create_report` hands to the store exists only when the file save (if any) succeeded and the classifier returned an object, and its keys are the pre-classification keys plus the classifier's; `AssembleMerge` and `PreMergeRecord` pin down the values |
| ReportService.BuildIncident | services/report_service.py:14-27 | the in-place construction of the incident makes the file save (if any) and then the model call, and yields the record `Assemble` specifies, or the error it raises |
| ReportService.ReportService.CreateReport | services/report_service.py:13-29 | the calls of `ReportEffects` are appended to the trace; an error before the store leaves it unchanged and is raised; otherwise exactly one document is written under a fresh id, which is returned, or the write error is raised and nothing changes |
| ReportService.PreMergeRecord | services/report_service.py:14-25 | before classification the record has exactly location, type, description, submitted_by (the user) and timestamp (the placeholder), plus media_url exactly when a file was sent; it fails only when the file save fails |
| ReportService.AssembleMerge | services/report_service.py:26-27 | the written record is the pre-classification record merged with the classifier's object, that object winning on shared keys; it exists exactly when the save and the classifier succeed with an object |
| ReportService.AssembleOnParseFailure | services/report_service.py:26-27 | when the reply does not parse, the record written is the pre-classification record with category "Other", summary the first 100 characters of the description and priority "Low" |
| ReportService.ReportEffectsCases | services/report_service.py:21-28 | the calls are the file save when a file is sent, then the model call with the description unless the save failed, then the write when the record could be built |
| ReportService.ReportEffectsOrder | services/report_service.py:21-28 | each call happens at most once, in the order save, classify, write; the store is never written before classification |
| ReportService.ReportEffectsCalls | services/report_service.py:21-28 | the file is saved exactly when one is sent; the model is called with the submitted description exactly when no save failed; the assembled record is written under the next id exactly when it could be built |
| App.ClassifyIncidentFallback | app.py:44-48 | when parsing fails on a string description, the result is exactly {category: "Other", summary: description[:100]} with no priority key |
| App.ClassifiersAgree | app.py:30-48 | the module's classifier and the service's raise the same errors and return the same parsed value; on fallback the service's record is the module's plus priority "Low" |
| App.ClassifyIncident | app.py:30-48 | the module's `classify_incident`: an error of the model call propagates unchanged; when the reply does not parse, the record returned has exactly the keys category and summary; `ClassifiersAgree` relates it to the service's classifier |
| App.Submit | app.py:130-151 | one run of `submit_report`: a success answers with the broker's message id and the next document id and stores a record; a record is stored exactly when all four calls are made; `SubmitSucceeds`, `SubmitFails` and `SubmitEffectsOrder` pin down the rest |
| App.PublishedAndStoredRecords | app.py:136-137 | both records are the request merged with the classifier's object (the classifier winning) plus timestamp; they differ only in the timestamp's value |
| App.SubmitSucceeds | app.py:132-149 | a submission succeeds exactly when every step does; it then calls classify, publish, write and broadcast in that order, answers 200 with the message id and the new document id, and stores the merged record |
| App.SubmitFails | app.py:132-151 | every failure answers 500 with the error; a bad request, a classifier failure or a failed publish stores and broadcasts nothing; a failed write comes after the publish and broadcasts nothing; a failed broadcast comes after the record was stored |
| App.SubmitEffectsOrder | app.py:134-147 | the calls are a prefix of classify, publish, write, broadcast: each at most once and in that order |
| App.CallbackEffects | app.py:159-165 | the handler's calls: two (broadcast, then ack or log) for a payload that decodes, one (log) otherwise; the last is the ack exactly when the payload decodes and the broadcast succeeds |
| App.CallbackAcksOnlyOnSuccess | app.py:159-165 | a message is acknowledged exactly when it decodes and the broadcast succeeds, and then right after the broadcast; otherwise the error is logged, and a message that does not decode is not broadcast |
| App.WithoutUser | app.py:113 | `session.pop("user", None)` removes the user entry and keeps every other entry and its value |
| App.LogoutIdempotent | app.py:113 | logging out twice is logging out once; a session without a user is unchanged |
| App.HistoryOfIds | app.py:155-156 | the documents of the query's ids are at most ten stored incidents with a timestamp, newest first, no document id twice; an incident whose id is left out is left out only when ten are returned and it is no newer than any of them |
| App.App.SubmitReport | app.py:130-151 | the run's calls are appended to the trace and its response returned; the store gains the stored record, its placeholder resolved, under a fresh id exactly when the write succeeds; the session is unchanged |
| App.App.Callback | app.py:159-165 | the handler's calls for the decoded message are appended to the trace; the session is unchanged |
| App.App.Register | app.py:74-100 | a password mismatch is reported first and writes nothing; an existing username is reported next and writes nothing; otherwise exactly one document is written under the username, holding the hashed password and no phone, and the page redirects to login |
| App.App.GetHistory | app.py:153-156 | the returned incidents are the stored documents of at most ten distinct ids, all with a timestamp, newest first; a timed incident whose id is left out is left out only when ten are returned and it is no newer than any returned |
| App.App.Logout | app.py:111-114 | only the session's user entry is removed; the trace is unchanged |

## Left out

- The model call, `json.loads`, password hashing and `check_password_hash` are parameters. Nothing is assumed about them. The prompt text is not modelled.
- `json.dumps` in `/submit` is not modelled. The `Publish` effect records the dictionary that is published, not its encoding.
- Flask routing, templates, `url_for`, redirects and request parsing are not modelled. `request.json` is an input that is either a value or an error. `url_for` is the fixed path `/static/uploads/<name>`, without URL quoting.
- Socket broadcast, the publisher and the incidents collection's write appear only as effects whose outcome is a parameter. The users collection and the `/history` query are plain map reads and updates that cannot fail.
- `message.ack()` in the subscriber's callback is taken to succeed, because the client only queues the acknowledgement. A raising ack, which would be logged after the `Ack` effect, is not modelled.
- The subscriber's background thread (`start_subscriber`) is not modelled. Its only point is concurrency.
- The document store's own id generator is not modelled. New ids come from a counter.
- Timestamps are opaque. `datetime.utcnow()` is an integer parameter or an ISO string. `SERVER_TIMESTAMP` is a placeholder that the store turns into its commit time.
- JSON numbers with a fraction are exact reals (`VFloat`). Floating-point rounding is not modelled.
- `str(e)` in the `/submit` error response is not modelled. The response carries the exception value instead.
- `print` in the subscriber is modelled as a `LogError` effect.
- UserService.IsDigitString: accepts only ASCII decimal digits. Python's `isdigit` also accepts other Unicode digits.
- UserService.UserService.ValidateRegistration: the form is assumed to hold every key it reads. A missing key, which raises KeyError in the source, is not modelled. The username and address lookups in the users collection always succeed; a failing store read, which the source passes to its caller, is not modelled. A stored user document is always truthy, so userError is set exactly when the username is a key; an empty stored dictionary would not set it in the source.
- UserService.UserService.AuthenticateUser: a failing store read, which the source passes to its caller, is not modelled. A stored user document is always truthy. An empty stored dictionary would count as "User not found" in the source, but no registration path writes one.
- App.App.Register: absent form fields (None in the source) are not modelled. Neither is a failing store read of the username nor a failing store write, each of which the source answers with a 500.
- UserService.UserService.RegisterUser: a failing store write, which the source passes to its caller, is not modelled. The write always succeeds.
- App.App.GetHistory: the query reads the incidents collection directly and cannot fail; a failing store query, which the source answers with a 500, is not modelled. Documents whose timestamp is not a time are treated as having none and are left out. The order among documents with equal timestamps is not stated.
- ReportService.Assemble: a classifier result that is not a JSON object is taken to raise TypeError. In Python, `incident.update(...)` behaves differently for some such results. A list of pairs is merged. An empty string or an empty list changes nothing, so the record is written unclassified. A non-empty string raises ValueError rather than TypeError.
- Values.SliceTo: follows Python before 3.12, where slicing a dictionary raises TypeError. From Python 3.12 on, slices are hashable and the same slice raises KeyError. Only the exception carried by the 500 response of `/submit` differs.
- Timeouts, retries, status transitions and proof uploads do not occur in the modelled code, so they are not modelled.
