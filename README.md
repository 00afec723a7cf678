# capserv bot core, modelled in Dafny

The capserv bot turns a sales agent's voice transcript into one CRM action. It has
three parts, and each has its own modules here:

- **The single-intent pipeline of the bot service** (`bot/app.py`).
  - `classify_intent` picks one intent by a fixed priority: visit, then update, then create, else UNKNOWN.
  - `extract_entities` fills an eight-slot entity record. It runs per-intent pattern cascades, and the first match wins.
  - `process_single_transcript` does four things in turn: it gates on confidence, checks the required entities, makes exactly one call on the CRM client, and maps a `CRMError` to a 502.
  - `handle_bot` answers a batch of transcripts in order.
  - The client used there is a lenient in-memory mock. It inserts a placeholder lead instead of failing.
  - Modules: `AppNlu` (`app_nlu.dfy`), `AppCrm` (`app_crm.dfy`) and `AppPipeline` (`app_pipeline.dfy`).
- **The multi-intent NLU** (`bot/nlu.py`).
  - `normalize_phone` and `parse_datetime`.
  - `extract_entities` fills every slot from the stripped transcript and loops over the status vocabulary.
  - `classify_intent` lists every recognised intent in a fixed order, with a phone-and-city fallback.
  - `extract` puts the two together.
  - Module: `Nlu` (`nlu.dfy`).
- **The strict in-memory CRM client** (`bot/crm_client.py`). It is a map from lead id to record. Updating or scheduling against an unknown id raises `CRMError(404, ...)`.
  - Module: `CrmClient` (`crm_client.dfy`).

Shared modules:
- `Text` (`text.dfy`): Python string operations. These are `strip`, ASCII `lower`, substring tests, `re.sub` as a filter, truthiness of optional strings, and the fresh-identifier oracle standing in for `uuid4`.
- `Scan` (`scan.dfy`): hand-written recognisers for the regular-expression shapes the bot uses, with leftmost search and Python's backtracking order. The rules are:
  - alternatives are tried in order;
  - separator runs are tried longest first;
  - lazy groups are tried shortest first;
  - `$` matches at the end or before a final newline.

  It also holds the first-match-wins cascade, as a function and as a loop.
- `Domain` (`domain.dfy`): intents, statuses and the entity record.

Where the source changes state, the model does too:
- `AppCrm.MockCrm` and `CrmClient.CrmStore` are classes whose `leads` map the methods update.
- The entity extractors, the missing-field collection, `classify_intent`'s list and the batch loop are methods that build their results step by step.

Each of these is proved equal to a specification function, and the properties are proved about that function.

## How the two front ends differ

`bot/app.py` and `bot/nlu.py` extract the same slots by different rules, and the two CRM clients answer differently.

- **City.**
  - `bot/app.py` tries `from <letters>` and then `city <letters>`.
  - `bot/nlu.py` takes a lazy letters-and-spaces group after `from` or `in`, up to a comma, " phone", " contact", a period or the end.
- **Lead identifier.**
  - `bot/nlu.py` looks only for a full UUID.
  - `bot/app.py` looks only for `lead <hex>`.
- **Visit time.**
  - `bot/app.py` keeps the raw phrase when parsing fails, so a matched time phrase always fills the slot.
  - `bot/nlu.py` falls back to an ISO timestamp in the text, and otherwise to nothing.
- **Phone.**
  - `bot/app.py` tries four phone patterns in order: digits, spaces, `-` and `+` after "phone" or "contact"; `\d{2}\s*\d{3}\s*\d{2}\s*\d{3}`; `\d{5}-\d{5}`; and `\d{10}`. The capture loses its spaces, `-` and `+`, and nothing else.
  - `bot/nlu.py` has a single phone pattern with an optional `+91` or `0` prefix. `normalize_phone` keeps the last ten digits of the whole match.
- **Update reply.**
  - `bot/crm_client.py`'s `update_status` returns `{lead_id, status}` with the new status.
  - The bot service's mock answers status `"UPDATED"`.
- **Source.**
  - In `bot/app.py` the source is one word of letters.
  - In `bot/nlu.py` it is letters, digits and spaces, stripped of whitespace and then of `.` and `,`.

## Model

| member | source | states |
|---|---|---|
| AppNlu.Classify | bot/app.py:89-120 | VISIT_SCHEDULE exactly when a visit phrase occurs in the lower-cased text; LEAD_UPDATE exactly when an update phrase does and no visit phrase; LEAD_CREATE exactly when only a create phrase does; confidence 0.95 for these and 0.5 for UNKNOWN |
| AppNlu.ClassifyIgnoresCase | bot/app.py:91 | classifying the lower-cased transcript gives the same answer as the transcript itself |
| AppNlu.StatusOf | bot/app.py:190-200 | a status is one of the five names, checked in the fixed order IN_PROGRESS, WON, LOST, FOLLOW_UP, NEW: each is the result exactly when its word occurs in the lower-cased transcript and no earlier word does; none exactly when no status word occurs |
| AppNlu.EntitiesOf | bot/app.py:122-233 | UNKNOWN leaves all eight slots empty; each intent fills only its own slots (creation never sets lead id, status, notes or visit time; an update never sets name, phone, city, source or visit time; a visit sets only lead id and visit time) |
| AppNlu.ExtractEntities | bot/app.py:122-233 | the slot-by-slot extraction returns exactly the record of `EntitiesOf` |
| AppNlu.ExtractLead | bot/app.py:135-175 | the name, phone, city and source cascades, first hit wins, give the specified slots and leave the others empty |
| AppNlu.ExtractUpdate | bot/app.py:177-205 | the lead id cascade, the status words and the notes give the specified slots and leave the others empty |
| AppNlu.ExtractVisit | bot/app.py:207-231 | the lead id cascade and the time phrase (as parsed, or verbatim when parsing fails) give the specified slots and leave the others empty |
| AppNlu.PhoneDigits | bot/app.py:149-162 | a stored phone holds only digits (no space, hyphen or plus); unless the labelled pattern matched, exactly ten |
| AppNlu.HyphenClean | bot/app.py:160 | cleaning `ddddd-ddddd` drops exactly the hyphen |
| AppNlu.SpacedClean | bot/app.py:160 | cleaning spaced digit blocks drops exactly the spaces |
| AppNlu.BarePhoneUnreachable | bot/app.py:149-162 | the bare ten-digit pattern never decides the phone: wherever it matches, the grouped pattern tried before it matches too |
| AppNlu.ShortLeadIdUnreachable | bot/app.py:179-188 | the eight-hex-digit lead id pattern never decides the lead id: wherever it matches, the longer pattern before it matches too |
| AppNlu.NameShape | bot/app.py:137-146 | an extracted name is letters and spaces, with no whitespace at either end |
| AppNlu.LeadIdShape | bot/app.py:179-188 | an extracted lead id is at least eight characters, each a hex digit or hyphen |
| AppNlu.CityShape | bot/app.py:164-170 | an extracted city is a non-empty run of letters |
| AppCrm.Create | bot/app.py:31-44 | a fresh id not in use; the leads gain exactly that key, holding the given fields with status NEW; every other lead unchanged; the reply is that id with NEW |
| AppCrm.Update | bot/app.py:46-66 | always succeeds with `(id, UPDATED)`; the key set gains `id`; status set; notes replaced only by non-empty notes; a known lead keeps name, phone, city and source; an unknown one becomes the placeholder; other leads unchanged |
| AppCrm.Schedule | bot/app.py:68-84 | always succeeds with SCHEDULED and a fresh visit id; the leads change only by inserting the placeholder for an unknown id |
| AppCrm.CallsKeep | bot/app.py:31-84 | no call removes a lead or changes its name, phone, city or source |
| AppCrm.MockCrm.constructor | bot/app.py:28-29 | the client starts with no leads |
| AppCrm.MockCrm.CreateLead | bot/app.py:31-44 | the in-place insertion leaves the state and reply `Create` specifies |
| AppCrm.MockCrm.UpdateStatus | bot/app.py:46-66 | the in-place update leaves the state and reply `Update` specifies |
| AppCrm.MockCrm.ScheduleVisit | bot/app.py:68-84 | the in-place call leaves the state and reply `Schedule` specifies |
| AppPipeline.MissingFrom | bot/app.py:283-326 | a field is reported exactly when it is required and its slot is empty or absent; the report keeps the required order |
| AppPipeline.RequestFor | bot/app.py:329-358 | a validated intent makes the call of that intent, with the extracted name, phone, city and source; lead id, status and notes; or lead id, visit time and notes as its arguments |
| AppPipeline.Decide | bot/app.py:272-326 | an unsure classification gives the fallback; otherwise missing entities give a 400 VALIDATION_ERROR naming them, comma-joined in order; a call is made exactly when neither happens, and it is the intent's call |
| AppPipeline.Settle | bot/app.py:368-381 | a raised `CRMError` becomes a 502 CRM_ERROR carrying its message; a returned receipt becomes the reply with the intent, the extracted entities, the receipt and the call descriptor |
| AppPipeline.Respond | bot/app.py:272-381 | an answer without a call leaves the client untouched; a call goes to the client once and its receipt is settled |
| AppPipeline.UnsureFallsBack | bot/app.py:273-280 | below 0.7, or for UNKNOWN, whatever intent was proposed, the reply is UNKNOWN, FAILED, with the rephrase fallback, no call descriptor and an unchanged client |
| AppPipeline.GateOnUnknown | bot/app.py:113-120 | with the real classifier the gate closes exactly on UNKNOWN |
| AppPipeline.ValidationReports | bot/app.py:283-326 | a missing entity gives a 400 error and leaves the client unchanged; the report is exactly the required fields left empty, in order |
| AppPipeline.DispatchEndpoint | bot/app.py:329-366 | a validated intent replies with its intent and a POST 200 descriptor on `/crm/leads`, `/crm/leads/{lead_id}/status` or `/crm/visits`, and the client keeps every lead |
| AppPipeline.DispatchResult | bot/app.py:329-366 | the reported result is the client's receipt: NEW with a new id, `(lead_id, UPDATED)`, or SCHEDULED |
| AppPipeline.DispatchStores | bot/app.py:329-381 | a validated call stores what was extracted: a new lead holds the extracted name, phone, city and source with status NEW; an update sets the extracted status (and non-empty notes) on the extracted lead id; a visit leaves that lead on file; the reply echoes the entities |
| AppPipeline.ProcessKeeps | bot/app.py:264-381 | handling a transcript never removes a lead or changes who it is |
| AppPipeline.Process | bot/app.py:264-381 | the defining specification of `process_single_transcript` (properties in `UnsureFallsBack`, `ValidationReports`, `DispatchEndpoint`, `DispatchResult`, `DispatchStores`, `ProcessKeeps`); an UNKNOWN classification answers the fallback and leaves the client alone; the client changes only when the reply reports a CRM call; an error reply changes nothing |
| AppPipeline.Batch | bot/app.py:251-259 | the defining specification of the `transcripts` loop (order and lead-keeping in `BatchInOrder`): one response per transcript, and an empty list answers nothing and changes nothing |
| AppPipeline.RunInOrder | bot/app.py:255-257 | response `i` of a run is transcript `i`'s, handled on the state the earlier ones left |
| AppPipeline.RunKeeps | bot/app.py:251-259 | a run of steps that each keep every lead keeps every lead |
| AppPipeline.BatchInOrder | bot/app.py:251-259 | a batch answers in input order, each transcript after those before it, and keeps every lead |
| AppPipeline.Handle | bot/app.py:241-262 | a batch gets one response per transcript; an unparseable body gets a 400 "Invalid JSON" and changes nothing |
| AppPipeline.AbsentTranscript | bot/app.py:261-262 | a body without `transcript` is handled as the empty transcript: the UNKNOWN fallback, client unchanged |
| AppPipeline.ProcessSingle | bot/app.py:264-381 | classifying, extracting and acting on the shared client gives the response and state `Process` specifies |
| AppPipeline.Act | bot/app.py:272-381 | the gate, the appended missing-field list and the one CRM call give the response and state `Respond` specifies |
| AppPipeline.HandleBot | bot/app.py:241-262 | the request loop gives the reply and state `Handle` specifies; the batch loop keeps the responses so far equal to the batch of the transcripts so far |
| Nlu.NormalizePhone | bot/nlu.py:22-28 | none exactly when there are fewer than ten digits; otherwise ten digits, the last ten of the input's digits |
| Nlu.NormalizeIdempotent | bot/nlu.py:25-27 | a normalised phone normalises to itself |
| Nlu.ParseDatetime | bot/nlu.py:30-38 | the defining specification of `parse_datetime` (shape of the fallback in `IsoFallback`): a parse wins; the result is absent exactly when there is no parse and no ISO timestamp is written anywhere in the text |
| Nlu.IsoFallback | bot/nlu.py:35-37 | without a parse, the result is an ISO timestamp (19 or 25 characters, `YYYY-`, `T` and `:` in place) copied from the text at the leftmost position where a timestamp is written, with its `[+-]hh:mm` offset (25 characters) exactly when one is written right after it, else 19 characters |
| Nlu.PhoneShaped | bot/nlu.py:47-49 | a phone is exactly ten digits |
| Nlu.LeadIdShaped | bot/nlu.py:51-53 | a lead id is UUID-shaped (8-4-4-4-12 hex digits) and occurs in the stripped transcript |
| Nlu.SourceShape | bot/nlu.py:55-56 | a source is letters, digits and spaces |
| Nlu.CityShape | bot/nlu.py:58-59 | a city is letters and spaces |
| Nlu.EntitiesIn | bot/nlu.py:40-83 | the defining specification of `extract_entities` (slot properties in `PhoneShaped`, `LeadIdShaped`, `NameFallback`, `CityShape`, `SourceShape`, `StatusMentioned`): a phone is ten digits, a lead id a UUID written in the stripped transcript, a name or city letters and spaces, a source letters, digits and spaces |
| Nlu.DropNew | bot/nlu.py:63 | the candidate loses a prefix exactly when it starts with "a new" or "new" and whitespace; what is removed is exactly that marker and the whole whitespace run after it, so what is left does not start with whitespace |
| Nlu.LeadNameShape | bot/nlu.py:61-64 | a first-pattern name is letters and spaces |
| Nlu.NameFallback | bot/nlu.py:66-68 | the capitalised-name pattern is consulted only when the first pattern yields nothing usable, and then decides the name when it matches |
| Nlu.CapitalisedShape | bot/nlu.py:67-68 | a fallback name starts with a capital letter and holds only letters and spaces |
| Nlu.WordSomewhere | bot/nlu.py:71 | the scan finds a whole-word occurrence exactly when one exists at some position |
| Nlu.FirstPassing | bot/nlu.py:70-73 | the chosen index passes the test and none before it does; none exactly when no entry passes |
| Nlu.StatusMentioned | bot/nlu.py:70-73 | over an enumeration of the vocabulary, a status is set exactly when some status is mentioned as a whole word, and it is the first mentioned one in iteration order |
| Nlu.FindStatus | bot/nlu.py:70-73 | the loop with `break` picks the index `FirstPassing` specifies |
| Nlu.FindFirst | bot/nlu.py:70-73 | the loop returns the first index whose entry passes the test |
| Nlu.ExtractAll | bot/nlu.py:40-83 | the step-by-step extraction returns exactly `EntitiesIn` |
| Nlu.ExtractContact | bot/nlu.py:47-59 | phone, lead id, source and city as specified, the other slots empty |
| Nlu.ExtractName | bot/nlu.py:61-68 | the name as `NameIn` specifies, other slots untouched |
| Nlu.ExtractLeadName | bot/nlu.py:61-63 | the first name pattern's candidate, stripped and without a leading "a new" or "new", is exactly `LeadNameIn` |
| Nlu.ExtractRest | bot/nlu.py:70-81 | status, visit time and notes as specified, other slots untouched |
| Nlu.RankedEntries | bot/nlu.py:100-113 | entries are among the five the classifier knows, in strictly increasing fixed order, each present exactly when its trigger holds; LEAD_CREATE at 0.7 exactly with phone and city and no create phrase |
| Nlu.RankedUnknown | bot/nlu.py:112-115 | UNKNOWN appears only as the sole entry, and exactly when nothing else is found |
| Nlu.OneCreate | bot/nlu.py:109-110 | the list holds at most one LEAD_CREATE |
| Nlu.RankIntents | bot/nlu.py:100-113 | the appends build exactly the list `Ranked` specifies |
| Nlu.Intents | bot/nlu.py:85-115 | the defining specification of `classify_intent` (order and uniqueness in `RankedEntries`, `RankedUnknown`, `OneCreate`): a non-empty list of known entries; each keyword intent at 1.0 is listed exactly when one of its phrases occurs in the lower-cased text; LEAD_CREATE at 0.7 exactly when no create phrase occurs and both a phone and a city were extracted |
| Nlu.Classify | bot/nlu.py:85-115 | keyword tests on the lower-cased text and the phone-and-city fallback give the list `Intents` specifies |
| Nlu.Understand | bot/nlu.py:117-124 | the intent list is never empty and the primary intent is its first entry |
| Nlu.PrimaryIntent | bot/nlu.py:117-122 | the primary intent is LEAD_CREATE when a create phrase occurs, else VISIT_SCHEDULE when a visit phrase does, else LEAD_UPDATE when an update phrase does |
| Nlu.Extract | bot/nlu.py:117-124 | extraction and classification combine into the record `Understand` specifies |
| CrmClient.Create | bot/crm_client.py:22-31 | a fresh id not in use; the leads gain exactly that key, holding the given fields with status NEW; every other lead unchanged; the reply is that id with NEW |
| CrmClient.Schedule | bot/crm_client.py:33-39 | raises 404 `{"detail":"Lead not found"}` exactly for an unknown id, changing nothing; otherwise records the visit time, replaces notes only by non-empty ones, changes no other lead and answers SCHEDULED with a fresh visit id |
| CrmClient.Update | bot/crm_client.py:41-47 | raises 404 exactly for an unknown id, changing nothing; otherwise sets the status, replaces notes only by non-empty ones, changes no other lead and answers `(id, status)` |
| CrmClient.NotesAfter | bot/crm_client.py:37-38 | notes are replaced by a non-empty text and kept otherwise |
| CrmClient.ApplyKeeps | bot/crm_client.py:22-47 | no call removes a lead or changes its name, phone, city or source |
| CrmClient.RunKeeps | bot/crm_client.py:22-47 | nor does any sequence of calls |
| CrmClient.RunKeys | bot/crm_client.py:22-47 | the leads after a sequence of calls are those before it plus exactly the ids its creations handed out |
| CrmClient.AcceptedIffMinted | bot/crm_client.py:33-43 | from an empty client, an update or a visit is accepted exactly for an id an earlier creation returned |
| CrmClient.CreatedStaysKnown | bot/crm_client.py:22-47 | an id returned by `create_lead` is accepted by every later update and visit, and its lead keeps the given name, phone, city and source |
| CrmClient.CrmStore.constructor | bot/crm_client.py:17-20 | the client starts with no leads |
| CrmClient.CrmStore.CreateLead | bot/crm_client.py:22-31 | the in-place insertion leaves the state and reply `Create` specifies |
| CrmClient.CrmStore.ScheduleVisit | bot/crm_client.py:33-39 | the in-place update or the raise leaves the state and outcome `Schedule` specifies |
| CrmClient.CrmStore.UpdateStatus | bot/crm_client.py:41-47 | the in-place update or the raise leaves the state and outcome `Update` specifies |
| Text.FreshKey | bot/crm_client.py:23 | a generated identifier is not among those in use and is at least UUID-long |

## Left out

- **HTTP framing.** FastAPI routing, JSON parsing and `JSONResponse` are not modelled. A request is a datatype (unparseable, a list, or an optional single transcript), and a response is a datatype carrying its status code.
- **`dateparser`.** It is a parameter `dp: string -> Option<string>`, standing for `dateparser.parse(...).isoformat()`. In `bot/app.py` (lines 225-232) `None` stands for both "no parse" and an exception, since that call sits in a `try`/`except`.
- **Nlu.ParseDatetime**: an exception raised by `dateparser.parse` in `bot/nlu.py` (lines 31-34, no `try`) propagates out of `extract_entities`, `classify_intent` and `extract`; the model has no exceptions there and `None` from `dp` always takes the ISO fallback.
- **`uuid.uuid4`.** It is `Text.FreshKey`, which returns an identifier not in use. Nothing relies on its randomness or format.
- **Analytics.** `extract`'s append to the analytics file and its logging are not modelled (file I/O whose failure is swallowed).
- **Character classes.** `\d`, `\w`, `[A-Za-z]` and `re.IGNORECASE` case folding are ASCII only, and so is `str.lower`; Python's Unicode `\d`, `\w` and `str.lower` are wider. `Text.IsSpace` is exactly Python's Unicode `\s`.
- **`VALID_STATUSES` order.** Python iterates the set in an unspecified order. It is a parameter `order: seq<Status>`. `Nlu.StatusMentioned` holds for any order that enumerates the five statuses.
- **Confidences** are exact reals (0.0, 0.5, 0.7, 0.95, 1.0), not floating point.
- **A `null` transcript**, inside a batch or as the `"transcript"` value of a single request, would raise in `transcript.lower()`. Transcripts are strings here, and `One(None)` stands only for an absent key, not for a key present with `null`.
- **The dispatch `else` branch** of `process_single_transcript` is not modelled: a validated intent is never UNKNOWN, so that branch (an empty result and call) cannot be reached.
- **`Nlu.Classify`** reads only the phone and city steps of `extract_entities` (`ExtractContact`), since the fallback looks at nothing else; the other slots do not influence the list.
- **`AppPipeline.Act`** serves the bot service's mock, which never raises. The 502 CRM_ERROR path is stated and proved in `AppPipeline.Settle` for any raised error.
- **The `CRMError` exception text** (`"CRMError {status_code}: {message}"`) is not modelled. Only the code and the message are.
- **Settings and request schemas** (`bot/settings.py` and `bot/models.py`) are not modelled; `base_url` and `timeout` are never used by the in-memory client.
- **Regular expressions.** The model has no general engine. Each pattern the source uses has its own recogniser.
