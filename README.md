# Mirror ("Зеркало") — a Dafny model of the backend's submission pipeline and the bot's texts

Mirror is a psychological self-test delivered through a Telegram bot and a web
app. The backend (`api.py`) has two write endpoints. `start_session` records
the user and opens a `pending` session. `submit_answers` does the rest:
- stores the answers with status `analyzing`;
- builds a question/answer transcript in display order;
- cleans the test's system prompt;
- asks a language model for a JSON analysis and recovers the JSON object from the reply;
- stores the analysis with status `analyzed`;
- copies the CRM part of the analysis into the user's profile columns.

The bot (`bot.py`) builds the web-app link and reacts to the data the web app
sends back. It also renders the `/profile` text from the stored columns.

The model is split into these modules:

- `Json`: JSON values, with objects as member lists. `Lookup` returns the last member with a key, as a Python dict built from the text does.
- `Text`: `str.join` and Python's `str`/`int` on integers.
- `Formatter`: the stable sort by `order_num`, the option lookup, the blocks, and the transcript loop (`FormatTranscript`, a method with a `for` loop).
- `Prompt`: the prompt clean-up as written (three `replace` calls and a filtering loop in `CleanPrompt`). It is proved equal to a per-character reference `Clean`.
- `Recovery`: `json.loads` of the whole reply, the fallback to the `\{.*\}` match, and the `for_user`/`for_crm` defaults.
- `Reconcile`: the users update dict of `submit_answers` and the user row.
- `Api`: the tables as maps held by a `Store` class, with methods `StartSession` and `SubmitAnswers`. `Analyze` is the analysis step as a function and `RunAnalysis` its imperative form.
- `Bot`: the replies of `/start`, of web-app data and of `/profile`.

External parts become parameters:
- `json.loads` is `parse: string -> Option<Json>`, where None stands for `JSONDecodeError`.
- The model call is `model: (system, user) -> Option<reply>`, where None stands for an exception or a reply without text.
- Python's `str()` of a non-string JSON value is `render`.
- The environment's `WEBAPP_URL` is an `Option<string>`.

## Model

| member | source | states |
|---|---|---|
| Json.LookupSpec | api.py:161-162 | A dict `.get` finds nothing exactly when no member has the key. Otherwise it finds the value of the last member with that key. |
| Json.LookupUnique | bot.py:115-126 | A key held by exactly one member is looked up to that member's value. |
| Json.KeysInOrder | bot.py:116 | Iterating a dict yields each key once, exactly the keys present, in order of first occurrence. |
| Json.KeyBeforeExtends | bot.py:116 | First-occurrence order among keys is kept when one more member is added. |
| Text.Join | api.py:131 | Joining no parts gives "", joining one part gives that part, and the result is never shorter than the first part. |
| Text.JoinEmptyIff | api.py:131 | Joining non-empty parts gives "" exactly when there are no parts. |
| Text.JoinSnoc | api.py:129-131 | Appending one more block to a non-empty list adds the separator and that block to the joined text. |
| Text.IntToStringRoundTrip | bot.py:35 | `int(str(n)) == n`: the id written into the link reads back as the same integer. |
| Text.DigitsRoundTrip | bot.py:35 | The decimal digits of a natural number read back as that number. |
| Formatter.SortByOrder | api.py:117 | The sorted questions are in ascending `order_num` and are a permutation of the input. |
| Formatter.Insert | api.py:117 | Inserting into a sorted list keeps it sorted and adds exactly the one question. |
| Formatter.SortedArrangementUnique | api.py:117 | Two sorted permutations of questions with distinct `order_num` are equal, so the sorted order is determined. |
| Formatter.FirstMatch | api.py:125-128 | `next(...)` over the options finds nothing iff no option has the answer id. Otherwise it returns the text of the first option with that id. |
| Formatter.AnswerText | api.py:124-128 | The answer text is the first matching option's text, otherwise the raw id. It is also the raw id when `options` is not a list. It never fails. |
| Formatter.Selected | api.py:120-123 | The questions kept are exactly those answered with a non-empty id and with truthy options. Questions that arrive sorted by `order_num` stay sorted. |
| Formatter.SelectedCounts | api.py:120-129 | Each yielding question gets as many blocks as it occurs among the questions; a question that does not yield gets none. |
| Formatter.FormatTranscript | api.py:117-131 | The loop's result equals `Transcript`: the sorted questions' blocks joined by "\n\n". |
| Formatter.TranscriptBlocks | api.py:117-131 | The transcript is the "Вопрос: …\nОтвет: …" blocks of exactly the yielding questions, each as often as it occurs, in ascending `order_num`, joined by a blank line. |
| Formatter.TranscriptEmptyIff | api.py:119-131 | The transcript is "" exactly when no question yields a block. |
| Formatter.TranscriptIgnoresQuestionOrder | api.py:117-120 | With distinct `order_num`, the order in which the questions arrive does not change the transcript. |
| Prompt.Clean | api.py:134-138 | The cleaned prompt contains no U+2028, U+2029, U+00AD or code point 128..159, and is no longer than the template. |
| Prompt.StagesAreClean | api.py:134-138 | The three replacements followed by the filter compute the per-character reference `Clean`. |
| Prompt.CleanPrompt | api.py:134-138 | The step-by-step clean-up, with its filtering loop, returns `Clean(template)`. |
| Prompt.CleanFixedIff | api.py:134-138 | Cleaning leaves a prompt unchanged exactly when it holds no character that cleaning changes. |
| Prompt.CleanIdempotent | api.py:134-138 | Cleaning twice is the same as cleaning once. |
| Prompt.CleanAppend | api.py:134-138 | Cleaning works character by character: a concatenation is cleaned part by part. |
| Prompt.ReplaceCharAppend | api.py:135-137 | `str.replace` of a single character distributes over concatenation. |
| Prompt.KeepPrintableAppend | api.py:138 | The filter distributes over concatenation. |
| Recovery.FirstIndexOf | api.py:155 | Finds the first occurrence of a character, or None when the character is absent. |
| Recovery.LastIndexOf | api.py:155 | Finds the last occurrence of a character, or None when the character is absent. |
| Recovery.CandidateIsLeftmostLongest | api.py:155-156 | There is no `\{.*\}` match exactly when no '{' comes before a '}'. Otherwise the candidate is the leftmost, then longest, match, and it starts with '{' and ends with '}'. |
| Recovery.RecoverOutcomes | api.py:152-159 | A reply that parses whole is used as it is. Otherwise the leftmost-longest span is parsed. With no span, the result is the 500 parse error. |
| Recovery.WrappedObjectRecovered | api.py:152-157 | An object wrapped in text with no '{' before it and no '}' after it is recovered from the span. |
| Recovery.FirstIndexAfterFree | api.py:155 | A character absent from a prefix is first found where the rest begins. |
| Recovery.LastIndexBeforeFree | api.py:155 | A character absent from a suffix is last found where the preceding part ends. |
| Recovery.FencedReplyRecovered | api.py:152-157 | A reply wrapped in a json code fence is recovered through the span, with no fence stripping. |
| Recovery.ExtractAnalysis | api.py:161-162 | `for_user` defaults to "" and `for_crm` to {}. A decoded value that is not an object fails. |
| Recovery.WholeNonObjectIsFatal | api.py:152-153 | A whole reply that decodes to a non-object fails at `.get`; no span is tried. |
| Reconcile.Column | api.py:171-176 | `crm_result.get(key)` is the value, or null when the key is absent. |
| Reconcile.ProfileUpdate | api.py:170-179 | The update exists iff the payload is an object. Each of `vak_type`, `stress_response`, `attachment_type`, `decision_style`, `anxiety_level` and `buying_power` is the payload's value, or null when the key is absent. Tags are the value, or `[]` only when the key is absent. `raw_profile` is the whole payload. |
| Reconcile.ApplyUpdate | api.py:170-179 | Only the row with the given id changes. Its id and name columns stay and its derived columns become the update. A missing row stays missing. |
| Reconcile.SecondUpdateWins | api.py:170-179 | After two updates the row holds only the second payload's values. |
| Reconcile.AbsentAndNullTags | api.py:171-177 | An absent tags key stores `[]`, while a present null stores null. A scalar column stores null either way. |
| Api.Upserted | api.py:77-82 | The upserted row has the request's id and names and keeps an existing row's derived profile; a new row has none. |
| Api.RunAnalysis | api.py:117-162 | The transcript, prompt clean-up, model call and recovery give exactly `Analyze`: a null prompt, a failed call and an unusable reply each fail distinctly. |
| Api.Store.constructor | api.py:26-29 | An empty store over the given tests satisfies the invariant. |
| Api.Store.StartSession | api.py:75-100 | The user is upserted first. An unknown slug fails with 404 and inserts no session. Otherwise a fresh `pending` session with empty answers is inserted. The invariant is kept. |
| Api.Store.SubmitAnswers | api.py:103-185 | The answers are stored as `analyzing` first. Any failure leaves the session there. Only a usable analysis makes it `analyzed`, followed by the profile update and the "ok" response. |
| Api.MarkAnalyzingKeepsOwner | api.py:105-108 | Storing the answers keeps the session's owner, test and results, and sets the status to `analyzing`. |
| Api.ResponseMatchesStoredSession | api.py:164-168 | After a successful submission the session is `analyzed` and holds exactly the returned `for_user` and `for_crm`. |
| Api.MarkAnalyzingKeepsWellFormed | api.py:105-108 | The answers update keeps every session consistent with its status. |
| Api.MarkAnalyzedKeepsWellFormed | api.py:164-168 | The results update keeps every session consistent with its status. |
| Api.UsersUpdateKeepsWellFormed | api.py:170-179 | The profile update keeps every session's owner known. |
| Bot.WebAppUrlLayout | bot.py:29-38 | The link is the base, the fixed query head, and the id, which is ended by '&' and reads back as the id. The first name comes last, after "&first_name=". |
| Bot.StartReply | bot.py:25-55 | `/start` greets the user by first name, or by no name when it is unset, and carries the test button whose link is the user's web-app link. |
| Bot.NamesAreNotEncoded | bot.py:32-38 | Without percent-encoding, two different users give the same link. |
| Bot.WebAppDataOutcomes | bot.py:62-100 | Undecodable data gets one apology, and a non-object raises. "completed" sends two replies: first the result heading followed by `for_user` (default ""), then the share text with a retry link equal to `/start`'s. "error" sends one error message, and any other status sends nothing. |
| Bot.Label | bot.py:118-126 | A known value gets its fixed label, and any other scalar gets "—". A list or object raises. |
| Bot.LabelIsFixedOrDash | bot.py:118-126 | A label is one of the map's fixed labels or the dash. |
| Bot.TagsText | bot.py:115-116 | Missing, null or empty tags render as "—", and a list of strings is joined with ", ". A non-empty string is joined character by character and a non-empty object by its keys. A list holding a non-string, a non-zero number or `true` raises. |
| Bot.StringItems | bot.py:116 | The strings of an all-string list, one for one. |
| Bot.Chars | bot.py:116 | A string iterated as its one-character strings. |
| Bot.RenderProfile | bot.py:122-128 | The text exists exactly when all four pieces were computed without raising. |
| Bot.ProfileReply | bot.py:104-133 | A 404 gives "take a test first, /start". A failed request, a body that does not parse or is not an object, or a piece that raises gives "could not load profile". Otherwise the reply is the profile text of the body. |
| Bot.ProfileReplyKinds | bot.py:104-133 | The "take a test first" message is sent exactly on a 404. Any message other than it and the apology starts with the profile heading. |
| Bot.RenderedUnderHeading | bot.py:122-128 | A rendered profile starts with the heading. |
| Bot.ProfileTextLayout | bot.py:122-128 | The text is the heading and exactly four lines, in the order perception, stress, decision, tags. Each label is fixed or "—". |
| Bot.ProfileTextReadsFourFields | bot.py:114-128 | Only `vak_type`, `stress_response`, `decision_style` and `personality_tags` affect the text. Attachment, anxiety and buying power never show. |
| Bot.RowLookups | bot.py:114-126 | The stored row's columns are found under their own names. |
| Bot.LabelOfColumn | bot.py:124-126 | A column stored as null and a key that is absent both render as "—". |
| Bot.ProfileShowsLastAnalysis | bot.py:104-133 | After an analysis, `/profile` renders what that analysis's CRM payload says, whatever the row held before. |

## Left out

- Framework wiring (FastAPI app, CORS, dotenv, client construction), `/health`, the bot's polling loop and keyboards: no logic to model.
- `get_test` and `get_user_profile`: pass-through reads. The stored row is modelled by `Reconcile.UserRow`; the HTTP round trip to the bot is a `Fetch` value.
- The Supabase query mechanics: tables are maps. `.single()` on a missing test is modelled as "no row", so `start_session` reports 404 and `submit_answers` reports `TestLookupFailed`.
- The Anthropic call is the `model` parameter: a network call to a nondeterministic service. The model name and token limit are not modelled.
- `json.loads` internals (numbers beyond integers, NaN, escape handling) are the `parse` parameter. Floats are not in the `Json` datatype.
- Python `str()` of non-string values in the bot's result message is the `render` parameter.
- Markdown rendering and the actual sending of messages: each handler returns the replies it would send.
- Async execution and concurrent submissions for one session are not modelled.
- Answers are modelled as string ids. Non-string JSON answer values, and option entries without `id`/`text`, are not modelled.
- Session ids are natural numbers handed out by the store, standing in for the database's generated ids (the request carries them as strings).
- Formatter.SortByOrder: the relative order of questions with equal `order_num` is not stated in a contract. `Insert` is stable, but transcript uniqueness is proved only for distinct orders.

The model keeps these behaviours of the code:
- U+2028/U+2029 become '\n', not a space.
- A null system prompt raises instead of counting as empty.
- The reply is not fence-stripped and there is no raw-text fallback.
- `start_session` does not check `is_active`.
- Submitting again moves an `analyzed` session back to `analyzing` and keeps its old results until the new ones are written.
- A non-object `for_crm` fails only after the session has been marked `analyzed`.
- The profile update targets the request's `telegram_id`, not the session's owner.
- In `/profile`, any non-404 response is rendered from its body like a profile; an error body that is an object renders as all dashes.
- An unset `WEBAPP_URL` appears in links as "None".
