# Citizen engagement portal — a Dafny model of its core

The portal is a Flask app. Logged-in citizens chat with an IBM watsonx Granite
model, each message is scored by IBM Watson NLU for sentiment, and an operator
dashboard aggregates the sentiment log. This project models the parts of
`app.py` and `utils.py` that carry logic, as pure functions:

- **Py** (`py.dfy`): the Python semantics the code relies on. It covers `None`,
  exceptions as values, the truthiness of environment variables, the texts of
  `KeyError`/`IndexError`, and `str.strip()` with Python's whitespace set.
  `Strip` scans inward from both ends, as CPython does. Its result is
  characterised by `IsStripOf`, which is proved to determine the result uniquely.
- **Remote** (`remote.dfy`): `get_iam_token`, `get_granite_response` and
  `get_sentiment` as total decision procedures. The network is replaced by the
  reply each service would give (`TokenReply`, `GenReply`, `NluReply`). Each
  function returns its value together with the trace of remote calls it made
  (`Traced`), so "makes no remote call" is stated as "the trace is empty". A
  sentiment analysis is one call in the trace, although the SDK fetches its own
  bearer token inside it. A
  sentiment fault raised while the client is being set up, before the analysis
  request, leaves the trace empty.
- **Records** (`records.dfy`): the in-memory data. This is the `users` table,
  `chat_history` and `feedback_data`.
- **Feedback** (`feedback.dfy`): `dashboard`. It covers the total, the
  per-label distribution (`value_counts`) and the last five negative records
  (`tail(5)`). A reference definition (`LastNegatives`) walks the log backwards
  and is proved equal to "filter, then take the tail".
- **Portal** (`portal.dfy`): `load_user`, the login check, the prompt
  wrapper and `chat`. `chat` is a state transition over
  `(chat_history, feedback_data)`. A POST whose form lacks `message` is a
  request of its own. Flask answers it with an error page for the missing
  field: 400 with debug off, or the debugger's 500 page under
  `app.run(debug=True)` (app.py:121).
- **Sessions** (`sessions.dfy`): properties of arbitrary sequences of chat
  requests. Transcripts stay in user/ai pairs, and each user's messages are
  exactly that user's records in the feedback log. The log only grows, and the
  dashboard total counts the POSTs that carry a message.

## Model

| member | source | states |
|---|---|---|
| Py.SkipSpace | utils.py:69 | scanning forward from a position stops at the first non-whitespace character, or at the end, having passed only whitespace |
| Py.SkipSpaceBack | utils.py:69 | scanning backward stops just after the last non-whitespace character, or at the lower bound, having passed only whitespace |
| Py.Strip | utils.py:69 | the reply text has no leading or trailing whitespace and is a slice of the generated text surrounded only by whitespace |
| Py.StripOfUnique | utils.py:69 | there is only one such slice, so the characterisation determines `strip()` completely |
| Py.StripIdempotent | utils.py:69 | stripping an already stripped reply changes nothing |
| Remote.GetIamToken | utils.py:24-36 | always issues exactly one form-encoded token request carrying the API key and the fixed grant type; yields the `access_token` of a decoded body and `None` on every fault, never raising |
| Remote.FirstGeneratedText | utils.py:68-69 | `results[0].generated_text` of the body, or the exact `KeyError`/`IndexError` text when a field or the first result is missing |
| Remote.GenerationText | utils.py:65-76 | an HTTP error gives "ERROR: " + body; any other fault gives "ERROR: " + its description; a generated text is returned stripped |
| Remote.GetGraniteResponse | utils.py:40-76 | missing API key or project id gives exactly "ERROR: Missing Watsonx API credentials." with no request; a falsy token gives exactly "ERROR: Failed to get IAM access token." after only the token request; otherwise a second request posts the prompt with a Bearer token, greedy decoding and 200 new tokens |
| Remote.GraniteErrorOrGenerated | utils.py:40-76 | every path except a successful generation returns a string starting with "ERROR: "; a successful one returns the generated text without surrounding whitespace |
| Remote.GeneratedTextCanImitateError | utils.py:44-69 | a successful reply whose text is a diagnostic cannot be told apart from the real token failure |
| Remote.DocumentOf | utils.py:102 | the document sentiment is found exactly when both `sentiment` and `sentiment.document` are present, and is returned unchanged; otherwise the `KeyError` text names the missing key, and a fault keeps its own text |
| Remote.GetSentiment | utils.py:80-107 | missing NLU key or URL gives `{unavailable, 0}` with no request; a fault while setting up the authenticator, client or service URL gives `{error, 0}` with no request; otherwise exactly one analysis request of the given text; the service's `sentiment.document` is returned unchanged, and any fault or missing field gives `{error, 0}` |
| Remote.SentimentLabelKnown | utils.py:80-107 | if the service keeps to positive/negative/neutral, every outcome label is one of five known labels, and every sentinel scores 0 |
| Feedback.Bump | app.py:108 | counting one more label keeps the slices distinct and positive, adds one to that label's slice only, and adds one to the sum |
| Feedback.ValueCounts | app.py:108 | there is one slice per distinct label present, each at least 1 and equal to that label's number of occurrences, and the slices sum to the number of records |
| Feedback.Negatives | app.py:112 | the filter result is no longer than the log and holds only negative records |
| Feedback.NegativesMembers | app.py:112 | the filter keeps every negative record and nothing else, and there are as many as the label column has "negative" entries |
| Feedback.NegativesAppend | app.py:112 | filtering preserves log order: the negatives of a concatenation are the negatives of each part, in turn |
| Feedback.TakeLast | app.py:112 | `.tail(k)`: the last min(k, length) elements, as a suffix of the input |
| Feedback.RecentConcerns | app.py:112 | at most 5 records, all negative, exactly min(5, number of negatives) of them, forming a suffix of the negative subsequence |
| Feedback.TakeLastNegatives | app.py:112 | filtering and then taking the last k equals walking the log backwards and collecting k negatives |
| Feedback.RecentConcernsAreLastNegatives | app.py:112 | the recent concerns are the last five negative records, oldest first |
| Feedback.ChartLabelsPresent | app.py:108 | a label has a non-empty chart slice exactly when some feedback record carries it |
| Feedback.Dashboard | app.py:100-118 | an empty log gives total 0, no chart and no concerns; otherwise the total is the record count, and the chart's counts are positive, cover every label present and sum to the total |
| Feedback.RecentConcernsMatchChart | app.py:107-112 | the number of recent concerns is the chart's "negative" count, capped at five |
| Portal.LoadUser | app.py:32-35 | a user is returned exactly when the id is a key of `users`, and it carries that id |
| Portal.Login | app.py:40-48 | login succeeds exactly when the username is a key of `users` and the password equals the stored one |
| Portal.LoggedInUserLoads | app.py:31-46 | a user accepted at login is found again by `load_user` |
| Portal.BuiltInAccount | app.py:18 | the built-in account `citizen1` accepts `password123` and no other password |
| Portal.ContextPrompt | app.py:81-86 | the prompt is the fixed instructions, then the message verbatim, then the fixed closing text |
| Portal.PromptRoundTrip | app.py:81-87 | the message can be read back out of its prompt |
| Portal.ContextPromptInjective | app.py:81-86 | different messages give different prompts |
| Portal.Chat | app.py:70-98 | the caller's transcript is created empty on first access, and no other transcript changes; a GET changes nothing else, calls nothing and renders the transcript; a POST without `message` changes nothing else, calls nothing and renders no transcript; a POST appends `{user, message}` then `{ai, reply}` and one record holding the original message with its sentiment label and score |
| Portal.PostAppendsExchange | app.py:77-96 | a POST grows the caller's transcript by exactly two entries, keeping the old ones, and logs exactly one record of the caller's message |
| Portal.PostWithoutMessageRecordsNothing | app.py:74-78 | a POST without `message` leaves the same state as a GET, issues no request, and gets Flask's error answer for the missing field instead of the transcript |
| Portal.PostSendsMessage | app.py:78-90 | with the generator configured and a token granted, the second request is the generation call and the message can be read back verbatim from its prompt; with the analysis client set up, the sentiment call in the trace carries the message itself |
| Portal.PostWithoutCredentials | app.py:77-96 | with the API key or the project id missing or empty, the ai entry is the credentials diagnostic and only the sentiment service is called |
| Sessions.PairedUserMessages | app.py:79-88 | a transcript of user/ai pairs holds one user message per two entries |
| Sessions.ExchangePreservesConsistency | app.py:79-96 | appending an exchange and its record together keeps each transcript's user messages equal to that user's records in the log |
| Sessions.GetPreservesConsistency | app.py:73-78 | a GET, or a POST without `message`, keeps the state consistent; a newly created transcript is empty, and the log has no records for that user |
| Sessions.ChatPreservesConsistency | app.py:70-98 | every request keeps transcripts paired and in step with the feedback log |
| Sessions.RunPreservesConsistency | app.py:70-98 | any sequence of requests from any consistent state, the empty one included, keeps transcripts paired and in step with the log |
| Sessions.RunExtendsLog | app.py:91-96 | over any sequence of requests the log keeps its records and grows by one per POST that carries a message |
| Sessions.RunExtendsTranscript | app.py:74-88 | over any sequence of requests each user's transcript keeps its entries and grows by two per POST of that user carrying a message |
| Sessions.DashboardCountsPosts | app.py:106-107 | from a fresh start, the dashboard total is the number of POSTs served that carry a message, and each transcript is twice that user's share of the log |

## Left out

- Flask routing, `render_template`, `flash`/`redirect`, the random secret key, Flask's error answer to a login form missing `username` or `password` (app.py:41-42; 400 with debug off, the debugger's 500 page under `app.run(debug=True)` at app.py:121; `Portal.Login` takes both as given strings), the `index`/`about`/`services`/`logout` pages and `.env` loading: these are web and I/O plumbing. `chat` is modelled for an already authenticated user id; `login_required` and the flask_login session are a library that is not part of this model.
- The HTTP exchanges themselves and the `ibm_watson` SDK's internals are abstracted. Each service is represented only by the reply it gives, and faults are kept as the text of the exception. The token request of `get_iam_token` is modelled as a call of its own. Every service is assumed to answer: neither `requests.post` (utils.py:30, utils.py:66) nor the NLU call (utils.py:96) has a timeout, so a service that never answers blocks `chat` forever, after app.py:79 has already appended the user entry.
- Remote.GetSentiment: the SDK's own IAM token request made inside `nlu.analyze` (utils.py:89, utils.py:96) is folded into the single `SentimentCall`, and a failure of that token request is one of the faults of `NluFault`.
- Plotly chart construction and `pio.to_html` are presentation. The model keeps only the label counts the chart is drawn from.
- Feedback.ValueCounts: the slices are in order of first occurrence. pandas orders `value_counts` by descending count, and the tie order is not modelled. The pie chart does not depend on the order.
- `print` and `traceback` logging: observability only.
- Concurrent requests racing on `chat_history` and `feedback_data` are not modelled. The source has no locking, and the model serves requests one at a time.
- Sentiment scores are carried as `real` and never computed with. The sentinels use 0.0 where Python uses the integer 0.
- JSON values of an unexpected type are not modelled: a non-string `access_token` or `generated_text`, a non-list `results`, or a `document` without `label`/`score`. The model covers only missing fields. The last case would make `chat` itself raise at app.py:94, after both transcript entries were appended at app.py:79 and app.py:88: the program would then keep an exchange with no feedback record, so `Sessions.Consistent` is proved only for the replies the model can express.
- Modelled as the code has it: the reply's sender tag is `ai`; a failed token exchange yields `None`; sentiment labels are free strings from the service. `Remote.SentimentLabelKnown` states the five-label property under the assumption that the service keeps to its own three labels.
