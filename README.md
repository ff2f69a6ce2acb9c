# Sakhi chat routing, modelled in Dafny

Sakhi is a small mental-health companion web app. Its whole server is
`chatbot.py`. This project models the request-routing and transcript core
of that file:

- **Classification** of a posted message (`Intent`). If the lower-cased
  message holds one of the image words "draw", "picture", "image",
  "generate" or "show me", it asks for an image. Otherwise the first row of
  the keyword table that occurs picks a wellness provider; the table is
  quote and inspire for the quote provider, then breathing and relax for
  the breathing provider. Otherwise the message goes to general chat.
- **The transcript** `chat_log` (`Transcript`). It starts as the single
  system message. The wellness and general-chat paths append one user
  message and one assistant message. The image path never touches it.
  The invariant `Alternating` holds of every reachable transcript: the
  system message first, then user/assistant pairs.
- **One request** (`Router.Respond` on values, `Router.Session.Handle` on
  the mutable session). It calls exactly one service and returns a text or
  an image envelope. A failing image or chat client produces a warning
  text that starts with "⚠️ Image generation failed (" or "⚠️ Chat failed (".
- **Reset** (`Router.Session.Reset`): the transcript goes back to the
  system message alone, and the status is "ok".
- **The page's view** of the transcript (`Transcript.Visible`): every
  non-system message, in order.

The services are parameters (`Router.Collaborators`):

- The two wellness providers from `mcp_client` are uninterpreted functions
  of the raw message.
- The image client and the chat client return `Ok(value)` or `Err(cause)`.
  The cause stands for the text of the exception they raised.

`Scenarios` replays a few concrete messages through the model. Examples:

- "DRAW a quote" is an image request.
- "relax, then a quote" goes to the quote provider, because table order
  wins over message order.
- "hello, how are you" on a fresh transcript reaches the chat client with
  exactly the system message and the user's message.

Files:

- `text.dfy`: lower-casing and the substring test.
- `transcript.dfy`: messages, the seed, the invariant and the filter.
- `intent.dfy`: the keyword tables and classification.
- `router.dfy`: the collaborators, `Respond`, the keyword loop and the
  `Session` class.
- `scenarios.dfy`: concrete messages.

## Model

| member | source | states |
|---|---|---|
| `Text.Lower` | chatbot.py:63 | The lower-cased message has the same length, and every character is the case mapping of the input character at the same position. |
| `Text.Contains` | chatbot.py:78 | The definition of Python's substring test `keyword in text`: the word occurs at some position of the text. It has no contract of its own; `Intent.AnyOccurs`, `Intent.FirstMatch` and `Intent.Classify` are stated in terms of it. |
| `Intent.WantsImage` | chatbot.py:63 | The image-trigger test on the lower-cased message. It has no contract of its own; `Intent.Classify` states that it holds exactly when some image word occurs. |
| `Intent.AnyOccurs` | chatbot.py:63 | The `any(... for word in words)` test is true exactly when some word of the list occurs as a substring of the text. |
| `Intent.FirstMatch` | chatbot.py:77-78 | A hit is a row whose keyword occurs and before which no row's keyword occurs. No hit means no row's keyword occurs. |
| `Intent.Classify` | chatbot.py:63-78 | Classification has three outcomes. Image is chosen exactly when an image word occurs in the lower-cased message. Wellness is chosen exactly when no image word occurs but some keyword does; the chosen row is the first matching row in table order. General chat is chosen exactly when neither occurs. The image prompt is the raw message followed by the calming suffix. |
| `Intent.ImageHasPriority` | chatbot.py:63-78 | An image word sends the message to the image path even when wellness keywords occur too. |
| `Intent.FirstKeywordWins` | chatbot.py:77-78 | With no image word, the keyword and provider are those of the first table row whose keyword occurs, whatever the message order. |
| `Intent.QuoteChoice` | chatbot.py:43-48 | The quote provider is chosen if and only if there is no image word and "quote" or "inspire" occurs. |
| `Intent.BreathingChoice` | chatbot.py:43-48 | The breathing provider is chosen if and only if there is no image word, neither "quote" nor "inspire" occurs, and "breathing" or "relax" occurs. |
| `Intent.CaseInsensitiveRouting` | chatbot.py:63-78 | Two messages with the same lower-case form take the same route; outside the image path they get the same intent. |
| `Transcript.SeedAlternating` | chatbot.py:40 | The initial transcript, the system message alone, has the transcript invariant. |
| `Transcript.AppendPairAlternating` | chatbot.py:80-81 | Appending one user message and then one assistant message keeps the invariant. |
| `Transcript.Visible` | chatbot.py:53 | The view keeps exactly the non-system messages of the transcript and no others. |
| `Transcript.VisibleAppend` | chatbot.py:53 | The filter distributes over concatenation, so it keeps transcript order. |
| `Transcript.VisibleWithoutSystem` | chatbot.py:53 | A transcript without system messages is shown whole. |
| `Transcript.VisibleAfterPair` | chatbot.py:53 | After a user/assistant pair is appended, the view is the old view followed by that pair. |
| `Transcript.VisibleOfAlternating` | chatbot.py:53 | For every reachable transcript, the view is everything after the first message. |
| `Transcript.VisibleOfSeed` | chatbot.py:103 | Right after a reset the page shows no messages. |
| `Router.Respond` | chatbot.py:61-97 | The whole `chat` handler on values: the envelope and the new transcript of one request. It has no contract of its own; `Router.ImageExchange`, `Router.WellnessExchange`, `Router.GeneralChatExchange`, `Router.RespondKeepsAlternating` and `Router.VisibleAfterRespond` state its properties. |
| `Router.ChatReply` | chatbot.py:92-94 | A successful completion's content is the reply unchanged. A failure gives a text that starts with the chat warning prefix and continues with the cause and a closing parenthesis. |
| `Router.Provide` | chatbot.py:79 | The wellness provider chosen by the table row, called with the raw message. It has no contract of its own; `Router.WellnessExchange` states that its output is appended and returned verbatim. |
| `Router.ImageExchange` | chatbot.py:63-74 | On the image path the transcript is unchanged whether the client succeeds or fails. On success the envelope is the image URL. On failure it is a text starting with the image warning prefix and carrying the cause. |
| `Router.ImageUrlIsFixed` | chatbot.py:70-72 | The image URL is "/static/generated.png". |
| `Router.WellnessExchange` | chatbot.py:79-82 | A wellness exchange grows the transcript by exactly two. The additions are the raw message as a user message and the provider's output verbatim as an assistant message. That output is also the reply. |
| `Router.GeneralChatExchange` | chatbot.py:85-97 | A general-chat exchange grows the transcript by exactly two, a user message and then an assistant message, whether the client succeeds or fails. The chat client is given the whole transcript ending with the new user message. On failure the assistant text starts with the chat warning prefix. |
| `Router.RespondKeepsAlternating` | chatbot.py:61-97 | Every request keeps the transcript invariant and the system message in first place. It only appends: zero messages on the image path, two otherwise. |
| `Router.VisibleAfterRespond` | chatbot.py:53 | After any request, the view is the old view followed by exactly the messages the request appended. |
| `Router.ScanKeywords` | chatbot.py:77-78 | The keyword loop returns the first matching row of the table in order, or none, as `FirstMatch` specifies. |
| `Router.Route` | chatbot.py:63-84 | The handler's routing steps give exactly the intent `Classify` defines. |
| `Router.Session.constructor` | chatbot.py:40 | A new session holds only the system message and satisfies the invariant. |
| `Router.Session.Handle` | chatbot.py:61-97 | One request leaves the session's transcript and envelope as `Respond` describes, keeps the invariant, and grows the transcript by zero (image) or two messages. |
| `Router.Session.Reset` | chatbot.py:101-104 | The transcript becomes exactly `[system message]`, of length one, whatever it held before, and the status is "ok". Because the result does not depend on the old transcript, resetting twice gives the same state as resetting once. |
| `Router.Session.VisibleLog` | chatbot.py:53 | The page receives the filtered transcript, which for a valid session is everything but the system message. |
| `Scenarios.DrawASunset` | chatbot.py:63-74 | "draw a sunset" is an image request. If the image client fails, the reply is the warning text and the transcript is unchanged. |
| `Scenarios.ShoutedDrawAQuote` | chatbot.py:63 | "DRAW a quote" is an image request: upper case does not hide the image word, and the image word beats "quote". |
| `Scenarios.GiveMeAQuote` | chatbot.py:79-82 | "give me a quote" goes to the quote provider, although it holds the letters of "image" and "generate". On a fresh transcript it leaves the system message, the user message and the quote. |
| `Scenarios.RelaxThenAQuote` | chatbot.py:77-78 | "relax, then a quote" goes to the quote provider although "relax" comes first in the message. |
| `Scenarios.RelaxNow` | chatbot.py:79-82 | "relax now" goes to the breathing provider, and the transcript grows by that pair. |
| `Scenarios.HelloHowAreYou` | chatbot.py:85-97 | "hello, how are you" is general chat. On a fresh transcript the chat client sees the system message and the user message, and the reply is appended after them. |
| `Scenarios.EmptyMessage` | chatbot.py:84-85 | An empty message is not rejected; it goes to general chat. |

## Left out

- None of the web layer is modelled: the FastAPI app, routes, static mounting, the Jinja page and `JSONResponse`. That is transport and UI. The JSON body is the datatype `Envelope`, and `get_chat` is reduced to its filter.
- Reading `HF_TOKEN` and constructing the clients are left out; they are startup configuration.
- The real image and chat calls are not modelled, nor their model names or `temperature=0.6`. These are network calls, so their outcomes are the `Ok`/`Err` values the `Collaborators` functions return.
- Saving the image with PIL to `static/generated.png` is file I/O and is left out. The image bytes are ignored; only the fixed URL is kept.
- The bodies of `get_quote` and `suggest_breathing` are not part of this model: `mcp_client` is not available. The providers are total functions of the raw message, so a provider that raises is not modelled. In the source such an exception would escape the handler.
- A chat completion whose content is `None` is not modelled; `complete` returns a string.
- Concurrency is not modelled: the async handlers share one global list, and the model assumes requests run one at a time.
- Exception messages are an arbitrary `cause` string.
- Text.Lower: changes only the ASCII letters A-Z and keeps the length. Python's `str.lower()` also maps other upper-case letters, and it can lengthen the string: "İ" (U+0130) becomes "i" followed by U+0307. Routing is unaffected. Only two non-ASCII characters lower to ASCII letters: U+0130 gives an "i" followed by U+0307, and U+212A gives "k". None of the nine words at chatbot.py:63 and chatbot.py:43-48 contains "k", and none has an "i" that ends the word or is followed by U+0307. The lower-cased text is used only for routing; the transcript and the image prompt keep the raw message.
- Python's `in` tests the keyword on a fresh `user_input.lower()` in every loop iteration. The model lower-cases once and scans that text. The result is the same.
- The providers are called with the raw message (chatbot.py:79).
- The keyword table holds only quote, inspire, breathing and relax (chatbot.py:43-48).
