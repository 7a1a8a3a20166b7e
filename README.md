# shibe-cogs-v3: the AI cog and the villager link, modelled in Dafny

Two cogs of a Red-DiscordBot cog collection.

- **`AICommand`** (shibeai/ai.py) forwards a user's text to a chat-completion endpoint.
  It holds two settings, the endpoint URL and the system prompt. Each starts as the
  environment's value or a placeholder, and the owner commands `aisetup` and `aisys`
  overwrite them. Every request carries exactly two messages: the system prompt, then the
  user's text. It also carries fixed settings: a temperature, `max_tokens` 150 and
  `stream` false. Any status other than 200 yields a fixed error text. A 200 answer is
  read as `choices[0].message.content`. A missing key falls back to a fixed parse-error
  text. Anything the defaults do not cover, such as an empty `choices` list, raises a
  Python exception. The `ai` command catches that exception and replies
  `"Error: " + str(e)`.
- **`villager`** (villager/villager.py) replies with the Nookipedia wiki prefix followed by
  the user's text. The command calls `replace(" ", "_")` but throws the result away, so
  spaces reach the link unchanged. The model states that behaviour.

Files:

- `pyjson.dfy` (module `PyJson`) defines JSON values as Python holds them after decoding.
  It models the two Python operations the cog applies to them, `v.get(key, default)` and
  `v[0]`. Each yields a value, or raises the exception Python would raise, with the text
  `str(e)` gives.
- `shibeai.dfy` (module `ShibeAI`) holds the payload builder and its reader (how the
  endpoint reads the message list). It also holds the decoder, the fetch and the reply
  boundary as functions. The cog itself is the class `AICommand`: its two settings are
  fields and its commands are methods. The HTTP exchange is a function parameter,
  `endpoint: Request -> HttpOutcome`. An outcome is either a response, holding the status
  and what `response.json()` yields, or an exception raised by the HTTP client.
  `PromptChangeScenario` is a client walk-through. It changes the prompt and shows that
  the next request carries the new prompt, using the example endpoint `BobEndpoint`.
- `villager.dfy` (module `Villager`) models Python's `str.replace` for one character and
  the link the command sends.

The source keeps no per-user conversation history. It has no stored message window,
trimming, purge or corrupt-record handling. Each request is built from the current system
prompt and the new text alone, so none of that is modelled.

## Model

| member | source | states |
|---|---|---|
| `PyJson.Get` | shibeai/ai.py:34 | `.get` returns the value when the dict has the key, the default when it does not, and raises `AttributeError("'<type>' object has no attribute 'get'")` on any non-dict |
| `PyJson.First` | shibeai/ai.py:34 | `[0]` gives the first list element or first character. An empty list raises `IndexError("list index out of range")`, an empty string raises the string variant, a dict raises `KeyError("0")`, and a null, bool or number raises `TypeError("'<type>' object is not subscriptable")` |
| `ShibeAI.DecodeMessage` | shibeai/ai.py:24-25 | a message entry is read back only when it carries a known role name and a string content, and these are the decoded ones |
| `ShibeAI.MessageRoundTrip` | shibeai/ai.py:24-25 | reading an encoded `{role, content}` entry gives back the same message |
| `ShibeAI.DecodeMessages` | shibeai/ai.py:23-26 | a message list is read back entry by entry, in order and with the same length, and fails exactly when some entry is not a message |
| `ShibeAI.BuildPayload` | shibeai/ai.py:22-30 | the payload has exactly the keys messages, temperature, max_tokens and stream. Its message list holds two entries, each a dict with exactly the keys role and content, which read back as `[system: prompt, user: text]` in that order. Temperature is the fixed literal, max_tokens is 150 and stream is false |
| `ShibeAI.PayloadSettingsFixed` | shibeai/ai.py:27-29 | any two payloads agree on every key except messages |
| `ShibeAI.Decode` | shibeai/ai.py:34 | if choices[0].message.content is present, it is returned as it is. A missing choices, message or content key yields the parse-error text. An empty choices list raises `IndexError`. Decoding returns without raising exactly for a dict body whose choices is missing or is a list whose first entry is a dict with no message or a dict message, and then it returns the content or the fallback |
| `ShibeAI.Fetch` | shibeai/ai.py:31-36 | an exception from the client propagates. A status other than 200 yields the fetch-error text. A 200 response propagates a body-reading exception or otherwise decodes the body |
| `ShibeAI.NonOkStatusIgnoresBody` | shibeai/ai.py:32-36 | for a status other than 200 the result is the fetch-error text whatever the body |
| `ShibeAI.Reply` | shibeai/ai.py:44-48 | a returned value is sent unchanged, and an exception is sent as `"Error: "` followed by its message |
| `ShibeAI.EmptyChoicesReported` | shibeai/ai.py:34-48 | a 200 body whose choices is an empty list replies `"Error: list index out of range"` instead of crashing |
| `ShibeAI.BobReplies` | shibeai/ai.py:22-36 | with the prompt "You are Bob.", an endpoint that answers "hi" only to `[system: "You are Bob.", user: "hello"]` gets that answer back for "hello" and the fetch-error text for any other text |
| `ShibeAI.AICommand.constructor` | shibeai/ai.py:15-16 | each setting is the environment value when given, otherwise the literal placeholder |
| `ShibeAI.AICommand.FetchAIResponse` | shibeai/ai.py:21-36 | posts the payload for the current prompt and text to the current URL and returns the fetch result of the answer. It changes no field |
| `ShibeAI.AICommand.HandleAi` | shibeai/ai.py:39-48 | the `ai` command sends the reply for the fetch result of the current request |
| `ShibeAI.AICommand.AiSetup` | shibeai/ai.py:52-57 | sets the URL to the given text without validation, keeps the prompt, and acknowledges |
| `ShibeAI.AICommand.AiSys` | shibeai/ai.py:61-66 | sets the prompt to the given text without validation, keeps the URL, and acknowledges |
| `Villager.Replace` | villager/villager.py:17 | `str.replace` of one character returns a new string of the same length, with each occurrence replaced and every other character kept |
| `Villager.WikiLink` | villager/villager.py:17-18 | the link is the wiki prefix followed by the text verbatim. Its length is the sum of both lengths, and a space in the text stays a space in the link |
| `Villager.SpacesKept` | villager/villager.py:17-18 | the link equals the underscored link exactly when the text has no space, because the replacement is discarded |

## Left out

- The aiohttp session, the POST, `cog_unload` and all async scheduling: network I/O. The exchange is the `endpoint` parameter instead.
- Reading the environment. The two variables are `Option<string>` parameters of the constructor.
- Discord glue: `trigger_typing`, the command decorators and argument parsing, and the `is_owner` check. The model also omits how `ctx.send` turns a value into a message, including its own failures (empty or over-long content). The model stops at the value handed to `ctx.send`.
- Serialising the payload to JSON text and parsing the response text. The JSON object is a map, so key order and duplicate keys are not represented. The text of a body-parsing exception is input, not computed.
- Python strings that Dafny's `string` cannot hold: a JSON escape such as `"\ud800"` decodes to a Python `str` with a lone surrogate, which a Dafny `string` (Unicode scalar values only), and so `Str`, cannot represent.
- The temperature 0.7 is a float. It is kept as the uninterpreted literal `Float("0.7")`.
- status/status.py: it renders a presence embed, which is UI, and it is not part of this model.
- Conversation history, 50-message trimming, purge, corrupt-state handling and concurrent access. The source has none of these: every request is built from the current prompt and the new text only.
