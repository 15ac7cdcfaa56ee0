# Mistral conversation agent — a Dafny model of its core

This project models the conversation agent of a Home Assistant integration
for Mistral's chat API. Four pieces are modelled.

- **Tool-ID reconciler** (`ToolIds`, `ids.dfy`). The remote API accepts
  only 9-character alphanumeric tool-call IDs. The reconciler keeps those as
  they are. Any other caller-side ID is replaced by a fresh random 9-character
  ID, and the replacement is remembered in a per-conversation map.
- **Message codec** (`MessageCodec`, `codec.dfy`). It turns chat-log entries
  into the API's wire messages (system/user text, assistant turns with tool
  calls, tool results), with every tool-call ID translated through the
  reconciler.
- **Stream decoder** (`StreamDecoder`, `stream.dfy`). It decodes a streamed
  reply. Text fragments pass straight through. Tool-call fragments are
  buffered per positional index. A `tool_calls` finish emits the buffered calls
  in ascending index order, each with an internal ID recorded in the ID map.
  Within one batch, each internal ID maps back to its buffer's wire ID, provided
  no freshly drawn `token_hex` collides with a key already in the map.
- **Conversation loop** (`ConversationLoop`, `loop.dfy`). It runs at most
  `MAX_TOOL_ITERATIONS` rounds. Each round builds a request and gets one
  assistant turn. The turn is either the answer, or tool calls to run first.
  Music-assistant calls are run against the host's service registry under a
  fixed per-service argument policy (`ToolDispatch`, `dispatch.dfy`). All
  other calls go to the host's tool API. Every call gets exactly one result
  entry in the chat log.

From the API client (`MistralClient`, `client.dfy`) the model covers the
constructor's argument checks and the server-sent-event line framing: strip
each line, skip blank lines, keep `data: ` lines, stop at `[DONE]`, skip
payloads that are not JSON.

Modelling choices:

- **The random source** (`secrets`) is an oracle `Rng(pick, pos)`. The i-th
  character drawn is `alphabet[pick(i) % |alphabet|]`. The ghost assumption
  `Fair(pick)` says that whenever some 9-character ID is still free, the
  generated IDs eventually hit a free one. It is satisfiable (an oracle cycling
  through a de Bruijn sequence of order 9 over the 62 characters is fair). The
  regenerate-until-fresh loop terminates under it whenever some ID is free.
  When every ID is already a value of the map, the source's loop never ends.
  The model returns `None` there instead (`IdSpaceFull`, decided by the
  computable test `AllIds(9) <= values`), and the callers pass that outcome
  up.
- **JSON** is an abstract `Json` value. `json.dumps` and `json.loads` are
  function parameters; `loads` returns `None` on a parse error.
- **The outside world becomes function parameters.** This covers the API's
  replies, the tool executors and the service registry (`Host`, `LlmApi`).
  An executor returns either a value or a raised exception's message.
- **The chat log** is a class with an append-only `content` field.
- **The loop's specification is per round.** `RoundOf` gives the pure effect
  of one assistant turn: the entries appended and whether the loop returns.
  `HandleChatLog` is proved to append exactly `Transcript(turns)`. Each
  request it sends is proved to encode the log as it stood before that round
  (`RequestsAgree`). Its reply is `None` only where the source would hang:
  building a request needed a fresh ID while the ID space was full.

## Model

| member | source | states |
|---|---|---|
| ToolIds.IdPatternAcceptsTrailingNewline | mistral_conversation/entity.py:33 | the ID pattern as written accepts `"abcdefghi\n"`, which is not a 9-character alphanumeric ID |
| ToolIds.AlphabetIsAlnum | mistral_conversation/entity.py:36 | the alphabet has 62 characters, all ASCII letters or digits |
| ToolIds.Draws | mistral_conversation/entity.py:37 | n draws give n characters, each from the alphabet |
| ToolIds.DrawsSnoc | mistral_conversation/entity.py:37 | drawing n+1 characters is drawing n then taking the oracle's next pick |
| ToolIds.Choice | mistral_conversation/entity.py:37 | one `secrets.choice` returns an alphabet character picked by the oracle and advances it by one |
| ToolIds.JoinChoices | mistral_conversation/entity.py:37 | the join of `count` choices is the next `count` draws; the oracle advances by `count` |
| ToolIds.GenMistralId | mistral_conversation/entity.py:35-37 | a generated ID is the next 9 alphabet draws and always has the remote ID shape |
| ToolIds.TokenHex | mistral_conversation/entity.py:111 | `token_hex(8)` is the next 16 hex-digit draws |
| ToolIds.ResolveStable | mistral_conversation/entity.py:41-42 | an ID that already resolves keeps its resolution under every extension of the map |
| ToolIds.AllIdsMembers | mistral_conversation/entity.py:33-37 | the strings of 9 alphabet characters are exactly the 9-character alphanumeric IDs |
| ToolIds.SpaceFullIff | mistral_conversation/entity.py:43-44 | the space of IDs is full iff every string of 9 alphabet characters is a used value |
| ToolIds.FullSpaceTakesEveryDraw | mistral_conversation/entity.py:43-44 | once the space is full, every ID the loop would draw is already used, so the loop never ends |
| ToolIds.FullSpaceIsLarge | mistral_conversation/entity.py:43-44 | a full space needs at least as many used values as there are IDs |
| ToolIds.EmptyMapHasRoom | mistral_conversation/entity.py:43-44 | an empty map leaves room for a fresh ID |
| ToolIds.FreshId | mistral_conversation/entity.py:43-44 | while some ID is free, the regenerate loop returns a remote-shaped ID outside the used values; it is the first candidate draw that is fresh |
| ToolIds.NormalizeOutgoing | mistral_conversation/entity.py:39-46 | a remote-shaped ID (`None` read as `""`) is returned unchanged with the map untouched; a known ID gets its mapped value; any other ID gets a fresh remote-shaped ID that is recorded, or `None` (map and oracle untouched) exactly when every ID is taken, where every draw of the source is already used; the map only grows, by that one key; injectivity is kept |
| ToolIds.NormalizeOutgoingAsWritten | mistral_conversation/entity.py:39-46 | with the ID pattern of line 33 as written, an ID the pattern accepts goes out unchanged with the map untouched; an ID that goes out unchanged without being remote-shaped is 10 characters long and accepted by the pattern; any ID the pattern rejects gets its mapped value if known, else a fresh remote-shaped ID outside the map's values that is recorded, or `None` exactly when every ID is taken; the map only grows and stays injective |
| ToolIds.NormalizeTwice | mistral_conversation/entity.py:39-46 | normalizing the same ID twice gives the same outcome and leaves the map as the first call left it (idempotence); at most one key is added |
| ToolIds.LookupByValue | mistral_conversation/entity.py:111 | under an injective map only one key maps to a given wire ID, so the reverse lookup is unambiguous |
| Json.ParseOrEmpty | mistral_conversation/entity.py:109-110 | arguments that do not parse decode to `{}`; others decode to the parsed value |
| MessageCodec.WireCalls | mistral_conversation/entity.py:73-77 | one wire tool call per tool call |
| MessageCodec.ConvertStable | mistral_conversation/entity.py:61-79 | once an entry's IDs are mapped, converting it under any extension of the map gives the same messages |
| MessageCodec.BuildStable | mistral_conversation/entity.py:81-85 | the same for a whole history |
| MessageCodec.ConvertNextCall | mistral_conversation/entity.py:74 | converting one more call keeps the loop invariant (converted calls match wire calls under the current map, and the map grows by exactly the replaced IDs), or fails only when that call needs a fresh ID and the space is full |
| MessageCodec.ConvertToolResult | mistral_conversation/entity.py:62-68 | a tool result becomes one tool message carrying the translated ID, the name and `dumps` of the result; the map gains the ID iff it was replaced; `None` only when the ID needs a fresh ID and the space is full |
| MessageCodec.CallerIdsWithin | mistral_conversation/entity.py:81-85 | the IDs of one entry are among the IDs of the whole history |
| MessageCodec.ConvertToolCalls | mistral_conversation/entity.py:73-77 | the wire calls are the calls under the final map (name, `dumps` of the arguments, translated ID) and the map gains exactly the replaced IDs; `None` only when a call ID needs a fresh ID and the space is full; the map always keeps injectivity and remote values |
| MessageCodec.ConvertChatContent | mistral_conversation/entity.py:61-79 | the messages are the pure conversion under the final map and the map gains exactly the entry's replaced IDs; `None` only when one of the entry's IDs needs a fresh ID and the space is full; injectivity is kept |
| MessageCodec.BuildNext | mistral_conversation/entity.py:83-84 | one more entry keeps the build loop invariant, or fails only when that entry needs a fresh ID and the space is full |
| MessageCodec.BuildMessages | mistral_conversation/entity.py:81-85 | the messages are the pure conversion of the whole history under the final map and the map gains exactly the replaced IDs of all entries; `None` only when some entry's ID needs a fresh ID and the space is full; injectivity is kept |
| MessageCodec.BuildCount | mistral_conversation/entity.py:61-79 | every entry yields exactly one message, except plain turns with empty text, which yield none |
| MessageCodec.BuildAppend | mistral_conversation/entity.py:81-85 | building a concatenated history is concatenating the builds |
| MessageCodec.EntryMessagesInPlace | mistral_conversation/entity.py:81-85 | entry i's messages appear, in order, right after those of the entries before it |
| MessageCodec.CallAndResultAgree | mistral_conversation/entity.py:65 | a tool result carries the same wire ID as the assistant tool call it answers |
| MessageCodec.ReplacedIdsStayApart | mistral_conversation/entity.py:43-45 | two distinct replaced caller IDs never share a wire ID |
| MessageCodec.WireIdsAreRemote | mistral_conversation/entity.py:41-46 | every mapped ID goes out in the remote ID shape |
| MessageCodec.FromWireToolCalls | mistral_conversation/entity.py:256-266 | reading wire calls back gives one call per wire call |
| MessageCodec.ToolCallsRoundTrip | mistral_conversation/entity.py:73-77 | reading encoded calls back gives the same names and arguments; a replaced ID maps back to its original through the injective map |
| StreamDecoder.SortedKeys | mistral_conversation/entity.py:107 | `sorted` of the buffer indices is strictly increasing and holds exactly those indices |
| StreamDecoder.PendingCalls | mistral_conversation/entity.py:106-113 | one call per buffered index |
| StreamDecoder.MergeFragments | mistral_conversation/entity.py:98-104 | the fragment loop computes the pure merge of the fragments into the buffers |
| StreamDecoder.MergeAllAt | mistral_conversation/entity.py:98-104 | after merging, an index has a buffer iff it had one or a fragment names it; its ID and name are the last non-empty ones; its arguments are the old arguments followed by every fragment's arguments for it, in order |
| StreamDecoder.InternalIdFor | mistral_conversation/entity.py:111 | a known wire ID gets a key already mapped to it; an unknown one gets a fresh hex token; a token is drawn either way |
| StreamDecoder.RecordedKeepsInjective | mistral_conversation/entity.py:111-112 | recording a wire ID under the key chosen that way keeps the map injective |
| StreamDecoder.FlushNext | mistral_conversation/entity.py:108-113 | emitting one buffered call keeps the flush invariant |
| StreamDecoder.FlushToolCalls | mistral_conversation/entity.py:106-113 | the emitted calls, IDs aside, are the pending calls in index order; each internal ID is recorded in the map; if no drawn token collides with an existing key, call i's internal ID maps to the wire ID of the i-th buffer; injectivity is kept |
| StreamDecoder.ChainMapsBack | mistral_conversation/entity.py:111-112 | if no drawn token collides with an existing key, after n recordings each of the first n internal IDs still maps to its buffer's wire ID |
| StreamDecoder.FinishChoice | mistral_conversation/entity.py:105-115 | a tool-calls finish appends, IDs aside, exactly one batch holding the pending calls after the text; if no drawn token collides with an existing key, each call's internal ID maps to its buffer's wire ID; the ID map stays injective and only grows |
| StreamDecoder.ProcessChoice | mistral_conversation/entity.py:94-115 | one choice yields, IDs aside, the pure step's events and buffers; every emitted ID is in the map |
| StreamDecoder.ProcessChunk | mistral_conversation/entity.py:93-115 | the same for all choices of a chunk |
| StreamDecoder.TransformStream | mistral_conversation/entity.py:87-115 | the whole stream yields, IDs aside, the pure decoding of all its choices from empty buffers; every internal ID is a key of the map; injectivity is kept |
| StreamDecoder.DecodeAppend | mistral_conversation/entity.py:92-93 | decoding concatenated choices is decoding the first part and then the second from the buffers it leaves |
| StreamDecoder.DecodeTextAndBatches | mistral_conversation/entity.py:95-96 | the streamed text is the concatenation of the non-empty content fragments; one tool batch is emitted per `tool_calls` finish |
| StreamDecoder.FinishClearsBuffers | mistral_conversation/entity.py:105-115 | a `tool_calls` finish leaves no buffers; any other choice emits only text |
| StreamDecoder.ExampleMerged | mistral_conversation/entity.py:98-104 | a call whose arguments arrive in two fragments is buffered with both halves joined |
| StreamDecoder.ExamplePending | mistral_conversation/entity.py:106-113 | that buffer becomes one call with the parsed arguments |
| StreamDecoder.SplitArgumentsExample | mistral_conversation/entity.py:97-115 | the three-chunk stream decodes to exactly one tool batch holding that call |
| ToolDispatch.MusicCalls | mistral_conversation/entity.py:288-292 | the music group holds only calls whose name starts with `music_assistant` |
| ToolDispatch.StandardCalls | mistral_conversation/entity.py:288-292 | the standard group holds only the other calls |
| ToolDispatch.SplitAppend | mistral_conversation/entity.py:288-292 | the split distributes over concatenation, so it keeps the order |
| ToolDispatch.SplitPartition | mistral_conversation/entity.py:288-292 | the two groups together are a permutation of the calls |
| ToolDispatch.AllMusicKept | mistral_conversation/entity.py:288-292 | calls that are all music calls stay in one group, unchanged |
| ToolDispatch.SplitDot | mistral_conversation/entity.py:312 | `str.split(".")` gives at least one part, none containing a dot |
| ToolDispatch.SplitJoin | mistral_conversation/entity.py:312 | joining the parts with dots gives back the string |
| ToolDispatch.SplitNoDot | mistral_conversation/entity.py:312 | a string without dots splits into itself alone |
| ToolDispatch.SplitAtDot | mistral_conversation/entity.py:312 | splitting at a first dot gives the prefix, then the split of the rest |
| ToolDispatch.ServiceOf | mistral_conversation/entity.py:312 | taking part 1 fails iff the name has no dot, with `IndexError`'s message |
| ToolDispatch.ServiceAfterDot | mistral_conversation/entity.py:312 | the service is the segment between the first and the second dot |
| ToolDispatch.ToDict | mistral_conversation/entity.py:313 | `dict()` of an object gives its fields; it succeeds only on objects or empty containers |
| ToolDispatch.Restrict | mistral_conversation/entity.py:322 | filtering keeps exactly the allowed keys that are present, with their values |
| ToolDispatch.PrepareMusicCall | mistral_conversation/entity.py:311-332 | preparation fails iff the service name or `dict()` fails; on success the service is the name's second segment and `entity_id` is gone from the data |
| ToolDispatch.MusicPolicy | mistral_conversation/entity.py:314-332 | the target is the call's `entity_id` or the voice box; play_media keeps media_id/media_type; search and get_library keep their allow-lists plus `config_entry_id` when one is configured; other services keep every argument but `entity_id` |
| ToolDispatch.ErrorResult | mistral_conversation/entity.py:366 | an error result is an object whose only key is `error`, holding the message; it is truthy |
| ToolDispatch.MusicResult | mistral_conversation/entity.py:310-368 | a music call's result is never empty |
| ToolDispatch.ResultEntry | mistral_conversation/entity.py:354-359 | a result entry carries the call's ID and name |
| ToolDispatch.MusicEntries | mistral_conversation/entity.py:310-368 | one result entry per music call |
| ToolDispatch.StandardEntries | mistral_conversation/entity.py:384-400 | one result entry per standard call |
| ToolDispatch.MusicEntriesInOrder | mistral_conversation/entity.py:310-368 | entry i is the result of music call i, with its ID and name |
| ToolDispatch.StandardEntriesInOrder | mistral_conversation/entity.py:384-400 | entry i is the result of standard call i, with its ID and name |
| ToolDispatch.ResultPolicy | mistral_conversation/entity.py:335-368 | a failed preparation or a raised service call gives `{"error": message}`; play_media gives "Playback started"; another service gives its response, or `{"status": "success"}` when that is empty; a standard call gives the executor's value or its error |
| ConversationLoop.ChatLog.AddAssistantContent | mistral_conversation/entity.py:147-149 | the assistant entry is appended and nothing else changes |
| ConversationLoop.ChatLog.AddToolContent | mistral_conversation/entity.py:151-153 | the tool result entry is appended and nothing else changes |
| ConversationLoop.ToolsFor | mistral_conversation/entity.py:183-224 | the host's tools come first, in order; the two music tools are appended iff the host offers neither |
| ConversationLoop.MusicToolOffered | mistral_conversation/entity.py:187-224 | every request offers a music search or play-media tool |
| ConversationLoop.SystemPrompt | mistral_conversation/entity.py:179 | a non-empty structure prompt is followed by the instruction; otherwise the prompt is the instruction alone |
| ConversationLoop.BlockingTurn | mistral_conversation/entity.py:252-271 | a blocking reply's text is kept as it is; there is one call per wire call, or none when the reply has none |
| ConversationLoop.AnonymizeKeepsTurn | mistral_conversation/entity.py:240-244 | gathering text and calls commutes with blanking the IDs |
| ConversationLoop.CallsKnown | mistral_conversation/entity.py:240-244 | the calls gathered from the stream's events carry only internal IDs the map knows |
| ConversationLoop.RequestTurn | mistral_conversation/entity.py:234-271 | a streamed turn's text is the stream's text and its calls, IDs aside, are the decoded calls, each of whose internal IDs is a key of the returned map; a blocking turn is the reply's message and leaves the map as it was; the map only gains keys and stays injective |
| ConversationLoop.RoundOf | mistral_conversation/entity.py:276-417 | a turn without calls is appended once and ends the loop; a turn with calls ends it iff there are standard calls the host cannot run |
| ConversationLoop.ResultsAnswer | mistral_conversation/entity.py:354-368 | results announce no calls and answer their calls in order |
| ConversationLoop.AnnouncedThenAnswered | mistral_conversation/entity.py:298-368 | an assistant turn followed by its results announces its calls and answers each once |
| ConversationLoop.MusicPartAnswers | mistral_conversation/entity.py:298-368 | the music part announces the music calls and answers each once, in order |
| ConversationLoop.StandardPartAnswers | mistral_conversation/entity.py:374-406 | the standard part announces the standard calls and answers each once iff the host can run tools, otherwise none |
| ConversationLoop.EveryCallAnswered | mistral_conversation/entity.py:288-406 | a round announces a permutation of the turn's calls, music first; with a tool API every announced call is answered once, in order; without one, only the music calls are |
| ConversationLoop.SplitCalls | mistral_conversation/entity.py:285-292 | the partition loop computes both groups in order |
| ConversationLoop.RunMusicCalls | mistral_conversation/entity.py:310-368 | the log gains the music results, one per call, in order |
| ConversationLoop.RunStandardCalls | mistral_conversation/entity.py:384-400 | the log gains the standard results, one per call, in order |
| ConversationLoop.AppendMusicPart | mistral_conversation/entity.py:298-368 | the log gains the music part |
| ConversationLoop.AppendStandardPart | mistral_conversation/entity.py:374-406 | the log gains the standard part |
| ConversationLoop.DispatchRound | mistral_conversation/entity.py:276-417 | the log gains exactly the round's entries and the loop returns iff the round is final |
| ConversationLoop.PlayRound | mistral_conversation/entity.py:179-417 | one round sends the request built from the log's messages under a map that resolves every caller ID of the log, and appends that round's entries; the map passed on keeps all the round map's keys and, for a streamed turn, holds every call ID of the turn; whether the loop returns is the round's verdict |
| ConversationLoop.Iteration | mistral_conversation/entity.py:177-417 | one pass of the loop builds the messages under the threaded map and plays the round, carrying the log, the requests and the ID bookkeeping one round further; the build fails only where the source would hang, and then the log is untouched |
| ConversationLoop.HandleChatLog | mistral_conversation/entity.py:155-434 | at most the iteration bound of rounds; the log gains exactly their transcript; no round before the last is final; fewer rounds than the bound with a reply means the last one was final; the reply is the last turn, or the apology when there was none; no reply only where the source would hang (a history ID needs a fresh ID and the space is full); every request encodes the log as it stood under a map that resolves all its caller IDs; one ID map is threaded through the rounds: the first holds exactly the replaced IDs of the original log, each round's reply leaves a map holding its streamed call IDs (a blocking reply leaves the build map), the next round builds under an extension of that map (every recorded key keeps its wire ID), and the final map extends the last; every ID map stays injective |
| MistralClient.Client.constructor | mistral_conversation/mistral_client.py:25-26 | the client keeps the key and the HTTP client |
| MistralClient.Create | mistral_conversation/mistral_client.py:20-26 | an empty key fails first, then a missing HTTP client; otherwise a client holding both |
| MistralClient.LeadSpec | mistral_conversation/mistral_client.py:75 | the stripped prefix is all whitespace, and the next character is not |
| MistralClient.TrailSpec | mistral_conversation/mistral_client.py:75 | the stripped suffix is all whitespace, and the character before it is not |
| MistralClient.StripSpec | mistral_conversation/mistral_client.py:75 | `strip()` returns the middle slice, both cut-off ends are whitespace, and it neither starts nor ends with whitespace |
| MistralClient.ClassifySpec | mistral_conversation/mistral_client.py:75-87 | a stripped line stops the stream iff it is `data: [DONE]`; a chunk comes only from a `data: ` line whose payload parses; blank lines and other lines are skipped |
| MistralClient.SseChunks | mistral_conversation/mistral_client.py:74-87 | at most one chunk per line |
| MistralClient.Stream | mistral_conversation/mistral_client.py:61-88 | the line loop yields exactly the framed chunks |
| MistralClient.SseAppend | mistral_conversation/mistral_client.py:74-87 | before any stop marker, framing distributes over concatenation |
| MistralClient.SkippedLineIsInvisible | mistral_conversation/mistral_client.py:76-87 | a skipped line changes nothing in the output |
| MistralClient.StopEndsStream | mistral_conversation/mistral_client.py:80-81 | lines after the first stop marker are never read |
| MistralClient.ChunksFromLines | mistral_conversation/mistral_client.py:82-84 | every chunk is the parse of some `data: ` line |
| MistralClient.DoneExample | mistral_conversation/mistral_client.py:75-81 | `" data: [DONE]\r"` stops the stream |
| MistralClient.BareDataExample | mistral_conversation/mistral_client.py:75-79 | a bare `"data: "` strips to `data:` and is skipped |
| MistralClient.OtherLineExample | mistral_conversation/mistral_client.py:78 | an `event:` line is skipped |

## Left out

- HTTP and async execution are not modelled. The API's replies, `validate_api_key` and `chat` are function parameters or left out; `raise_for_status` is not modelled.
- Logging (`LOGGER`) is not modelled.
- `_format_tool`'s `convert` of the parameter schema and the custom serializer are not modelled. A tool spec keeps only the name and the description (`None` becomes `""`).
- The friendly name of the voice box (`hass.states.get`) is not modelled. The instruction text is a parameter of `Settings`.
- The German prompt text is a parameter, except the fallback reply and the two music tool descriptions; the tools' parameter schemas are left out.
- `MAX_TOOL_ITERATIONS` is the parameter `maxIterations`. The constant is 10 in const.py.
- `CONF_DEFAULT_MEDIA_PLAYER`, `DEFAULT_VOICE_BOX`, `CONF_MUSIC_ASSISTANT_CONFIG_ENTRY` and `DEFAULT_MUSIC_ASSISTANT_CONFIG_ENTRY` are imported but not defined in const.py. The voice box and the Music Assistant config entry (the option, or its default) are fields of `Settings`.
- Floating point is not modelled. JSON numbers are integers.
- Chunks are typed values (`Chunk`, `Choice`, `Delta`, `Fragment`), not raw dictionaries. The model does not capture `TypeError`s from ill-typed chunks, such as `delta["tool_calls"]` being `null`, and an explicit `"index": null` is read as index 0.
- Blocking replies are typed values too. The `KeyError` of a reply without `choices[0]`, a call without `id` or `function`, and the per-call `KeyError`/`TypeError` fallback are not modelled; only unparsable arguments fall back to `{}`.
- `agent_id` on assistant and tool entries is not modelled.
- `if not assistant_content: break` is not modelled: an `AssistantContent` object is always truthy.
- The final fall-through of a round (append the turn and return) is not modelled. A turn with calls always has a non-empty group, by `ToolDispatch.SplitPartition`.
- HandleChatLog: with an iteration bound of 0 the source raises `UnboundLocalError`; the model returns the apology. The source's bound is 10.
- The random source is an oracle. Termination of the regenerate-until-fresh loop is proved under the ghost assumption `Fair`, not for every oracle.
- ToolIds.NormalizeOutgoing: when every 9-character ID is already a value of the map, the source regenerates forever; the model returns `None` instead, and `MessageCodec` and `ConversationLoop` pass that outcome up as a failed build and a missing reply.
- ToolIds.NormalizeOutgoing: uses the corrected full-match ID test `IsMistralId`, not the pattern as written; the as-written behaviour is `ToolIds.NormalizeOutgoingAsWritten` (see Findings).
- StreamDecoder.TransformStream, StreamDecoder.ProcessChunk and StreamDecoder.ProcessChoice: state only that every emitted internal ID is a key of the map; which wire ID each maps to is stated per batch by `StreamDecoder.FlushToolCalls` and `StreamDecoder.FinishChoice`, under the hypothesis that no drawn token collides with an existing key.
- Collisions of `token_hex` keys with existing keys are not checked, as in the source.
- The blocking path keeps the remote IDs as they are, as in the source.
- StreamDecoder.InternalIdFor: `next(...)` takes the first matching key in dictionary order; the model picks some key mapped to the wire ID. The map is injective, so that key is unique (`ToolIds.LookupByValue`).
- Tool executors and the service registry are deterministic functions of their input.
- ToolDispatch.ToDict: `dict()` of a non-empty list of key/value pairs is modelled as a failure. The error messages are fixed strings close to Python's.
- ToolDispatch.MusicResult: its own contract states only that the result is never empty; the full case analysis is stated by `ToolDispatch.ResultPolicy`.
- ToolDispatch.MusicEntries and ToolDispatch.StandardEntries: their own contracts state only the length; the per-index entries are stated by `MusicEntriesInOrder` and `StandardEntriesInOrder`.
- Python `str.isspace` is modelled by the fixed list of whitespace code points it accepts; other Unicode properties are not modelled.

## Findings

| source | as written | input that shows it | evidently intended | confidence | as-written member | corrected member |
|---|---|---|---|---|---|---|
| mistral_conversation/entity.py:33 | `re.match` with `^[A-Za-z0-9]{9}$`; in Python `$` also matches before a final newline | the tool-call ID `"abcdefghi\n"` is taken as a remote ID and sent unchanged | only exactly 9 alphanumeric characters pass through (`fullmatch` or `\Z`) | not executed | ToolIds.NormalizeOutgoingAsWritten (with ToolIds.MatchesIdPatternAsWritten, shown by ToolIds.IdPatternAcceptsTrailingNewline) | ToolIds.IsMistralId (used by ToolIds.NormalizeOutgoing) |
