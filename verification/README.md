# Voice agent core of the elderly-care calling service, in Dafny

This project models the pure, sequential logic of the Python voice agent that
joins a LiveKit room to talk with an elder (a "ward"). It covers five pieces:

- **Room helpers** (`Room`, from `agents/voice/simple_agent.py`): parsing the
  ward id out of a `call_{ward_id}_{timestamp}` room name, with a fallback to
  the whole name; the headers for calls to the internal API; and the session
  data created on joining, whose call id is the room name.
- **Transcript log** (`Transcript`, from `agents/voice/userdata.py`): an
  append-only list of utterances, the projection to the elder's final texts,
  and the rendering of the whole conversation with `어르신` / `AI` labels and
  newline-joined lines.
- **Environment validation** (`Config`, from `agents/voice/config.py`): the six
  required variables, the missing-variable error listing them in declared order,
  then the `ws://`/`wss://` check on `LIVEKIT_URL`, then the `AKIA` check on
  `AWS_ACCESS_KEY_ID`, and the defaults for the optional settings.
- **Sodam session memory** (`Sodam`, from `agents/voice/agent.py`): the
  `remember_topic` and `check_wellbeing` function tools over `SodamUserData`.
- **Prompt assembly** (`Companion`, from `agents/voice/agents/elderly_companion.py`):
  the instruction text, with fixed sections around an optional block about the elder.

Python's string primitives are written out in `Strings` with Python's
semantics for a one-character separator: `Strings.Split` is `str.split`,
`Strings.Join` is `str.join`, and `Strings.StartsWith` / `Strings.EndsWith` are
`str.startswith` / `str.endswith`. `Config.GetOr` is `os.getenv(name, default)`.
`Seqs` holds the filter/map combinators behind the list comprehensions. `Wrappers` holds `Option` and `Result`.

Modelling choices:

- The process environment is a `map<string, string>`. An unset variable is an
  absent key. `validate_env_vars` treats an empty value as missing (`not value`).
  `get_optional_config` does not: `os.getenv(name, default)` returns an empty
  value as it is. Both are modelled as written.
- `API_INTERNAL_TOKEN` is an `Option<string>`. `if API_INTERNAL_TOKEN:` is false
  both for an unset and for an empty token.
- A tool's `context.userdata` is an `Option<SodamUserData>`. A dataclass
  instance is always truthy in Python, so `if context.userdata:` tests only
  for presence.
- Raised `ConfigError`s become `Failure` values of a `ConfigError` datatype.
  `Config.ErrorMessage` gives the text each one carries.
- Mutation of the Python objects becomes a function that returns the updated
  value.

The server-side orchestration of the wider system is not part of this model:
token issuance, the room reaper, takeover audio routing and the webhook call
state machine. Their code is not among the files modelled here.

## Model

| member | source | states |
|---|---|---|
| Strings.Split | agents/voice/simple_agent.py:98 | `str.split` on one character: at least one piece, no piece contains the separator, and two or more pieces exactly when the separator occurs |
| Strings.JoinSplit | agents/voice/simple_agent.py:98 | joining the pieces of a split with the separator gives back the original room name |
| Strings.SplitJoin | agents/voice/userdata.py:47 | splitting a join of one or more separator-free pieces gives back the pieces (an empty list cannot come back: `"".split` gives one empty piece) |
| Room.ExtractWardId | agents/voice/simple_agent.py:88-106 | a name without `_` is returned unchanged; the result is the whole name or its second `_`-piece; a result other than the name is a non-empty, `_`-free segment that follows `call_` and ends at the end of the name or before a `_` |
| Room.ExtractCallRoomName | agents/voice/simple_agent.py:97-102 | `call_W` and `call_W_...` with `W` non-empty and free of `_` yield exactly `W` |
| Room.ExtractWithoutCallPrefix | agents/voice/simple_agent.py:97-106 | a name that does not begin with `call_` (which covers every name whose first `_`-piece is not `call`) is its own ward id |
| Room.ExtractEmptyWardSegment | agents/voice/simple_agent.py:100-106 | an empty second piece (`call_`, `call__x`) falls back to the whole room name |
| Room.AuthHeaders | agents/voice/simple_agent.py:109-114 | `Content-Type: application/json` is always present; `Authorization` is present iff the token is set and non-empty, and is then `Bearer ` + token; there are no other headers |
| Room.StartSession | agents/voice/simple_agent.py:158-168 | the session's ward id is exactly the ward id parsed from the room name (the room name itself or a `call_` segment), its call id is the room name, and its transcript starts empty |
| Seqs.Filter | agents/voice/userdata.py:38 | a comprehension with a condition keeps at most as many elements, each kept element satisfies the condition, and every satisfying element is kept |
| Seqs.FilterAppend | agents/voice/userdata.py:38 | filtering distributes over concatenation |
| Seqs.FilterByIndices | agents/voice/userdata.py:38 | the k-th kept element is the element at the k-th satisfying position, so the order is preserved |
| Transcript.AddTranscript | agents/voice/userdata.py:28-34 | one more entry, placed last, with the given speaker, text and finality (default final); earlier entries, ward id and call id unchanged |
| Transcript.UserTranscripts | agents/voice/userdata.py:36-38 | the elder's texts are no more numerous than the entries |
| Transcript.UserTranscriptsByPosition | agents/voice/userdata.py:36-38 | the elder's texts are exactly the texts at the positions of final `user` entries, in position order |
| Transcript.AddTranscriptUserTranscripts | agents/voice/userdata.py:28-38 | recording an utterance appends its text to the elder's texts iff it is a final `user` utterance, and otherwise leaves them unchanged |
| Transcript.SpeakerLabel | agents/voice/userdata.py:45 | the label is `어르신` iff the speaker is `user`, and `AI` otherwise |
| Transcript.ParseFormatLine | agents/voice/userdata.py:45-46 | a rendered line is label, `": "`, text: parsing it back at the first `:` yields the speaker label and the original text |
| Transcript.LinesByPosition | agents/voice/userdata.py:42-46 | one line per final entry, in position order; non-final entries give no line |
| Transcript.LinesAppend | agents/voice/userdata.py:43-46 | the lines of a concatenated log are the concatenated lines |
| Transcript.FullTranscriptEmpty | agents/voice/userdata.py:42-47 | the rendered conversation is empty iff no entry is final |
| Transcript.FullTranscriptSnoc | agents/voice/userdata.py:40-47 | appending a final entry adds `\n` and its line (or makes it the only line); appending a non-final entry changes nothing |
| Transcript.AddTranscriptFullTranscript | agents/voice/userdata.py:28-47 | recording an utterance extends the rendered conversation by its line exactly when it is final |
| Transcript.SplitFullTranscript | agents/voice/userdata.py:47 | when at least one entry is final and no final text contains a newline, splitting the rendered conversation at `\n` gives back its lines (with no final entry the rendering is empty, and splitting it gives one empty piece) |
| Transcript.GetFullTranscript | agents/voice/userdata.py:40-47 | the single pass of `SessionUserdata.get_full_transcript`, collecting labelled lines and joining them with `\n`, computes the rendered conversation |
| Config.ValidateEnvVars | agents/voice/config.py:13-63 | success iff all six variables are set and non-empty, the URL starts with `ws://` or `wss://`, and the key starts with `AKIA`; a missing variable is reported before any format check; the URL error precedes the key error; the reported names are the declared-order list of missing variables, exactly the unset or empty ones; on success the result maps exactly the six names to their values |
| Config.MissingVarsInDeclaredOrder | agents/voice/config.py:23-47 | the reported missing names follow the declared order of the required variables |
| Config.ErrorMessage | agents/voice/config.py:42-61 | the missing-variable message is the fixed heading, the missing names joined by `, `, then a newline and the fixed instruction line; the URL message ends with the rejected URL after a fixed explanation; the key message is fixed |
| Config.CollectRequired | agents/voice/config.py:32-40 | the loop of `validate_env_vars` collects exactly the unprovided names in order, and exactly the provided names with their values |
| Config.OptionalConfig | agents/voice/config.py:66-71 | exactly `OPS_API_URL` and `LOG_LEVEL`: the environment's value when set, else `http://backend:8080` and `INFO` |
| Sodam.RememberTopic | agents/voice/agent.py:96-111 | with session data: the topic is appended last and the count grows by one, name and mood kept; without: no data appears; the reply frames the topic as `'topic'를 기억했어요.` either way |
| Sodam.CheckWellbeing | agents/voice/agent.py:113-125 | the session data is unchanged and the reply frames the aspect as `어르신의 aspect 상태를 확인했어요.` |
| Sodam.RememberAllAppends | agents/voice/agent.py:107-109 | a series of `remember_topic` calls appends the topics in call order and adds one to the count per call, keeping name and mood |
| Sodam.RememberFromFresh | agents/voice/agent.py:22-28 | from a fresh session (no name, count 0, no topics, no mood), the count equals the number of remembered topics |
| Sodam.RememberAllWithoutData | agents/voice/agent.py:107-111 | without session data, no series of `remember_topic` calls creates any |
| Companion.ContextSection | agents/voice/agents/elderly_companion.py:52-57 | the block is empty iff the elder context is empty; otherwise it starts with the `# 어르신 정보 (참고용)` heading line and ends with a blank line |
| Companion.BuildInstructions | agents/voice/agents/elderly_companion.py:32-80 | the instructions always start with the base and memory sections and end with the output rules; without context they are those three back to back; with context the block sits between memory and output rules |
| Companion.RecoverBuildInstructions | agents/voice/agents/elderly_companion.py:52-80 | the elder context can be read back from the instructions, so different contexts give different instructions |

## Left out

- The server-side orchestration described for the wider system (token issuance, identity resolution, room reaping, takeover audio routing, the webhook call state machine): its code is not part of this model.
- `agents/voice/main.py` and `agents/voice/bot_client_speak_only.py`: LiveKit/AWS session setup, speech synthesis and process entry points, all I/O.
- `trigger_rag_indexing` and `trigger_call_analysis` in `simple_agent.py`: HTTP calls to the internal API.
- `prewarm`: loads a voice-activity model with floating-point thresholds.
- The `entrypoint` event handlers and the session start: event wiring over the LiveKit session. Only the ward id, call id and session data it computes are modelled.
- The post-session `asyncio.gather`/`wait_for` with its timeout: concurrency.
- The module-level fallback of `API_BASE_URL` to `http://localhost:3000` in `simple_agent.py`: only used to build URLs for the HTTP calls left out above.
- `ElderlyCompanionAgent.search_memory`: an HTTP search whose reply depends on the network. Its header construction matches `Room.AuthHeaders`.
- `SodamAgent._get_instructions` and `on_enter`: a fixed prompt text and a greeting request to the LLM session.
- `TranscriptEntry.timestamp` and `SessionUserdata.session_start`: wall-clock values.
- All logging, and the resolution of `LOG_LEVEL` to a logging level: a lookup in the logging library.
