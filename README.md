# Text consumption in PathFinder's chat-completion backend

This project models the core of `ModelAPI` in `library/api.py`: the state
machine that turns raw chat-completion replies into field values. A Gen field
generates text up to a stop pattern, a Select field picks one of several
options, and a Find field searches with a user regex. The session holds:

- `text_to_consume`, the pending reply text not yet given to a field;
- `prefix_text`, assistant text already emitted but not yet aligned with a reply;
- `chat`, the transcript, and `_variables`, the recorded field values;
- the sampling fields `temperature`, `top_p` and `max_tokens`.

A network call happens only when no text is pending. Before the call, a
trailing empty assistant turn is dropped from the transcript. The strict-turn
providers (Mistral and Anthropic) also drop one further trailing assistant
turn. After the call on a strict-turn session, an echoed `prefix_text` is
removed from the start of the reply. `run` also removes an echoed copy of the
last turn. Then the field's pattern is matched against the pending text.

Modules:

- `Wrappers`: `Option` and `Result`.
- `Text`: digit and whitespace classes, first occurrence of a literal, Python's `str.strip()`.
- `Patterns`: `can_be_int`, the patterns Gen and Select build, and a matcher.
  `MatchPrefix` is `regex.match` and `Search` is `regex.search`. Find's user regex
  is an oracle, `UserRegex`.
- `Errors`: the exceptions raised.
- `Transcripts`: turns, providers, transcript trimming and the adapters' last-role guards.
- `Consumption`: the fetch step, the match step of `run`, the search of
  `run_find` and `_consume_assistant_text`, as functions of the state, with
  the lemmas about them.
- `Api`: the class `ModelApi`. Its methods update the fields in place, as the
  Python does. Each method that changes the session is proved equal to a function of `Consumption` or `Transcripts`.

The network is a parameter. Every method that may fetch takes `reply`, the text
the provider returns if the call reaches the network. The ghost field `sent`
logs every call that did reach the network, with its transcript and sampling
fields.

Where the code behaves in ways a reader might not expect, the model follows the code:

- A Gen without a stop pattern compiles to `(.*?)`. It returns `""` and consumes
  nothing; it does not take all pending text (`UnstoppedGenTakesNothing`).
- A Gen without `save_stop_text` advances only past group 1, so the terminator
  stays pending (`GenKeepsTerminator`). The reply `"4\nExtra"` with stop `"\n"`
  leaves `"\nExtra"` pending, not `"Extra"` (`GenStopScenario`). A second
  identical Gen then returns `""` (`RepeatedGenStalls`).
- `run_find` never changes the pending text after its search (`RunFindSpec`, `FindsShareText`).
- The reply is aligned with `prefix_text` by an anchored match. If the reply does
  not start with it, the reply and `prefix_text` both stay as they were (`AlignPrefix`).
- Only `run` strips an echoed last turn; `run_find` does not (`OnlyRunStripsEcho`).
- The "match found later" branch of `run` is reached only by Select fields.
  A Gen pattern always matches at the start when it matches anywhere (`GenPatternAnchors`).
- `run` does not write `_variables`; only `run_find` records its value.

## Model

| member | source | states |
|---|---|---|
| Patterns.CanBeInt | library/api.py:34-39 | true exactly for a non-empty string of ASCII digits, optionally after one leading sign |
| Patterns.RenderedIntegersCanBeInt | library/api.py:34-39 | sanity check of `CanBeInt` (the library itself never renders integers): the decimal rendering Python's `str` gives every integer is accepted |
| Patterns.SelectPattern | library/api.py:93-99 | the digit-run pattern exactly when every option can be an int; otherwise the alternation of the options as given, which then is non-empty |
| Patterns.GenPattern | library/api.py:81-84 | a Gen field compiles to `(.*?)` exactly when it has no stop, otherwise to `(.*?)(stop)`; never to a Select shape |
| Patterns.GenPatternMatch | library/api.py:81-84 | anchored at the start, a Gen pattern without a stop matches the empty string; with a stop it matches exactly when the stop occurs, group 1 being the text before its first occurrence and the whole match that text plus the stop |
| Patterns.MatchPrefix | library/api.py:174 | an anchored match: its group 1 is a prefix of the whole match, which is a prefix of the text |
| Patterns.Search | library/api.py:173 | the leftmost position where the pattern matches, and no match anywhere when it reports none |
| Patterns.AnchoredMatchIsFirstFound | library/api.py:173-175 | a match at position 0 is the one the search reports |
| Patterns.GenPatternAnchors | library/api.py:173-185 | a Gen pattern that matches anywhere also matches at position 0 |
| Patterns.StopMatchIsFirstOccurrence | library/api.py:84 | a stop pattern matches iff the stop occurs; the match is the text before its first occurrence followed by the stop |
| Patterns.AltEarliestListedWins | library/api.py:97-99 | of the options that start the text, the earliest listed is the one matched |
| Patterns.AltMatchesSomeOption | library/api.py:97-99 | an alternation matches at the start iff some option is a prefix of the text |
| Patterns.AltLeftmostPositionWins | library/api.py:185 | no option occurs at any position before the one a search reports |
| Patterns.DigitsMatchIsMaximalRun | library/api.py:94-95 | `(\d+)` matches at the start exactly when the text starts with a digit; then both `group()` and `group(1)` are the maximal leading run of ASCII digits |
| Text.FirstOccurrence | library/api.py:66-70 | the least index where a literal occurs, or none when it occurs nowhere |
| Text.Strip | library/api.py:169 | the text between the leading and trailing whitespace, starting and ending in non-space |
| Transcripts.TrimPlaceholder | library/api.py:143-147 | a prefix of the chat, one turn shorter exactly when the last turn is an empty assistant turn |
| Transcripts.TrimAssistant | library/api.py:153-155 | a prefix, one turn shorter exactly when the last turn is an assistant turn |
| Transcripts.Adapter | library/api.py:272-275 | a strict-turn adapter raises exactly for an empty or assistant-last transcript (IndexError only for the empty one); and a refused non-empty transcript is a protocol violation; otherwise the reply is returned |
| Api.ModelApi.RequestApi | library/api.py:305-308 | the guard of the adapter; only a call that passes it is logged as a network call, with the current sampling fields |
| Consumption.AlignPrefix | library/api.py:159-166 | a reply that starts with `prefix_text` loses exactly it and resets `prefix_text`; otherwise both are kept |
| Consumption.EchoedPrefixRoundTrip | library/api.py:159-166 | the reply `prefix_text + tail` leaves exactly `tail` |
| Consumption.EchoStrip | library/api.py:168-171 | the stripped last-turn content is removed exactly when it is a prefix of the pending text |
| Consumption.FetchStep | library/api.py:142-166 | an empty chat raises; the sent transcript is the chat without a trailing empty assistant turn and, on a strict-turn session, without one more trailing assistant turn (so a prefix at most one, strict-turn two, turns shorter), with the current sampling fields; a strict-turn transcript never ends on an assistant turn; the new buffers are the reply (direct) or its alignment with `prefix_text` |
| Consumption.StrictFetchGuard | library/api.py:152-158 | a strict-turn fetch fails iff the twice-trimmed transcript is empty or still ends on an assistant turn |
| Consumption.TwoAssistantTurnsAreRefused | library/api.py:143-158 | a strict-turn chat ending in two assistant turns, the last non-empty, raises a protocol violation |
| Consumption.StrictFetchStripsEmittedPrefix | library/api.py:116-130 | a strict-turn reply `prefix_text + tail` leaves exactly `tail` pending and resets `prefix_text` |
| Consumption.MatchStep | library/api.py:173-193 | raises exactly for a non-Gen pattern found nowhere; an anchored match splits the pending text into value and rest; text left pending is always the exact rest |
| Consumption.AnchoredValue | library/api.py:174-183 | an anchored match returns the whole match with `save_stop_text`, otherwise group 1 |
| Consumption.GenNeverLosesText | library/api.py:173-191 | a Gen never raises, and its value followed by the new pending text is the old pending text |
| Consumption.UnstoppedGenTakesNothing | library/api.py:173-183 | a Gen without a stop pattern returns "" and leaves the pending text unchanged |
| Consumption.GenKeepsTerminator | library/api.py:181-183 | without `save_stop_text`: the value is the text before the first stop, and the new pending text starts with the stop |
| Consumption.GenTakesTerminator | library/api.py:178-180 | with `save_stop_text`: the value ends with the first occurrence of the stop, and the rest stays pending |
| Consumption.RepeatedGenStalls | library/api.py:181-183 | a second identical Gen without `save_stop_text` returns "" and consumes nothing |
| Consumption.GenFallsThrough | library/api.py:188-191 | a Gen whose stop occurs nowhere returns all pending text and empties it |
| Consumption.SelectFoundLater | library/api.py:184-187 | a Select matched only after position 0 returns the first match and empties the pending text |
| Consumption.SelectReturnsListedOption | library/api.py:93-100 | a Select over non-numeric options returns one of the options |
| Consumption.NumericSelectReturnsDigits | library/api.py:94-95 | a Select over numeric options returns a non-empty digit string, and on text starting with a digit the whole leading digit run |
| Consumption.NumericSelectScenario | library/api.py:94-95 | numeric options on "42 is the answer" give "42" and leave " is the answer" |
| Consumption.YesNoSelectScenario | library/api.py:96-100 | options ["yes", "no"] on "no, definitely" give "no" and leave ", definitely" |
| Consumption.SignedOptionLosesSign | library/api.py:184-187 | options ["-1", "2"] on "-1" give "1", which is not an option |
| Consumption.GenStopMatchScenario | library/api.py:181-183 | stop "\n" on "4\nExtra" gives "4" and leaves "\nExtra" |
| Consumption.PromptNotEchoed | library/api.py:168-171 | a last turn "2+2=" is not stripped from "4\nExtra" |
| Consumption.GenStopScenario | library/api.py:141-194 | a whole `run` on [user "2+2="] with reply "4\nExtra" sends one request and returns "4", leaving "\nExtra" |
| Consumption.RunSpec | library/api.py:141-194 | a network call happens only when nothing is pending; with text pending `prefix_text` is untouched; only a non-Gen field raises a no-match |
| Consumption.RunSendsTrimmedChat | library/api.py:142-158 | whenever `run` sends a request, nothing was pending and the request carries the chat trimmed of a trailing empty assistant turn (strict-turn: then of one more trailing assistant turn), a prefix at most one (strict-turn: two) turns shorter, the current sampling fields, and on strict-turn sessions no trailing assistant turn |
| Consumption.PendingGenRunKeepsText | library/api.py:141-193 | with text pending, a Gen `run` never raises, makes no request, keeps `prefix_text`, and value plus new pending text is the old pending text |
| Consumption.PendingSelectRunRaisesIffNoMatch | library/api.py:141-193 | with text pending, a Select `run` makes no request and raises exactly when its pattern occurs nowhere in the text, which then stays pending |
| Consumption.RunFindSpec | library/api.py:105-139 | a network call only when nothing is pending; once there is text, the call succeeds exactly when the regex matches it, with the first match and that whole text; any other failure comes from the fetch; the pending text is left as searched |
| Consumption.FindIn | library/api.py:132-139 | the search of `run_find` succeeds exactly when the regex matches, returning the matched span with the whole text, else raises `RegexNotFound` for that regex and text; the buffers and the log are untouched |
| Consumption.IdleRunsFetch | library/api.py:105-158 | with nothing pending and the guard passing, `run` and `run_find` both make the fetch and log exactly its request; `run_find` keeps the fetched text and prefix unchanged |
| Consumption.FetchedRunMatchesEchoStripped | library/api.py:141-193 | after a successful fetch, `run` keeps the prefix the fetch left (reset after a strict-turn alignment), logs the fetch's request, raises only for a non-Gen field whose pattern occurs nowhere in the fetched text less its echo, and an anchored match splits that text into value and rest |
| Consumption.OnlyRunStripsEcho | library/api.py:105-171 | on fetched text `strip(chat[-1]) + tail`, `run` matches against `tail` while `run_find` searches the whole text |
| Consumption.FindsShareText | library/api.py:132-137 | two Finds on non-empty pending text search the same text, fetch nothing and change no buffer |
| Consumption.ConsumeSpec | library/api.py:64-75 | if the value occurs, the pending text advances just past its first occurrence and `prefix_text` is reset; otherwise pending is emptied and the value appended to `prefix_text` |
| Consumption.ConsumeAccumulatesPrefix | library/api.py:64-75 | values consumed while nothing is pending accumulate in `prefix_text` |
| Api.ModelApi.constructor | library/api.py:46-55 | the initial sampling fields 0.0, 1.0 and 1000, empty buffers, and `api_assistant` true only for OpenAI |
| Api.ModelApi.Fetch | library/api.py:142-166 | the fields after the fetch are those of `FetchStep`, and the request is logged |
| Api.ModelApi.StripEchoedTurn | library/api.py:168-171 | the pending text becomes `EchoStrip` of the old one |
| Api.ModelApi.ConsumeAssistantText | library/api.py:64-75 | the buffers become `ConsumeSpec` of the old ones |
| Api.ModelApi.Run | library/api.py:141-194 | result, buffers and network log are those of `RunSpec` on the old state |
| Api.ModelApi.MatchPending | library/api.py:173-193 | result and pending text are those of `MatchStep`; a raise leaves the pending text |
| Api.ModelApi.RunFind | library/api.py:105-139 | result, buffers and log are those of `RunFindSpec`; `_variables[name]` is set to the value on success and nothing is recorded on a raise |
| Api.ModelApi.GetGen | library/api.py:77-86 | overwrites temperature, top_p and max_tokens with the field's, then runs the Gen pattern with them |
| Api.ModelApi.GetFind | library/api.py:88-91 | overwrites temperature and top_p only, then runs the Find |
| Api.ModelApi.GetSelect | library/api.py:93-100 | changes no sampling field and runs the Select pattern |

## Left out

- `run` and `run_find` take a second object `lm` for the buffers and sampling fields, while `api_assistant` and `request_api` come from `self`. Every caller passes `self` as `lm` (library/api.py:86, 91, 100), so the model treats them as one object.
- The network bodies of the three `request_api` methods (library/api.py:203-219, 277-288, 310-317). They call foreign clients, so the reply is the `reply` parameter.
- The `backoff.on_exception` retry wrappers: they involve sleeping and time, and a retried call is modelled as the one call that succeeds.
- `MistralAPI.__init__` reads the environment and builds an HTTP client with proxies. This is configuration I/O.
- The seed is stored but not passed on, since the network calls are not modelled.
- `ModelAPI.request_api` of the base class, which raises `NotImplementedError`. Only the three subclasses are providers here.
- An OpenAI request with an empty transcript: this happens when the chat is one empty assistant turn. The network would reject it; the model returns the reply.
- Full regular-expression semantics. Stop patterns are read as literal strings. `\d` is ASCII. Options are literal, which is what `regex.escape` makes them.
- The difference between the DOTALL `match` and the non-DOTALL `search`. With literal stops both succeed exactly when the stop occurs.
- `regex.findall` returns tuples for the two-group Gen pattern. That branch is unreachable for Gen (`GenPatternAnchors`), so the model always takes group 1.
- The pattern and error-message strings. A pattern is a datatype value, and `CantFind` carries that value instead of its text.
- Patterns.CanBeInt: does not model Python `int()`'s tolerance of surrounding whitespace, underscores and non-ASCII digits, because only sign plus ASCII digits is modelled.
- Full regular expressions for Find: its regex (`Patterns.UserRegex`) is an oracle that reports its first match. The only thing assumed of it (`WellFormed`) is that the span lies inside the text.
- temperature and top_p are Python floats. They are only copied, so they are modelled as `real`.
- `_current_prompt`, logging, the `token_in`/`token_out` counters and the unused imports.
- library/chat.py. It only reads template files.
- The `PathFinder` base class is not part of this model. The constructor takes the initial chat and starts with no variables and no pending text.
- `run`'s `name` argument: the source never uses it, so the model omits it.
- Every exception in the source is a plain `Exception`, `IndexError` or `NotImplementedError`. The model names them with `Error` constructors.
