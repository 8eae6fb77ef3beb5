# Voice assistant conversation and tool bookkeeping, in Dafny

This project models the bookkeeping core of a voice-driven assistant:

- the in-process message transcript (`Memory`);
- one conversation turn that keeps its history in a key/value cache (`LLMProcessor.process_input`);
- the onboarding gate that asks three setup questions once and stores the answers as user facts (`UserMemoryManager`);
- the tool wrapper that renders a parameter list (`Tool.parameters`);
- the process-wide tool registry and the module names discovery imports;
- the text the weather and web-search tools return;
- the silence-stop loop that decides which microphone chunks a recording keeps;
- the assistant's system prompt.

Each core source file becomes one Dafny module, and `Text` holds the string helpers they share:

| file | module | form |
|---|---|---|
| text.dfy | `Text` | `sep.join` and substring search, shared by the tool modules |
| types.dfy | `Types` | `Message(role, content)` and `Option` |
| memory.dfy | `ChatMemory` | class `Memory` over a `seq<Message>` field |
| turn.dfy | `CachedTurn` | class `Cache` (the memcached server as a map) and class `LLMProcessor` |
| user_memory.dfy | `UserMemory` | class `Database` (the `user_memories` rows) and class `UserMemoryManager` |
| tool.dfy | `ToolMeta` | datatype `Tool`, and a method with the loop that builds the parameter text |
| registry.dfy | `ToolRegistry` | class `Registry` (a name-to-tool map plus first-insertion order), and the discovery loop |
| weather.dfy | `WeatherTool` | pure functions |
| brave_search.dfy | `BraveSearch` | the setup message as functions; the search decision and summary loop as a method |
| recorder.dfy | `Recorder` | the chunk loop as a method over an abstract stream |
| prompts.dfy | `Prompts` | pure functions |

External collaborators become inputs:

- The completion backend is a function from the message list it is sent to either the reply text or `None`, which stands for a completion call that raises.
- The memcached server is an in-memory map.
- The SQLite table is a list of `(memory, source)` rows in insertion order.
- The Brave HTTP exchange is a value: a status code, the text of the error a failing status raises, and the `web.results` list. It can also be the text of a request exception.
- The microphone gives a list of chunks. Each chunk carries its bytes and whether its RMS level is below the threshold.
- Python reflection on the tool function is replaced by explicit input. A tool gets its parameter list, and its type hints as the text an f-string prints for them.

Two behaviours of the source are worth knowing:

- The cached turn's system prompt (`nlp/llm_processoy.py:24-27`) is its own text. It is not the prompt of `nlp/prompts.py`. Both are modelled (`CachedTurn.SystemPrompt`, `Prompts.GetSystemPrompt`).
- `brave_search` checks an error's text for `"401"`. An HTTP error's text includes the request URL, and that URL holds the query. So any error status other than 401 (a 404, a 429, a 5xx) on a query that contains "401" is reported as an invalid token. `BraveSearch.ExceptionText` states this rule as written.

## Model

| member | source | states |
|---|---|---|
| ChatMemory.Memory.constructor | nlp/memory.py:5-6 | a new transcript is empty |
| ChatMemory.Memory.AddMessage | nlp/memory.py:8-9 | the list grows by exactly one; the new last message has the given role and content; the old list is a prefix of the new one |
| ChatMemory.Render | nlp/memory.py:12 | each rendered map has exactly the keys "role" and "content", holding the message's role and content verbatim |
| ChatMemory.Memory.GetMessages | nlp/memory.py:11-12 | one map per message, same length and order, role and content copied verbatim; reading them back gives the stored messages; the transcript is only read |
| ChatMemory.RenderRoundTrip | nlp/memory.py:11-12 | parsing the rendered transcript gives back exactly the messages (nothing is lost or reordered) |
| ChatMemory.Memory.Clear | nlp/memory.py:14-15 | afterwards the list is empty and rendering it gives the empty sequence |
| CachedTurn.Cache.Get | nlp/llm_processoy.py:15 | a lookup is present iff the key is stored, and then holds the stored conversation |
| CachedTurn.Cache.Set | nlp/llm_processoy.py:40 | the key gets the new conversation; every other key keeps its value |
| CachedTurn.SystemPrompt | nlp/llm_processoy.py:24-27 | the first-turn system message opens with "Your name is " + assistant name + " and you're my assistant. ", carries the user's name verbatim right after the fixed instructions ending "refer to me as ", ends with the fixed closing instructions, and is the two names' length plus a constant |
| CachedTurn.Load | nlp/llm_processoy.py:15-19 | an absent cache entry is an empty conversation; a present one is used as stored |
| CachedTurn.Outgoing | nlp/llm_processoy.py:21-31 | the list sent to the backend ends with the user's input and keeps the loaded conversation as a prefix; from an empty conversation it is exactly [system prompt, user input]; otherwise it is one longer, so no system message is added |
| CachedTurn.Stored | nlp/llm_processoy.py:21-38 | the stored list ends with user input then assistant reply and keeps the old conversation as a prefix; from empty it is exactly [system, user, assistant]; from length n it has length n+2 |
| CachedTurn.LLMProcessor.constructor | nlp/llm_processoy.py:6-12 | model, cache client, key and the two names are kept as given |
| CachedTurn.LLMProcessor.ProcessInput | nlp/llm_processoy.py:14-41 | the result is the backend's answer to exactly the outgoing list; when the completion call fails nothing is written and the cache is unchanged; when it answers, only the processor's key changes, to the stored list, which ends with the reply and extends the loaded conversation |
| CachedTurn.SessionAppends | nlp/llm_processoy.py:21-38 | over any number of turns on a non-empty conversation, the old conversation stays a prefix, each turn adds exactly [user input, reply computed from everything before it], and the length grows by two per turn |
| CachedTurn.FreshSession | nlp/llm_processoy.py:21-38 | a session started with no stored conversation has the system prompt at index 0 and nowhere else, then alternating user inputs and replies, length 1 + 2k after k turns |
| UserMemory.CountSource | nlp/user_memory_manager.py:35 | the `COUNT(*)` of rows with a tag equals the number of rows the query for that tag returns |
| UserMemory.CountZeroIff | nlp/user_memory_manager.py:34-36 | the count of rows with a tag is zero iff no row carries that tag |
| UserMemory.NeedsSetupIn | nlp/user_memory_manager.py:34-36 | setup is needed iff no row has source "setup" |
| UserMemory.SetupRowEndsOnboarding | nlp/user_memory_manager.py:34-44 | after a "setup" row is appended, setup is never needed, whatever else is stored |
| UserMemory.Filter | nlp/user_memory_manager.py:22-24 | the query returns exactly the stored rows whose source matches |
| UserMemory.FilterSnoc | nlp/user_memory_manager.py:22-32 | appending a row extends the query result by that row iff its source matches, else leaves it unchanged, so results stay in stored order |
| UserMemory.Substitute | nlp/user_memory_manager.py:43 | a template opening with the `{value}` slot renders opening with the answer; one opening with another non-brace character keeps it first |
| UserMemory.SubstituteOneSlot | nlp/user_memory_manager.py:43 | a template with one `{value}` slot renders as the text before the slot, the answer, then the text after it |
| UserMemory.DefaultQuestions | nlp/user_memory_manager.py:16-20 | three questions, keyed name, city, occupation, in that order |
| UserMemory.DefaultTemplatesRender | nlp/user_memory_manager.py:16-20 | the answers are stored as "My name is " + v, "I live in " + v and "I work as " + v |
| UserMemory.UserMemoryManager.constructor | nlp/user_memory_manager.py:13-20 | `isSetup` is the negation of needs-setup at construction time; the questions are the fixed interview |
| UserMemory.UserMemoryManager.GetMemories | nlp/user_memory_manager.py:22-24 | returns exactly the stored rows with the given source ("setup" by default) |
| UserMemory.UserMemoryManager.SaveMemory | nlp/user_memory_manager.py:26-32 | appends exactly one row (memory, source), source defaulting to "setup"; earlier rows unchanged; the query for that source grows by that row |
| UserMemory.UserMemoryManager.NeedsSetup | nlp/user_memory_manager.py:34-36 | true iff no stored row has source "setup" |
| UserMemory.UserMemoryManager.GetSetupQuestions | nlp/user_memory_manager.py:38-39 | for every manager, the interview: three questions keyed name, city, occupation in that order, exactly the fixed list |
| UserMemory.UserMemoryManager.SaveSetupQuestion | nlp/user_memory_manager.py:41-44 | stores the template with the answer substituted, tagged "setup"; afterwards setup is not needed, while `isSetup` keeps its construction-time value |
| ToolMeta.NewTool | nlp/tool.py:6-11 | function, name, description, signature and hints are kept exactly as given |
| ToolMeta.Call | nlp/tool.py:13-14 | calling the tool returns the wrapped function's result for the same arguments |
| ToolMeta.TypeText | nlp/tool.py:20 | a parameter's type text is its hint, or "Any" when it has none |
| ToolMeta.RenderParam | nlp/tool.py:20-22 | an entry is `name: type`, followed by " = " + default only when a default exists |
| ToolMeta.RenderedParams | nlp/tool.py:18-22 | one entry per declared parameter, in declaration order |
| ToolMeta.Parameters | nlp/tool.py:16-23 | the entries joined by ", "; no parameters give ""; one parameter gives just its entry |
| ToolMeta.ParametersSnoc | nlp/tool.py:18-23 | declaring one more parameter appends ", " and its entry; earlier text is unchanged |
| ToolMeta.ParametersLength | nlp/tool.py:23 | the text is the entries' total length plus two characters per gap |
| Text.Join | nlp/tool.py:23 | joining nothing is ""; one item joins to itself; the first item starts the result |
| Text.JoinSnoc | tools/brave_search_tool.py:67-71 | joining one more item adds the separator and the item at the end |
| Text.JoinLength | nlp/tool.py:23 | the joined length is the items' total length plus one separator per gap |
| Text.Contains | tools/brave_search_tool.py:74 | the empty needle is in every text; a needle longer than the text is in none |
| Text.ContainsAt | tools/brave_search_tool.py:74 | the substring test holds iff the needle occurs at some offset |
| ToolRegistry.MakeTool | tools/__init__.py:15 | the tool object is named after the function and wraps it |
| ToolRegistry.Registry.constructor | tools/__init__.py:6 | the registry starts empty |
| ToolRegistry.Registry.RegisterTool | tools/__init__.py:9-17 | stores the new tool under its name, replacing an earlier one of that name; no other entry changes; a new name goes last in key order and a repeated one keeps its place; returns the created tool (with `GetAllTools` and `ValuesSnoc`, a new name's tool is appended to the listed tools and a repeated name leaves their number unchanged) |
| ToolRegistry.Registry.GetAllTools | tools/__init__.py:20-22 | one tool per registered name, in first-registration order; every registered tool appears |
| ToolRegistry.Values | tools/__init__.py:22 | the value list holds the tool of each listed name, in list order |
| ToolRegistry.ValuesSnoc | tools/__init__.py:16-22 | registering a new name adds its tool at the end of the value list |
| ToolRegistry.DistinctLength | tools/__init__.py:22 | a duplicate-free list of exactly the map's keys is as long as the map |
| ToolRegistry.ModuleNames | tools/__init__.py:28-30 | at most one module per stem, each named "tools." + something |
| ToolRegistry.ModuleNamesExact | tools/__init__.py:28-30 | "tools." + s is imported iff s is a listed stem other than "__init__" |
| ToolRegistry.DiscoverModules | tools/__init__.py:25-31 | the loop imports exactly the derived module names, in listing order |
| WeatherTool.GetWeather | tools/weather_tool.py:5-9 | total; the report is "The weather in " + city + " is 72°F and sunny." with the city verbatim in the middle |
| WeatherTool.WeatherRoundTrip | tools/weather_tool.py:9 | the city can be read back from its report |
| WeatherTool.WeatherInjective | tools/weather_tool.py:9 | distinct cities give distinct reports |
| WeatherTool.Registered | tools/weather_tool.py:4-5 | the tool is registered under the name "get_weather" |
| BraveSearch.SetupMessage | tools/brave_search_tool.py:14-24 | the message contains "I cannot search the web because " + reason + ". " right after the fixed opening, contains the setup instructions, and has length of the reason plus a constant |
| BraveSearch.SetupMessageRoundTrip | tools/brave_search_tool.py:14-24 | the reason can be read back from the message |
| BraveSearch.SetupReasonsDiffer | tools/brave_search_tool.py:38-57 | the "not configured" and "invalid token" messages differ |
| BraveSearch.Entry | tools/brave_search_tool.py:69 | an entry is "- " followed by title, ": " and description |
| BraveSearch.Entries | tools/brave_search_tool.py:67-69 | one entry per result, in order |
| BraveSearch.IsErrorStatus | tools/brave_search_tool.py:59 | the status check raises exactly for client errors (4xx) and server errors (5xx) |
| BraveSearch.ExceptionText | tools/brave_search_tool.py:73-76 | an error text containing "401" gives the invalid-token setup message; any other gives "Error performing search: " + text |
| BraveSearch.Search | tools/brave_search_tool.py:27-76 | no token gives the not-configured setup message; status 401 gives the invalid-token message; an error status or exception goes through the exception rule; missing or empty results give "No results found for: " + query; otherwise the entries joined by blank lines |
| BraveSearch.SummarySnoc | tools/brave_search_tool.py:67-71 | one more result appends a blank line and its entry, so entries follow result order |
| Recorder.TrailingSilent | audio_processing/recorder.py:63-70 | the silent run never exceeds the number of chunks read |
| Recorder.TrailingRun | audio_processing/recorder.py:63-70 | the silent run is exactly the trailing silent chunks: the last n are silent and the one before them, if any, is not |
| Recorder.TrailingStep | audio_processing/recorder.py:64-70 | a silent chunk extends the run by one; a non-silent chunk resets it to 0 |
| Recorder.RecordAudio | audio_processing/recorder.py:46-72 | the frames are the data of a prefix of the stream; every kept chunk is non-empty and ends a silent run within the maximum; an empty read ends the loop without keeping it; a silence stop happens at the first chunk that brings the run above the maximum (exactly max+1 for a non-negative maximum), and that chunk is not kept |
| Prompts.GetSystemPrompt | nlp/prompts.py:1-6 | the prompt opens with "You are " + name + ", an AI assistant with access to external tools. ", ends with "Keep responses concise (1-4 sentences).", and its length is the name's plus a constant |
| Prompts.PromptRoundTrip | nlp/prompts.py:1-6 | the name can be read back from the prompt |
| Prompts.PromptInjective | nlp/prompts.py:1-6 | distinct names give distinct prompts |

## Left out

- The completion request itself (`openai.ChatCompletion.create`, with model, temperature, top_p and top_k) is I/O. The backend is the function argument `complete`; `None` from it stands for a completion call that raises, whose exception `ProcessInput` does not catch. A reply whose content is `None` is not modelled: replies are strings.
- CachedTurn.Session: a run of turns takes every completion call to answer. Turns whose call fails are not part of the session model; each such turn writes nothing, as `ProcessInput` states.
- The memcached client and the `str`/`eval` round trip of the stored list are I/O and serialisation. The cache holds the message list itself.
- The SQLite connection and commits are I/O. The table is a list of rows in insertion order, and a query without `ORDER BY` is taken to return rows in that order. The `print_log` calls are logging.
- UserMemory.Substitute: models `str.format` only for templates whose one replacement field is `{value}`. Python's brace escapes and its errors on stray braces are not modelled. The three fixed templates contain no other braces.
- `signature(func)` and `get_type_hints(func)` are runtime reflection. A `Tool` takes the parameter list and the hint texts as given.
- ToolRegistry.MakeTool: the LangChain `tool(func)` factory is a library not modelled here. The model takes its result to be named after the function and described by its doc comment.
- `import_module` executes the discovered tool modules; loading code is not modelled. The directory listing arrives as a list of `.py` stems in listing order.
- Python copies the list `get_all_tools` returns. Dafny sequences are values, so changing the result cannot touch the registry.
- `requests.get` and the JSON decoding are I/O. The HTTP result arrives as a value. A decode failure and a result without `title` or `description` (a `KeyError` the tool does not catch) are not modelled.
- The microphone stream, `bytes_to_float_array`, `calibrate_noise_floor` (floating-point RMS), and the WAV file written after the loop are I/O and floating point. Silence is a boolean carried by each chunk.
- Recorder.RecordAudio: the stream is a finite list, so a third stop reason, `StreamEnded`, covers running out of chunks. The real stream never runs out.
- The LangChain-based processor (`nlp/llm_processor.py`), the API client, the browser tool, speech synthesis, wake-word detection, transcription, the animation, `speak.py` (a duplicate of the recorder loop), `main.py`, `config.py`, `db/database.py` and the logging helpers are not part of this model.
