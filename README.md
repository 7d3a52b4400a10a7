# gpt-cli core, modelled in Dafny

gpt-cli is a command-line chat client. It has two kinds of back-end.

- **Wrappers** send a seed conversation plus the user's prompt to a completion provider. The provider is chosen from the model name.
- **Assistant threads** talk to a remote assistant service. They add the user's message to a remote thread, poll a run until it completes, fetch the new replies, and rewrite each reply's annotations into numbered footnote markers with a reference list.

Around these back-ends the core has:

- the one-shot shell entry points (`simple_response`, `execute`);
- the search for the configuration file and the defaults of the top-level configuration;
- the composite listener and streamer, which fan every event out to their children.

The model follows the source's own structure, one module per source file:

| module | file | source |
|---|---|---|
| `Base` | `base.dfy` | shared values: `Option`/`Result`, the Python errors, messages, configuration values, and Python's `strip`, `join`, `str(int)` and `startswith` |
| `NamedConfigs` | `named_configs.dfy` | logic repeated word for word in the three `from_config`/`init_*` copies: the merge with built-in defaults, the custom-before-built-in lookup, `init_messages` and `_param` |
| `WrapperInterface` | `wrapper.dfy` | `gptcli/gpt_interfaces/wrapper/wrapper.py` |
| `ChatgptAssistant` | `chatgpt_assistant.dfy` | `gptcli/gpt_interfaces/chatgpt_assistant/assistant.py` |
| `Citations` | `citations.dfy` | the text side of `gptcli/assistant.py`: `str.replace`, `str.split`, the six-word excerpt, markers and reference lines |
| `AssistantThreads` | `assistant_thread.dfy` | the `AssistantThread` class, `init_assistant` and `thread_message_to_text` of `gptcli/assistant.py` |
| `Shell` | `shell.dfy` | `gptcli/shell.py` |
| `CliConfig` | `config.dfy` | `gptcli/config.py` |
| `Composite` | `composite.dfy` | `gptcli/composite.py` |

`Wrapper` and `AssistantThread`, whose fields the source updates in place, are Dafny classes whose updating methods carry `modifies` clauses. The two composites are classes whose only changing field, `trace`, records the calls made on their children; the source sets their child lists once and never changes them. `Assistant` is a class for symmetry with `Wrapper`; it has no updating method, since the source sets its configuration only when it is built. The in-place list reversal of `fetch_messages` is an array algorithm. The loops of the source are `while`/`for` loops, each proved against a specification function:

- the merge of `from_config`;
- the citation loop;
- `run_thread`'s polling;
- `choose_config_file`;
- the chunk loop of `simple_response`;
- the composites' fan-out.

The remote service, the editor, the shell, the clock and the environment are not modelled. Whatever they would answer comes in as a parameter:

- the known assistant ids;
- the ids the service hands out;
- the run states seen while polling;
- the message listing, newest first;
- the file names by file id;
- the reply chunks;
- the editor as a function on the file's text;
- `$SHELL`;
- whether each path is a file.

Three behaviours of the citation rewrite in `gptcli/assistant.py` are modelled exactly as the code has them:

- **The marker brings its own space.** Each annotated span is replaced by `" [i]"`, leading space included (line 151). A citation that follows a space therefore ends up after two spaces: `"See source A for details."` becomes `"See  [0] for details."`. `Citations.SingleCitation` states this for every text with one cited span.
- **Every occurrence is replaced.** `str.replace` (line 151) replaces every non-overlapping occurrence of the annotated span, left to right, not only the first. `Citations.ReplaceAtFirst`, `Citations.ReplaceLeftmost` and `Citations.ReplaceAbsent` state this.
- **A missing anchor raises `ValueError` from `list.index`.** `list.index` (line 130) never returns `-1`; it raises `ValueError` when the id is absent. The `== -1` test on lines 131-132 therefore never fires, and its message is never raised. `AssistantThreads.Window` and `AssistantThreads.Fetched` state this.

## Model

| member | source | states |
|---|---|---|
| `Base.LStrip` | gptcli/shell.py:45 | the result is a suffix of the input that does not start with whitespace, and every character removed is whitespace |
| `Base.RStrip` | gptcli/shell.py:45 | the result is a prefix of the input that does not end with whitespace, and every character removed is whitespace |
| `Base.Strip` | gptcli/shell.py:45 | the stripped text is no longer than the input and neither starts nor ends with whitespace; it is empty exactly when the input is all whitespace |
| `Base.StripSurrounded` | gptcli/shell.py:45 | text with whitespace on both sides strips to exactly the text between, so nothing inside the command is removed |
| `Base.ConcatAppend` | gptcli/shell.py:17 | concatenating a list of pieces distributes over appending lists, so `result += response` builds the concatenation of the chunks |
| `Base.NatToString` | gptcli/assistant.py:151 | the marker index is printed as a non-empty string of decimal digits whose decimal value is the index, with no leading zero except for `0` itself |
| `Base.NatToStringInjective` | gptcli/assistant.py:151 | different indices print differently, so no two annotations of a message share a marker |
| `NamedConfigs.Merged` | gptcli/gpt_interfaces/wrapper/wrapper.py:77-87 | the merge fails exactly when some key is present with `None` and absent from the defaults; otherwise it has the keys of both, keeps every non-`None` value of the configuration and takes the default wherever the configuration is missing or `None` |
| `NamedConfigs.MergeDefaults` | gptcli/gpt_interfaces/wrapper/wrapper.py:83-85 | the key loop on the copy succeeds exactly when `Merged` does and then yields `Merged`'s configuration; a failure is a `KeyError` on a key that cannot be filled |
| `NamedConfigs.MergedIdempotent` | gptcli/gpt_interfaces/wrapper/wrapper.py:77-87 | merging an already merged configuration with the same defaults changes nothing |
| `NamedConfigs.MergedNoNewKeys` | gptcli/gpt_interfaces/wrapper/wrapper.py:83-85 | a configuration without `None` values, over defaults that add no key, comes back unchanged |
| `NamedConfigs.SelectConfig` | gptcli/gpt_interfaces/wrapper/wrapper.py:130-137 | the custom configuration of that name wins over the built-in one; a name in neither is exit status 1 |
| `NamedConfigs.ResolveConfig` | gptcli/gpt_interfaces/chatgpt_assistant/assistant.py:46-56 | a name without built-in defaults keeps the configuration as given; otherwise the result is the merge, and a failure is a `KeyError` on an unfillable key |
| `NamedConfigs.SeedMessages` | gptcli/gpt_interfaces/wrapper/wrapper.py:89-90 | no `messages` key gives no seed messages; a list value gives exactly that list; any other value, and only such a value, is a `TypeError` |
| `NamedConfigs.LayeredParam` | gptcli/gpt_interfaces/wrapper/wrapper.py:95-101 | a parameter without a built-in default raises `KeyError` whatever the override or configuration hold; otherwise the override wins over the configuration, which wins over the default |
| `WrapperInterface.PrefixesExclusive` | gptcli/gpt_interfaces/wrapper/wrapper.py:59-69 | no model name starts with two of the four provider prefixes |
| `WrapperInterface.GetCompletionProvider` | gptcli/gpt_interfaces/wrapper/wrapper.py:59-69 | a provider is selected exactly when the model starts with its prefix; a model matching no prefix raises `ValueError("Unknown model: <model>")` |
| `WrapperInterface.DefaultWrappers` | gptcli/gpt_interfaces/wrapper/wrapper.py:28-56 | the built-in wrappers are exactly `dev`, `general` and `bash`, and each sets only its seed messages |
| `WrapperInterface.SupportedOverridesResolve` | gptcli/gpt_interfaces/wrapper/wrapper.py:92-101 | each supported override has a built-in default, so `_param` resolves it; every other name raises `KeyError` |
| `WrapperInterface.RequestFor` | gptcli/gpt_interfaces/wrapper/wrapper.py:103-116 | a request exists exactly when the layered model is a string with a known provider prefix, and it then carries that model, its provider and the layered temperature and top_p; a model that is not a string fails with exactly `AttributeError`; a string with no known prefix fails with `ValueError("Unknown model: <model>")` |
| `WrapperInterface.Wrapper.constructor` | gptcli/gpt_interfaces/wrapper/wrapper.py:73-74 | a new wrapper holds the configuration it is given |
| `WrapperInterface.Wrapper.FromConfig` | gptcli/gpt_interfaces/wrapper/wrapper.py:76-87 | a new wrapper whose configuration is the given one, or its merge with the built-in wrapper of that name; a failure is a `KeyError` |
| `WrapperInterface.Wrapper.ApplyCliArgs` | gptcli/gpt_interfaces/wrapper/wrapper.py:139-145 | the configuration becomes `CliOverridden` of the old one |
| `WrapperInterface.Wrapper.InitMessages` | gptcli/gpt_interfaces/wrapper/wrapper.py:89-90 | no `messages` key gives an empty seed; a configured list is returned exactly; it fails, with `TypeError`, exactly when the value is not a list |
| `WrapperInterface.Wrapper.Param` | gptcli/gpt_interfaces/wrapper/wrapper.py:95-101 | `_param` fails exactly for a name without a built-in default; otherwise the override wins, then the configuration, then the default |
| `WrapperInterface.Wrapper.CompleteChat` | gptcli/gpt_interfaces/wrapper/wrapper.py:103-116 | a request is built exactly when `_param("model")` is a string with a known provider prefix, and carries that model, its provider and `_param`'s temperature and top_p; a model that is not a string is exactly `AttributeError`; a string with no known prefix is `ValueError("Unknown model: <model>")` |
| `WrapperInterface.CliOverridden` | gptcli/gpt_interfaces/wrapper/wrapper.py:139-145 | each CLI value other than `None` is stored under its key; every key whose CLI value is `None` keeps its value; a key that is new is a supported override whose CLI value is set; no configured key is lost |
| `WrapperInterface.InitWrapper` | gptcli/gpt_interfaces/wrapper/wrapper.py:127-146 | exit status 1 exactly for a name that is neither custom nor built-in; otherwise a fresh wrapper whose configuration is the selected and merged one with the CLI values applied |
| `WrapperInterface.InitWrapperPrecedence` | gptcli/gpt_interfaces/wrapper/wrapper.py:127-146 | for model, temperature and top_p, a CLI value beats the custom wrapper's value, which beats the built-in wrapper's |
| `WrapperInterface.CommentedOutTestBuiltIn` | tests/test_assistant.py:8-22 | the three expected configurations for the built-in `dev` wrapper (no CLI value, a CLI model, CLI temperature and top_p) hold |
| `WrapperInterface.CommentedOutTestCustomDev` | tests/test_assistant.py:23-40 | the two expected configurations for a custom `dev` wrapper hold, the CLI model winning over the custom one |
| `WrapperInterface.CommentedOutTestCustom` | tests/test_assistant.py:41-66 | the two expected configurations for a custom wrapper that is not built in hold, CLI values winning over its own |
| `ChatgptAssistant.GetCompletionProvider` | gptcli/gpt_interfaces/chatgpt_assistant/assistant.py:27-37 | only a `gpt` model is accepted, and it selects OpenAI; anything else raises `ValueError("Unknown model: <model>")` |
| `ChatgptAssistant.ProviderNarrowsWrapper` | gptcli/gpt_interfaces/chatgpt_assistant/assistant.py:27-37 | on the names it accepts it agrees with the wrapper's provider choice, and it accepts only names the wrapper sends to OpenAI |
| `ChatgptAssistant.ParamAlwaysFails` | gptcli/gpt_interfaces/chatgpt_assistant/assistant.py:64-70 | with empty built-in defaults, `_param` raises `KeyError` for every parameter |
| `ChatgptAssistant.RequestFor` | gptcli/gpt_interfaces/chatgpt_assistant/assistant.py:72-87 | `complete_chat` always raises `KeyError("model")` before reaching a provider |
| `ChatgptAssistant.Assistant.constructor` | gptcli/gpt_interfaces/chatgpt_assistant/assistant.py:42-43 | a new assistant holds the configuration it is given |
| `ChatgptAssistant.Assistant.FromConfig` | gptcli/gpt_interfaces/chatgpt_assistant/assistant.py:45-56 | the new assistant keeps the configuration exactly as given, since no name has built-in defaults |
| `ChatgptAssistant.Assistant.InitMessages` | gptcli/gpt_interfaces/chatgpt_assistant/assistant.py:58-59 | no `messages` key gives an empty seed; a configured list is returned exactly; it fails, with `TypeError`, exactly when the value is not a list |
| `ChatgptAssistant.Assistant.Param` | gptcli/gpt_interfaces/chatgpt_assistant/assistant.py:64-70 | `_param` raises `KeyError` with the parameter's name, for every name and every override |
| `ChatgptAssistant.Assistant.CompleteChat` | gptcli/gpt_interfaces/chatgpt_assistant/assistant.py:72-87 | `complete_chat` always raises `KeyError("model")` |
| `ChatgptAssistant.InitAssistant` | gptcli/gpt_interfaces/chatgpt_assistant/assistant.py:94-113 | exit status 1 exactly for a name that is not a custom assistant; otherwise a fresh assistant with that configuration |
| `Citations.ReplaceAbsent` | gptcli/assistant.py:151 | `str.replace` leaves text without an occurrence of the pattern unchanged |
| `Citations.ReplaceAtFirst` | gptcli/assistant.py:151 | when the pattern first occurs at `k`, `str.replace` copies the text before `k`, emits the replacement and resumes right after the occurrence |
| `Citations.ReplaceLeftmost` | gptcli/assistant.py:151 | `str.replace` replaces the leftmost occurrence and resumes right after it, so every non-overlapping occurrence is replaced |
| `Citations.Split` | gptcli/assistant.py:158 | `str.split()` returns non-empty pieces without whitespace |
| `Citations.SplitWord` | gptcli/assistant.py:158 | a single word splits into itself alone |
| `Citations.SplitAroundSpace` | gptcli/assistant.py:158 | splitting at a whitespace character gives the words before it followed by the words after it |
| `Citations.SplitJoin` | gptcli/assistant.py:158 | joining words with single spaces and splitting again gives the words back |
| `Citations.JoinSingleSpaced` | gptcli/assistant.py:158 | words joined with `' '` have no leading or trailing whitespace and no whitespace other than single spaces between two words |
| `Citations.Excerpt` | gptcli/assistant.py:158 | the search excerpt splits back into the first six words of the quote (all of them if there are fewer), in order, and its only whitespace is single `' '` characters between words, so it is exactly those words joined by one space |
| `Citations.ReferenceLine` | gptcli/assistant.py:156-162 | a file citation gives `[i] <file name> - (Search: "<excerpt>")`, a file path (without a citation) gives `[i] Click <here> to download <file name>`, an annotation with neither gives no line; a referenced file that is unknown fails with `NotFound` on its id |
| `Citations.ReferencesFromShape` | gptcli/assistant.py:149-162 | the reference list is built exactly when every referenced file can be looked up, with one line per referencing annotation after what was gathered before; a failure is `NotFound` on an unknown id |
| `Citations.ReferencesFromRefLines` | gptcli/assistant.py:149-162 | with every file known, the loop continued from annotation `i` turns the lines of the first `i` annotations into the lines of all of them |
| `Citations.ReferencesInOrder` | gptcli/assistant.py:149-162 | the loop succeeds exactly when every referenced file is known, and then yields the reference lines in annotation order, each with its annotation's index; otherwise `NotFound` on an unknown id |
| `Citations.Annotated` | gptcli/assistant.py:149-165 | the annotated text is the text with every span replaced by its marker, a blank line and the reference lines joined by newlines, in annotation order; it fails exactly when a referenced file is unknown |
| `Citations.AnnotatedWithoutAnnotations` | gptcli/assistant.py:165 | text without annotations only gains the trailing blank line |
| `Citations.SingleCitation` | gptcli/assistant.py:149-165 | one file citation whose text occurs once: the text becomes `" [0]"` in place, and the single line `[0] <file name> - (Search: "<excerpt>")` follows the blank line |
| `Citations.CitationThenPath` | gptcli/assistant.py:149-165 | a file citation followed by a file path gives the citation line `[0] ...` and then the download line `[1] ...`, in that order |
| `Citations.AnnotateText` | gptcli/assistant.py:144-166 | the per-message loop computes exactly the annotated text, or the lookup error |
| `Citations.WithCitation` | gptcli/assistant.py:142-145 | more than one content block raises `ValueError`, none raises `IndexError`, a non-text block raises `AttributeError`, and a lookup error propagates; it succeeds exactly otherwise, keeping id and role and holding one text block with the annotated text and the same annotations |
| `Citations.WithCitations` | gptcli/assistant.py:137-168 | a rewritten listing has as many messages as the input |
| `Citations.WithCitationsPointwise` | gptcli/assistant.py:137-168 | the listing is rewritten exactly when each message is, and then message by message, in the same order and number |
| `Citations.WithCitationsSnoc` | gptcli/assistant.py:139-166 | rewriting a listing with one more message is rewriting the prefix, then that message |
| `Citations.AddCitationsToMessages` | gptcli/assistant.py:137-168 | the loop over the messages returns exactly the rewritten listing, or the first error in order |
| `Citations.CitationStep` | gptcli/assistant.py:139-166 | one more message: its error is the error of the whole call, and otherwise its rewrite is appended to the rewritten prefix |
| `Citations.PrefixErrIsErr` | gptcli/assistant.py:139-143 | an error on some message aborts the whole call with that error |
| `AssistantThreads.AssistantIdOf` | gptcli/assistant.py:58 | the assistant id is the configuration's `id` exactly when that is a non-empty string |
| `AssistantThreads.SlicedSeed` | gptcli/assistant.py:81 | `config.get("messages", [])[:]`: no key gives an empty list, a list or a string is copied as it is, and anything else raises `TypeError` |
| `AssistantThreads.SeedMessagesSliceable` | gptcli/assistant.py:81 | whatever the wrappers accept as seed messages, the thread copies unchanged |
| `AssistantThreads.CreateError` | gptcli/assistant.py:53-60 | construction succeeds exactly when the id names a known assistant and the seed can be sliced; a missing id is `ValueError`, an unknown one `NotFound`, an unsliceable seed `TypeError` |
| `AssistantThreads.AssistantThread.constructor` | gptcli/assistant.py:53-59 | a new thread object holds its configuration and ids and has no anchor |
| `AssistantThreads.AssistantThread.Create` | gptcli/assistant.py:53-60 | fails exactly as `CreateError` says; otherwise a fresh object bound to the assistant and to the new thread, with no anchor |
| `AssistantThreads.AssistantThread.FromConfig` | gptcli/assistant.py:62-73 | with no built-in assistants, the configuration is used as given and construction proceeds as in `Create` |
| `AssistantThreads.AssistantThread.InitMessages` | gptcli/assistant.py:75-81 | binds the new thread id, changes nothing else, and returns the sliced seed, or its `TypeError` |
| `AssistantThreads.AssistantThread.AddMessage` | gptcli/assistant.py:84-95 | the anchor becomes the id the service assigned; the returned message carries the role and content sent |
| `AssistantThreads.AssistantThread.FetchMessages` | gptcli/assistant.py:115-135 | returns exactly `Fetched`: the listing reversed, cut at the anchor, with citations added |
| `AssistantThreads.FirstCompleted` | gptcli/assistant.py:109 | the index of the first completed run, and no earlier run is completed; none when no run completes |
| `AssistantThreads.RunThread` | gptcli/assistant.py:97-113 | the run returned is the first completed one, reached after that many retrievals; none when the answers end first |
| `AssistantThreads.Reverse` | gptcli/assistant.py:124 | the reversed listing has the same length and position `i` holds the element at position `n - 1 - i` |
| `AssistantThreads.ReverseReverse` | gptcli/assistant.py:124 | reversing twice gives the listing back |
| `AssistantThreads.ReverseInPlace` | gptcli/assistant.py:124 | the array afterwards holds the reverse of what it held before |
| `AssistantThreads.Ids` | gptcli/assistant.py:129 | one id per message, in order |
| `AssistantThreads.FirstIndex` | gptcli/assistant.py:130 | `list.index`: the first position holding the id; none exactly when the id is absent |
| `AssistantThreads.Window` | gptcli/assistant.py:127-133 | unanchored keeps every message; anchored fails with `ValueError` exactly when the anchor is absent; a result is always a suffix of the listing |
| `AssistantThreads.WindowAfterAnchor` | gptcli/assistant.py:127-133 | anchored, the window is exactly the messages after the anchor's first occurrence |
| `AssistantThreads.AnchorNotInWindow` | gptcli/assistant.py:133 | with distinct ids, the anchor itself is not among the fetched messages |
| `AssistantThreads.IdsReverse` | gptcli/assistant.py:124-130 | reversing the listing does not change which ids it holds |
| `AssistantThreads.Fetched` | gptcli/assistant.py:115-135 | anchored on an id absent from the listing, the result is `ValueError` from `list.index`; a success has at most as many messages as the listing |
| `AssistantThreads.FetchedAnchored` | gptcli/assistant.py:120-135 | anchored, with the anchor first occurring at position `k` of the listing put oldest first, the result is the citation rewrite of exactly the messages after position `k` |
| `AssistantThreads.FetchedUnanchored` | gptcli/assistant.py:120-135 | unanchored, every listed message comes back oldest first, each with its citations |
| `AssistantThreads.Texts` | gptcli/assistant.py:196-197 | at most one text per content block: exactly one each when every block is a text block, none when no block is |
| `AssistantThreads.TextsOfBlock` | gptcli/assistant.py:196-197 | a text block gives its text, any other block gives nothing |
| `AssistantThreads.TextsAppend` | gptcli/assistant.py:196-197 | the texts of two runs of blocks are the texts of the first followed by those of the second |
| `AssistantThreads.BlocksAppend` | gptcli/assistant.py:195 | the content blocks of a listing are those of its parts, in order |
| `AssistantThreads.ThreadMessageToText` | gptcli/assistant.py:194-198 | the texts are those of all content blocks of all messages, in message order |
| `AssistantThreads.ThreadMessageToTextAppend` | gptcli/assistant.py:194-198 | the texts of a listing are the texts of its parts, in order |
| `AssistantThreads.CitedText` | gptcli/assistant.py:165-166 | a message with citations added shows exactly one text |
| `AssistantThreads.TextsOfSingles` | gptcli/assistant.py:194-198 | messages showing one text each show those texts, in order |
| `AssistantThreads.TextOfCited` | gptcli/assistant.py:194-198 | fetched messages render as one annotated text each, in order |
| `AssistantThreads.InitAssistant` | gptcli/assistant.py:180-192 | exit status 1 for a name that is not a custom assistant; otherwise construction from that configuration, failing exactly as `CreateError` says |
| `Shell.UserTurn` | gptcli/shell.py:10-11 | the sent messages are the seed messages followed by the prompt as a user message |
| `Shell.Received` | gptcli/shell.py:15-20 | at most all chunks arrive, and all of them without an interrupt |
| `Shell.SimpleResponse` | gptcli/shell.py:9-23 | errors of `init_messages` and `complete_chat` propagate; otherwise the chunks received are written in order and the logged result is their concatenation |
| `Shell.HeaderLine1IsComment` | gptcli/shell.py:35 | the first header line is a single line starting with `#` |
| `Shell.HeaderLine2IsComment` | gptcli/shell.py:36 | the second header line is a single line starting with `#` |
| `Shell.UniversalNewlines` | gptcli/shell.py:43 | text read in text mode contains no carriage return |
| `Shell.UniversalNewlinesIsReplace` | gptcli/shell.py:43 | reading in text mode is replacing every `\r\n` by `\n` and then every remaining `\r` by `\n` |
| `Shell.UniversalNewlinesCRLF` | gptcli/shell.py:43 | a leading `\r\n` reads as one `\n` |
| `Shell.UniversalNewlinesCR` | gptcli/shell.py:43 | a leading `\r` not followed by `\n` reads as `\n` |
| `Shell.UniversalNewlinesNoCR` | gptcli/shell.py:43 | text without carriage returns reads back as written |
| `Shell.UniversalNewlinesAppend` | gptcli/shell.py:43 | text not ending in a carriage return reads back independently of what follows it |
| `Shell.LineLen` | gptcli/shell.py:44 | the first line ends at its first newline, or at the end of the text |
| `Shell.ReadLines` | gptcli/shell.py:44 | every line is non-empty with no newline before its end, and every line but the last ends in a newline |
| `Shell.ReadLinesConcat` | gptcli/shell.py:44-45 | joining the lines `readlines` returns gives the text back |
| `Shell.ReadLinesAfterLine` | gptcli/shell.py:44 | a single line in front of a text is read as a line of its own |
| `Shell.KeptLines` | gptcli/shell.py:44 | the kept lines are exactly the lines not starting with `#`: each kept line is one of the lines and does not start with `#`, and each such line is kept |
| `Shell.KeptLine` | gptcli/shell.py:44 | a single line is dropped exactly when it starts with `#` |
| `Shell.KeptLinesAppend` | gptcli/shell.py:44 | filtering two runs of lines is filtering each, in order |
| `Shell.KeptLinesAll` | gptcli/shell.py:44 | lines none of which starts with `#` are all kept |
| `Shell.Uncommented` | gptcli/shell.py:43-45 | a file with no comment line and no carriage return reads back exactly as written |
| `Shell.ExtractCommand` | gptcli/shell.py:43-47 | the command is empty exactly when the uncommented text is all whitespace; a file with no comment line and no carriage return gives its own text stripped |
| `Shell.CommentLineDropped` | gptcli/shell.py:43-45 | a comment line in front of a text adds nothing to the command |
| `Shell.CommentLinesDropped` | gptcli/shell.py:35-45 | two comment lines in front of a text add nothing to the command |
| `Shell.ExtractFromDraft` | gptcli/shell.py:34-45 | the header written above the suggestion contributes nothing to the command read back |
| `Shell.ExtractRoundTrip` | gptcli/shell.py:34-45 | an unedited suggestion without `#` lines or carriage returns comes back as itself, stripped |
| `Shell.Execute` | gptcli/shell.py:26-55 | errors propagate, and no chunk is `StopIteration`; only the first chunk is offered under the header; nothing runs exactly when the command read back is empty; otherwise `$SHELL` (default `/bin/bash`) runs the edited file |
| `CliConfig.FirstExisting` | gptcli/config.py:35-39 | the first path, in list order, that passes the file check; none when no path does |
| `CliConfig.ChooseConfigFile` | gptcli/config.py:35-39 | returns the first existing path, or `""` when none exists |
| `CliConfig.FirstExistingIs` | gptcli/config.py:35-39 | a passing path with no passing path before it is the one chosen |
| `CliConfig.SearchOrder` | gptcli/config.py:11-14 | `~/.config/gpt-cli/gpt.yml` wins over `~/.gptrc`, which is used only when the first is missing |
| `CliConfig.PathJoin` | gptcli/config.py:12-13 | `os.path.join` inserts exactly one `/` after a non-empty first part that does not end in one, and concatenates otherwise, so no separator is doubled |
| `CliConfig.ConfigFilePaths` | gptcli/config.py:11-14 | two candidate paths, both starting with the home directory: `<home>/.config/gpt-cli/gpt.yml`, then `<home>/.gptrc`, with no extra `/` after a home that already ends in one (home `/` gives `/.config/gpt-cli/gpt.yml` and `/.gptrc`) |
| `CliConfig.DefaultGptCliConfig` | gptcli/config.py:17-32 | the defaults: wrapper `general`, markdown and prices shown, log level `INFO`, no wrappers or assistants, and each API key read from its environment variable (`api_key` from `OPENAI_API_KEY`) |
| `CliConfig.DefaultWrapperIsBuiltIn` | gptcli/config.py:17-32 | the default wrapper name `general` is a built-in wrapper, and it resolves to an empty seed conversation |
| `Composite.Fanout` | gptcli/composite.py:13-14 | one call per child, in list order, each with the same event |
| `Composite.FanoutSplit` | gptcli/composite.py:13-14 | forwarding to a list is forwarding to its first part, then to the rest |
| `Composite.CompositeResponseStreamer.constructor` | gptcli/composite.py:9-10 | the composite holds its children and has forwarded nothing |
| `Composite.CompositeResponseStreamer.Forward` | gptcli/composite.py:13-14 | the loop forwards the event to every streamer, in order |
| `Composite.CompositeResponseStreamer.EnterContext` | gptcli/composite.py:12-15 | every streamer is entered in order, and the composite returns itself |
| `Composite.CompositeResponseStreamer.OnNextToken` | gptcli/composite.py:17-19 | every streamer gets the same token, in order |
| `Composite.CompositeResponseStreamer.ExitContext` | gptcli/composite.py:21-23 | every streamer gets the same exit arguments, in order |
| `Composite.CompositeChatListener.constructor` | gptcli/composite.py:27-28 | the composite holds its listeners and has forwarded nothing |
| `Composite.CompositeChatListener.Forward` | gptcli/composite.py:31-32 | the loop forwards the event to every listener, in order |
| `Composite.CompositeChatListener.OnChatStart` | gptcli/composite.py:30-32 | every listener gets `on_chat_start`, in order |
| `Composite.CompositeChatListener.OnChatClear` | gptcli/composite.py:34-36 | every listener gets `on_chat_clear`, in order |
| `Composite.CompositeChatListener.OnChatRerun` | gptcli/composite.py:38-40 | every listener gets `on_chat_rerun` with the same flag, in order |
| `Composite.CompositeChatListener.OnError` | gptcli/composite.py:42-44 | every listener gets the same error, in order |
| `Composite.CompositeChatListener.OnChatMessage` | gptcli/composite.py:51-53 | every listener gets the same message, in order |
| `Composite.CompositeChatListener.OnChatResponse` | gptcli/composite.py:55-59 | every listener gets the same messages, response and overrides, in order |
| `Composite.CompositeChatListener.ResponseStreamer` | gptcli/composite.py:46-49 | a new composite streamer over each listener's streamer, in listener order |

## Left out

- **Remote service calls** (assistant retrieval, thread and message creation, run creation and retrieval, message listing, file retrieval) are parameters. The model does not capture transport failures or the service's own validation. A missing or empty assistant id is modelled as the client library's `ValueError`.
- **`time.sleep(2)` and endless polling.** The sleep between polls is left out. The source polls forever when no run completes. The model sees a finite sequence of answers and reports no run when they run out.
- `AssistantThreads.AssistantThread.FetchMessages`: `add_citations_to_messages` rewrites the message objects in place and returns the same list. The model returns new values instead, so aliasing of those objects is not captured. Nothing else holds them.
- **`get_thread_id` and `get_assistant_id`** are the fields `threadId` and `assistantId`.
- **The `tmp_thread_message` fixture** is a literal that no code path reads.
- **Provider `complete` calls and `float()` conversions.** The streamed completion is not modelled. The provider's reply is a given sequence of chunks. `Request` keeps temperature and top_p before their `float()` conversion, so conversion errors are not modelled.
- **Other files.** `gptcli/gpt.py` (the argument parser and session loop), `gptcli/persist.py`, `gptcli/gpt_interfaces/gpt_interface.py` and the provider implementations are not part of this model.
- **`read_yaml_config`** reads a YAML file. The file system and the YAML parser are not part of this model.
- **Environment defaults.** `platform.uname()`, `$SHELL`, `$EDITOR` and the API-key environment variables are parameters. The editor is a function from the file's text to the edited text.
- **Logging and printing.** `logging.info`, `print` and `sys.stdout.flush` are left out. The text written to standard output is kept as `written`.
- `NamedConfigs.MergeDefaults`: dictionaries are modelled as maps, so their keys are visited in no particular order. When several keys are unfillable, the `KeyError` names one of them, not necessarily the first in dictionary order.
- `NamedConfigs.SeedMessages`: for the wrappers, a string under `messages` is sliced successfully by Python (`"hi"[:]`). The failure only comes later, when `shell.py` (line 11) calls `append` on the string, and Python raises `AttributeError` there. The model reports `TypeError` at once. The assistant thread does not append, so there `AssistantThreads.SlicedSeed` accepts a string as Python does.
- `WrapperInterface.Wrapper.InitMessages`: returns `SeedMessages`, so a string seed is the same early `TypeError` as above, where Python returns the string.
- `ChatgptAssistant.Assistant.InitMessages`: the same as `WrapperInterface.Wrapper.InitMessages`.
- `Composite.CompositeResponseStreamer.Forward`: children are assumed not to raise. In the source, the loop stops at the first child that raises, and the exception propagates to the caller. The model always reaches every child.
- `Composite.CompositeChatListener.Forward`: the same assumption; a listener that raises would, in the source, stop the loop and reach the caller. This holds for every event method built on the two `Forward` loops.
- `ChatgptAssistant.RequestFor`: the steps after the model lookup (provider call, `float()` conversions) are unreachable because `_param("model")` always raises. They are written out but never taken.
- `Shell.Execute`: the temporary file's name and its persistence (`delete=False`) are not modelled, nor is the exit status of the shell.
