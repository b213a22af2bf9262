# LiveProxy server core in Dafny

LiveProxy is a local HTTP server in front of Streamlink. Its request
handler passes a GET whose path starts with `/play/` or `/301/` to
`main_play`, and answers every other GET, and every HEAD, with a 404. This project
models `liveproxy/server.py`. It covers the six setup functions that prepare a Streamlink
session for a request, plus the request handler's routing:

- **Configuration layering** (`setup_args`, `setup_config_args`), module
  `ConfigMerge` over the abstract argument parser `ArgParse`.
  - Existing configuration files are put at the front of the caller's
    argument list as `@file` tokens, and the list is re-parsed.
  - Unknown arguments are an error only when they are not ignored.
  - Stream names are lower-cased, and `url` falls back to `url_param`.
  - `setup_config_args` chooses the plugin-specific files and then either
    the explicit `--config` files, reversed, or the first existing default
    file. It does not re-parse only when that list is empty: plugin-specific
    and `--config` files are listed without checking that they exist, so
    listed files that do not exist still trigger the re-parse.
- **Global options** (`setup_http_session`, `setup_options`), module
  `GlobalOptions`.
  - Each `if args.<field>: session.set_option(...)` is one `Rule`.
  - Both setup functions are shown to leave every other key alone, to give
    each key its write's outcome (the later of two writes to one key wins)
    and to be idempotent.
- **Plugin defaults** (`setup_plugin_args`), module `PluginSetup`. Every
  plugin gets an option store that holds each argument's default under its
  `dest`, and the last argument with a given `dest` wins.
- **Plugin options** (`setup_plugin_options`), module `PluginSetup`.
  - Each argument's namespace value is copied into the plugin's store.
  - The `required` ordered dictionary is built as the code builds it.
  - The loop stops at the first argument whose `requires()` hits a cycle.
  - A missing-required report is logged for every collected entry whose
    stored value is falsy.
- **Request routing** (`HTTPRequest.do_GET`, `do_HEAD`, `_headers`), module
  `Dispatch`.

The Streamlink session's option stores live in the class `Sessions.Session`.
The methods that write to them change only the fields they name.

Python values are the datatype `Values.Value`, with Python's truthiness. A
parsed namespace and an option store are both a `Store`, a map from
attribute name to value. An attribute that is missing reads as `None`.

The required set holds an argument itself only when the argument is flagged
`required` (`liveproxy/server.py:216-217`). An argument whose value is merely
truthy adds only what its `requires()` yields (`liveproxy/server.py:221-224`).
The model follows this code.

## Model

| member | source | states |
|---|---|---|
| `ArgParse.Expand` | liveproxy/server.py:24 | Expanding `@file` references succeeds exactly when every referenced file exists. |
| `ArgParse.ExpandAppend` | liveproxy/server.py:22-24 | Expanding two token lists one after the other gives the concatenation of their expansions. |
| `ArgParse.Assign` | liveproxy/server.py:24 | After parsing, each destination holds its last setting, or the parser's default when nothing sets it. |
| `ArgParse.UnknownTexts` | liveproxy/server.py:24-25 | The unknown list is empty exactly when every argument is recognised. |
| `ArgParse.ParseKnownArgs` | liveproxy/server.py:24 | `parse_known_args`: a missing `@file` is a parse error; otherwise the namespace is the parser defaults overwritten by the settings in order, with the unknown texts beside it (properties in `Expand`, `Assign`, `UnknownTexts`). |
| `ArgParse.LastSettingAppend` | liveproxy/server.py:22-24 | In a concatenation of arguments, a setting in the later part overrides one in the earlier part. |
| `ArgParse.LastWinsIsPriority` | liveproxy/server.py:21-24 | Concatenating layers from the lowest priority up and letting the last setting win gives each destination its highest layer's value. |
| `ArgParse.ConcatAppend` | liveproxy/server.py:22-24 | Concatenating the layers of two lists is the concatenation of the two concatenations. |
| `ConfigMerge.ExistingRefs` | liveproxy/server.py:21-22 | The `@file` tokens of the existing files, in the order given (properties in `ExistingRefsMembers`). |
| `ConfigMerge.ExistingRefsMembers` | liveproxy/server.py:21-22 | A file gets an `@file` token exactly when it is listed and exists; there are at most as many tokens as files. |
| `ConfigMerge.ExistingRefsStep` | liveproxy/server.py:21-22 | One turn of the insertion loop puts the file's token, if the file exists, in front of the tokens for the earlier files. |
| `ConfigMerge.FileLayersAppend` | liveproxy/server.py:21-22 | The layers of two file lists are the layers of each list, in order. |
| `ConfigMerge.FileLayersReverse` | liveproxy/server.py:48 | The layers of a reversed file list are the reversed layers. |
| `ConfigMerge.ExpandRefs` | liveproxy/server.py:21-24 | The inserted tokens expand to the existing files' arguments, the last file first. |
| `ConfigMerge.LowerAll` | liveproxy/server.py:31 | Lower-casing keeps the number of stream names and lower-cases each one in place. |
| `ConfigMerge.Normalise` | liveproxy/server.py:29-34 | Keys other than `stream` and `url` are unchanged. A truthy list of stream names is lower-cased; otherwise `stream` is unchanged. `url` takes `url_param` exactly when `url` is falsy and `url_param` is truthy. |
| `ConfigMerge.ArgsOutcome` | liveproxy/server.py:24-35 | The result of `setup_args` for a token list: the parse error, the "unrecognized arguments: " error joining the unknown texts with spaces when they are not ignored, or the normalised namespace. |
| `ConfigMerge.SetupArgs` | liveproxy/server.py:17-35 | The argument list becomes the existing files' tokens, in reverse order, ahead of the original tokens. The result is a parse error, the "unrecognized arguments" error when unknown arguments are not ignored, or the normalised namespace. |
| `ConfigMerge.SetupArgsPrecedence` | liveproxy/server.py:21-24 | Each destination other than `stream` and `url` takes its value from the direct arguments, else from the configuration files with the first given highest, else from the parser default. |
| `ConfigMerge.PluginFiles` | liveproxy/server.py:41-44 | `fn + '.' + module` for each name of `CONFIG_FILES`, when `url` is truthy and resolves to a plugin; nothing otherwise. |
| `ConfigMerge.ConfigFiles` | liveproxy/server.py:39-53 | The plugin files followed by the reversed `--config` files when `config` is truthy, or by the first existing default file (properties in `ExplicitConfigPrecedence`, `DefaultConfigPrecedence`). |
| `ConfigMerge.FirstExisting` | liveproxy/server.py:50-53 | At most one file is chosen. None is chosen exactly when no default file exists; otherwise it is the first one that exists. |
| `ConfigMerge.SetupConfigArgs` | liveproxy/server.py:38-57 | When no plugin file, no `--config` file and no existing default file is listed (the candidate list is empty), `args` is returned unchanged and so is the argument list; listed files that do not exist still trigger the re-parse. Otherwise the result is `setup_args` over the plugin files followed by the reversed `--config` files, or by the first existing default file. |
| `ConfigMerge.ExplicitConfigPrecedence` | liveproxy/server.py:41-48 | With `--config A B C`, when the arguments are re-parsed, the precedence for each destination other than `stream` and `url` is: direct arguments, then plugin-specific files, then C, then B, then A, then the parser defaults. |
| `ConfigMerge.DefaultConfigPrecedence` | liveproxy/server.py:41-53 | Without `--config`, when the arguments are re-parsed (the candidate list is not empty; when no plugin file, no `--config` file and no existing default file is listed, `SetupConfigArgs` returns `args` unchanged), the precedence for each destination other than `stream` and `url` is: direct arguments, then plugin-specific files, then the first existing default file, then the parser defaults. |
| `Values.Truthy` | liveproxy/server.py:62 | Python's truth test, as in every `if args.<field>:`: None, False, zero and empty strings and containers are falsy. |
| `Values.AsDict` | liveproxy/server.py:69 | `dict(pairs)`: the key/value pairs of a list or tuple, later pairs overwriting earlier ones with the same key; a dictionary is kept. |
| `Values.AsTuple` | liveproxy/server.py:90 | `tuple(v)` for a list or tuple: the same elements in the same order. |
| `GlobalOptions.Outcome` | liveproxy/server.py:62-63 | What one guarded write leaves at its key: the converted field value when the field is truthy, the previous entry otherwise. |
| `GlobalOptions.Apply` | liveproxy/server.py:62-63 | One guarded write changes only its key. The key gets the converted field value when the field is truthy and is unchanged otherwise. |
| `GlobalOptions.SetOptionIf` | liveproxy/server.py:62-63 | The session's global store becomes the store after the guarded write. |
| `GlobalOptions.OutcomeIdempotent` | liveproxy/server.py:62-63 | Repeating a guarded write with the same namespace changes nothing. |
| `GlobalOptions.OutcomePairIdempotent` | liveproxy/server.py:68-96 | Repeating two writes to one key, in order, changes nothing. |
| `GlobalOptions.HttpSession` | liveproxy/server.py:60-102 | The global store after `setup_http_session`: the fourteen guarded writes in source order (properties in `HttpSessionUntouched`, `HttpSessionWrites`, `HttpSessionIdempotent`). |
| `GlobalOptions.HttpSessionUntouched` | liveproxy/server.py:60-102 | `setup_http_session` leaves every key outside its ten HTTP keys unchanged. |
| `GlobalOptions.HttpSessionWrites` | liveproxy/server.py:60-102 | Each HTTP key holds its write's outcome. Where two fields write one key, a truthy later field wins: `http_cookies` over `dict(http_cookie)` at `http-cookies`, `http_headers` over `dict(http_header)` at `http-headers`, `http_query_params` over `dict(http_query_param)` at `http-query-params`, and `tuple(http_ssl_cert_crt_key)` over `http_ssl_cert` at `http-ssl-cert`. |
| `GlobalOptions.HttpRewriteStable` | liveproxy/server.py:60-102 | A store with the same HTTP outcomes starting from a previous result, and the same other keys, is that result. |
| `GlobalOptions.HttpSessionIdempotent` | liveproxy/server.py:60-102 | Running `setup_http_session` twice with one namespace gives the same store as running it once. |
| `GlobalOptions.StreamOptions` | liveproxy/server.py:105-195 | The global store after `setup_options`: the thirty guarded writes, then the three unconditional ones (properties in `StreamOptionsUntouched`, `StreamOptionsGuardedWrites`, `StreamOptionsUnconditional`, `StreamOptionsIdempotent`). |
| `GlobalOptions.StreamOptionsUntouched` | liveproxy/server.py:105-195 | `setup_options` leaves every key outside its 33 keys unchanged. |
| `GlobalOptions.StreamOptionsWrites1` | liveproxy/server.py:107-114 | `hls-live-edge`, `hls-segment-attempts` and `hls-playlist-reload-attempts` get their field's value when it is truthy and are unchanged otherwise. |
| `GlobalOptions.StreamOptionsWrites2` | liveproxy/server.py:116-123 | The same for `hls-segment-threads`, `hls-segment-timeout` and `hls-segment-ignore-names`. |
| `GlobalOptions.StreamOptionsWrites3` | liveproxy/server.py:125-132 | The same for `hls-timeout`, `hls-audio-select` and `hls-start-offset`. |
| `GlobalOptions.StreamOptionsWrites4` | liveproxy/server.py:134-141 | The same for `hls-duration`, `hls-live-restart` and `hds-live-edge`. |
| `GlobalOptions.StreamOptionsWrites5` | liveproxy/server.py:143-150 | The same for `hds-segment-attempts`, `hds-segment-threads` and `hds-segment-timeout`. |
| `GlobalOptions.StreamOptionsWrites6` | liveproxy/server.py:152-159 | The same for `hds-timeout`, `http-stream-timeout` and `ringbuffer-size`. |
| `GlobalOptions.StreamOptionsWrites7` | liveproxy/server.py:161-168 | The same for `rtmp-proxy`, `rtmp-rtmpdump` and `rtmp-timeout`. |
| `GlobalOptions.StreamOptionsWrites8` | liveproxy/server.py:170-177 | The same for `stream-segment-attempts`, `stream-segment-threads` and `stream-segment-timeout`. |
| `GlobalOptions.StreamOptionsWrites9` | liveproxy/server.py:179-185 | The same for `stream-timeout`, `ffmpeg-ffmpeg` and `ffmpeg-verbose`. |
| `GlobalOptions.StreamOptionsWrites10` | liveproxy/server.py:186-191 | The same for `ffmpeg-verbose-path`, `ffmpeg-video-transcode` and `ffmpeg-audio-transcode`. |
| `GlobalOptions.StreamOptionsUnconditional` | liveproxy/server.py:193-195 | `subprocess-errorlog`, `subprocess-errorlog-path` and `locale` always get their field's value, even when it is falsy or None. |
| `GlobalOptions.StreamOptionsGuardedWrites` | liveproxy/server.py:107-191 | All 30 guarded keys hold their write's outcome. |
| `GlobalOptions.GuardedWritesStable` | liveproxy/server.py:107-191 | Applying the guarded writes to their own result leaves every guarded key as it was. |
| `GlobalOptions.StreamRewriteStable` | liveproxy/server.py:105-195 | A store that agrees with a result on the guarded keys, the unconditional keys and all other keys is that result. |
| `GlobalOptions.StreamOptionsIdempotent` | liveproxy/server.py:105-195 | Running `setup_options` twice with one namespace gives the same store as running it once. |
| `GlobalOptions.SetupHttpSession` | liveproxy/server.py:60-102 | The session's global store becomes the store after the fourteen guarded writes, in source order. |
| `GlobalOptions.SetupOptions` | liveproxy/server.py:105-195 | The session's global store becomes the store after the thirty guarded writes and the three unconditional ones, in source order. |
| `Sessions.Session.SetOption` | liveproxy/server.py:63 | `set_option` sets one key of the global store and changes nothing else. |
| `Sessions.Session.SetPluginOption` | liveproxy/server.py:219 | `set_plugin_option` sets one key of the named plugin's store. A plugin without a store is ignored. |
| `Sessions.Session.PluginOption` | liveproxy/server.py:231 | `get_plugin_option(pname, key)`: the value in the plugin's store, or None when the plugin or the key has none. |
| `PluginSetup.Defaults` | liveproxy/server.py:203-206 | The `defaults` dictionary built for one plugin, one `defaults[parg.dest] = parg.default` per argument in order (properties in `DefaultsKeys`, `DefaultsValues`). |
| `PluginSetup.DefaultsKeys` | liveproxy/server.py:203-206 | The defaults dictionary has a key exactly when some argument has that `dest`. |
| `PluginSetup.DefaultsValues` | liveproxy/server.py:203-206 | At each `dest`, the dictionary holds the default of the last argument with that `dest`. |
| `PluginSetup.SetupPluginArgs` | liveproxy/server.py:198-208 | Every plugin's option store becomes the defaults dictionary of its arguments. Stores of names that are not plugins are unchanged, and no store is dropped. |
| `PluginSetup.Position` | liveproxy/server.py:214-224 | The position of a name among the required entries, or -1 when no entry has that name. |
| `PluginSetup.Insert` | liveproxy/server.py:217-224 | `required[name] = spec` on an ordered dictionary kept as a list of entries (properties in `InsertFacts`). |
| `PluginSetup.InsertFacts` | liveproxy/server.py:217-224 | `required[name] = spec` keeps names unique and adds the name. It replaces an existing entry in place, keeping its position, or appends a new one at the end. Every other entry is unchanged. |
| `PluginSetup.NamesOfInit` | liveproxy/server.py:224 | The names of a list are the names of all but its last entry plus the last entry's name. |
| `PluginSetup.InsertAll` | liveproxy/server.py:223-224 | `required[rparg.name] = rparg` for each spec in turn (properties in `InsertAllFacts`, `InsertAllKeeps`, `InsertAllLastWins`, `InsertAllAppend`). |
| `PluginSetup.InsertAllFacts` | liveproxy/server.py:223-224 | Inserting a sequence of specs keeps names unique. The names become the old names plus the new ones, and the names of the existing entries keep their positions. |
| `PluginSetup.InsertAllKeeps` | liveproxy/server.py:223-224 | Existing entries whose names are not inserted again are unchanged. |
| `PluginSetup.InsertAllLastWins` | liveproxy/server.py:223-224 | The last inserted spec with a given name is in the result. Since names are unique, it is that name's entry. |
| `PluginSetup.InsertAllAppend` | liveproxy/server.py:215-224 | Inserting two sequences one after the other equals inserting their concatenation. |
| `PluginSetup.Step` | liveproxy/server.py:215-228 | One turn of the loop: add the spec when flagged required, copy its namespace value into the plugin's store, and when it is required or truthy add what `requires()` yields or break off on a cycle. |
| `PluginSetup.Run` | liveproxy/server.py:215-228 | The loop: one `Step` per argument in order, no further step after a break (properties in `HandledUpToBreak`, `RunBroken`, `RunStores`, `RunRequired`, `RequiredSet`). |
| `PluginSetup.HandledUpToBreak` | liveproxy/server.py:215-228 | The loop handles arguments up to and including the first one that breaks, and stops there. Some argument breaks exactly when the last handled one does. |
| `PluginSetup.StepRequired` | liveproxy/server.py:216-224 | One turn adds the argument itself if it is flagged required, then what its `requires()` yields when it is required or its value is truthy. |
| `PluginSetup.RunBroken` | liveproxy/server.py:221-228 | The loop ends in the configuration-error state exactly when some argument is required or truthy and its `requires()` hits a cycle. |
| `PluginSetup.RunStores` | liveproxy/server.py:218-219 | The plugin's store ends up holding the namespace value of every handled argument, in order. |
| `PluginSetup.RunRequired` | liveproxy/server.py:214-224 | The required dictionary is exactly the insertion of the handled arguments' contributions, in order. |
| `PluginSetup.CopyValuesUntouched` | liveproxy/server.py:218-219 | Copying values leaves a `dest` that no handled argument writes unchanged. |
| `PluginSetup.BreakSkipsLaterValues` | liveproxy/server.py:225-228 | When an argument is left unhandled, the loop has broken. No value of a later argument is copied: its `dest` keeps its previous value unless a handled argument shares it. |
| `PluginSetup.NamesAppend` | liveproxy/server.py:224 | The names of a concatenation are the union of the names. |
| `PluginSetup.ContributionNames` | liveproxy/server.py:216-224 | The names one argument contributes are the names it collects. |
| `PluginSetup.ContributionsNames` | liveproxy/server.py:216-224 | A name is contributed by a sequence of arguments exactly when some argument collects it. |
| `PluginSetup.RequiredSet` | liveproxy/server.py:214-224 | The required dictionary has unique names. A name is in it exactly when some handled argument collects it: the argument is flagged required and has that name, or it is required or truthy and its `requires()` yields that name. Each name maps to the last spec collected under it. |
| `PluginSetup.MissingReports` | liveproxy/server.py:229-232 | The final loop's reports, one per required entry whose stored value is falsy, in the order of the entries (properties in `MissingReportsFacts`, `MissingReportsOne`, `MissingReportsAppend`). |
| `PluginSetup.MissingReportsOne` | liveproxy/server.py:230-232 | One entry gives one `Missing required` report when its stored value is falsy and none otherwise. |
| `PluginSetup.MissingReportsAppend` | liveproxy/server.py:230-232 | The reports for two lists of entries are the first list's followed by the second's. With `MissingReportsOne`, this gives exactly one report per unset entry, in the order of the entries. |
| `PluginSetup.MissingReportsFacts` | liveproxy/server.py:229-232 | A missing-required report names an entry exactly when that required entry's stored value is falsy. There are never more reports than entries. |
| `PluginSetup.ReportMissing` | liveproxy/server.py:229-232 | The final loop returns the missing-required reports and changes no option. |
| `PluginSetup.InsertEach` | liveproxy/server.py:223-224 | The `for rparg in requires(...)` loop leaves the required dictionary as the insertion of every yielded spec, in order. |
| `PluginSetup.HandleArgument` | liveproxy/server.py:215-228 | One turn of the loop: the plugin store, the required dictionary and the break flag become one step of the specification. |
| `PluginSetup.Log` | liveproxy/server.py:225-232 | The messages of a run: the configuration error when the loop broke off, then the missing-required reports. |
| `PluginSetup.SetupPluginOptions` | liveproxy/server.py:211-232 | The plugin's stores end as the loop specification leaves them. The log is a configuration error if the loop broke, then the missing-required reports (none when the dictionary is empty). |
| `Dispatch.HeaderBlock` | liveproxy/server.py:240-244 | `_headers` sends the given status, then `Server: LiveProxy`, then `Content-type: <content>`, and no other header. |
| `Dispatch.NotFound` | liveproxy/server.py:248 | The `_headers(404, 'text/html')` reply. |
| `Dispatch.DoHead` | liveproxy/server.py:246-248 | Every HEAD request gets the 404 `text/html` header block. |
| `Dispatch.DoGet` | liveproxy/server.py:250-257 | `do_GET`: `main_play` for `/play/`, `main_play` in redirect mode for `/301/`, the 404 reply otherwise (properties in `GetRoutes`). |
| `Dispatch.Handle` | liveproxy/server.py:246-257 | GET requests go to `do_GET` and HEAD requests to `do_HEAD`. |
| `Dispatch.PrefixesExclusive` | liveproxy/server.py:252-254 | No path starts with both `/play/` and `/301/`. |
| `Dispatch.GetRoutes` | liveproxy/server.py:250-257 | A GET is played without redirect exactly when its path starts with `/play/`, and played in redirect mode exactly when it starts with `/301/`. It gets the 404 block exactly when it starts with neither. |
| `Dispatch.RepliesAreNotFound` | liveproxy/server.py:240-257 | Every reply the handler sends itself is a 404 carrying `Server: LiveProxy` and `Content-type: text/html`. |

## Left out

- The real argument parser is not modelled. `ArgParse` keeps what the layering depends on: `@file` expansion, last-wins assignment over the parser defaults, and the list of unknown arguments. Option syntax, actions, types and nargs are not modelled.
- `parser.error` prints usage and exits the process. The model returns a `Failure` carrying the message instead. `gettext` translation is not modelled.
- `os.path.isfile` is membership in the `FileSystem` map. Reading a file only yields the arguments it holds.
- The `CONFIG_FILES` constant is a parameter, `names`.
- `session.resolve_url` is a function parameter. A URL no plugin accepts (`NoPluginError`, swallowed by `ignored`) is `None`. Other exceptions are not modelled.
- `plugin.arguments.requires(name)` is a parameter returning `Requires`. A `RuntimeError` for a cycle keeps the specs yielded before it. A `KeyError` for an unknown name is not modelled.
- `parg.namespace_dest(pname)` is the `nsDest` field of an argument. `parg.argument_name(pname)`, `parser.add_argument_group` and `plugin_args.add_argument` only build the parser, and are not modelled.
- `PluginOptions(defaults)` is modelled as a plain `Store`.
- `log.error` calls are returned as a list of `Message` values. `log.debug` and `HTTPRequest.log_message` are not modelled.
- `main_play` is not part of this model. The handler's outcome only names the mode it is called in.
- `send_response` also writes the standard library's own `Server` and `Date` headers, and `end_headers` flushes the block. Neither is modelled; only the headers the handler sends are.
- HTTP verbs other than GET and HEAD are not modelled; the handler does not define them.
- The `Server`/`ThreadedHTTPServer` classes, their threads and their 5-second timeout are not modelled.
- `Values.AsDict`: only 2-element lists or tuples with a string key count as pairs. The model skips every other element: Python raises on most of them, but accepts pairs with a non-string key and 2-character strings. A value that is not a list, tuple or dictionary becomes an empty dictionary.
- `Values.AsTuple`: a value that is not a list or tuple becomes the empty tuple. Python would give a string's characters or a dictionary's keys, or raise.
- `Values.LowerValue`: a stream element that is not a string is kept as it is, where Python would raise `AttributeError`. Only ASCII letters are lower-cased.
- `ConfigMerge.Normalise`: a truthy `stream` that is not a list or tuple is left unchanged. In Python, the comprehension would iterate over it.
- `ConfigMerge.SetupArgs`: the mutable default `arglist=[]`, which would keep tokens between calls that omit the argument, is not modelled. Every call passes an explicit `ArgList`.
- `PluginSetup.HandleArgument`, `PluginSetup.InsertEach` and `PluginSetup.ReportMissing` are the loop body, the inner `requires()` loop and the final reporting loop of `setup_plugin_options`, split out as methods.
- `PluginSetup.SetupPluginArgs`: the order in which plugins are visited is not modelled, because each plugin's store depends only on its own arguments.
- `ConfigMerge.ConfigFiles`: the `--config` entries are taken through `Values.Strings`, which drops entries that are not strings. Python would keep them, and `'@' + config_file` would then raise `TypeError`.
- `ArgParse.Expand`: a configuration file holds parsed arguments, so an `@file` reference inside a configuration file, which argparse would expand in turn, cannot be expressed.
- `Sessions.Session.SetOption`: Streamlink's `set_option` is not part of this model. Here it replaces one key of a plain store. Streamlink also applies the `http-*` keys to its HTTP session and merges dictionary values for `http-cookies`, `http-headers` and `http-query-params` rather than replacing them. So "the later write wins" for those keys holds for the store as modelled here.
- `Values.Value`: Python floats are real numbers (`FloatV(f: real)`), so NaN, infinities and rounding are not represented. The only thing the server asks of them is their truth value, which this does not affect.
- `ArgParse.Expand`: the error for a missing `@file` carries an abstract message, not the text of the `OSError` that argparse passes to `parser.error`.
