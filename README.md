# hyped-2020 debug server, modelled in Dafny

The debug server sits between a browser GUI and the pod code of the HYPED
2020 pod. It receives JSON commands over TCP, compiles the pod code with
`make`, and runs the `./hyped` binary locally, over SSH or on a BeagleBone
("BBB"). It turns the binary's log output into structured records and
sends them back as newline-framed JSON replies. The model covers the
whole server core:

| module | file | models |
|---|---|---|
| `Js` | js.dfy | JavaScript values as `JSON.parse` yields them, truthiness, `||`, destructuring defaults, property reads that throw on `null`/`undefined`, template-literal conversion, thrown errors and their `stack` |
| `Lines` | lines.dfy | `split('\n')`, `join('\n')` and newline-terminated framing, with the facts the parser and the framing rest on |
| `LogLine` | log_line.dfy | the log-line regular expression of `parse_line` as a leftmost-match search, and the record it yields |
| `Parser` | parser.dfy | the `ExecParser` class: its line queue, `countLines`, `addToQueue`, `parse`, `parseRest` |
| `Registry` | registry.dfy | the socket registries (`List` in `tcp/socket.js`, `Sockets` in `tcp.js`): add, `splice(indexOf(x), 1)` removal, length |
| `Wire` | wire.dfy | the socket wrapper: `write`, `send`, `sendFormatted`, `sendData`, `sendError`, `sendTerminated` |
| `Commands` | commands.dfy | the command handlers `run_bin`, `compile_bin`, `kill_running_bin`, `use_ssh`, `reset` and the closures they register |
| `Interpreter` | interpreter.dfy | `isCommand` and `runCommand`, with the reporting of a rejected handler |
| `Inbound` | inbound.dfy | the wrapper's `handleIncoming` and `interpretMsg` |
| `Local` | local.dfy | the local shell environment (`environments/local.js`) |
| `Ssh` | ssh.dfy | the SSH environment (`environments/ssh.js`) |
| `Device` | bbb.dfy | the older device controller `Bbb.js` |
| `Server` | server.dfy | the TCP server of `tcp/server.js` |
| `LegacyTcp` | legacy_tcp.dfy | the older broadcast server `tcp.js` |

Effects that leave the process are recorded, not performed:
- bytes written to a socket are appended to a `written` or `writes` sequence;
- spawned processes go to `launches`, named by a number the caller supplies;
- signals go to `signalled`;
- destroyed sockets go to `destroyed`.

Outside answers are parameters of the operation that receives them:
- whether a file exists and its modification time;
- the clock;
- a spawn's outcome and SSH connection success;
- what the device object answers.

The newer command handlers call a device API (`runBin`, `compileBin`,
`binLastModified`, `useSSH`, `reset`) that no core file defines. Its
answers are gathered in a `Commands.Device` value, and the handlers are
proved against it.

Each callback a handler registers is a method of a session object
(`Commands.RunSession`, `Commands.CompileSession`, `LegacyTcp.LegacyRun`,
`LegacyTcp.LegacyCompile`). The callbacks fire as method calls in any
order the caller chooses, with one limit: `Commands.RunSession.OnOutput`
requires the session invariant `Valid()`, which the exit handler ends, so
output arriving after the exit is not modelled for the newer server.

Where the code and its test disagree, the model follows the code. The
parser test expects a record field `log_type`. `parse_line` builds
`debug_mode`, and `LogLine.Record` has `debug_mode`.

## Model

| member | source | states |
|---|---|---|
| `Js.Get` | server/src/commands.js:69 | reading a property throws a TypeError exactly on `null`/`undefined`; an object yields the field or `undefined` |
| `Js.Default` | server/src/commands.js:110 | a destructuring default replaces only `undefined`, never another falsy value |
| `Js.RejectionOf` | server/src/tcp/interpreter.js:28-34 | a built-in error carries no `type`; its message is the error's; its stack begins with kind and message |
| `Lines.SplitCount` | server/src/parser.js:15-17 | `split('\n')` gives one more segment than there are newlines, so `countLines` is the newline count plus one |
| `Lines.SplitNoNewline` | server/src/parser.js:19-24 | no segment of a split holds a newline |
| `Lines.JoinSplit` | server/src/parser.js:19-24 | `join('\n')` undoes `split('\n')` |
| `Lines.JoinThenSplit` | server/src/parser.js:19-24 | `split('\n')` undoes `join('\n')` of newline-free parts |
| `Lines.SplitPrefix` | server/src/parser.js:19-24 | a newline-free prefix only extends the first segment |
| `Lines.JoinIsTerminated` | server/src/parser.js:19-24 | joining is the terminated lines followed by the last part |
| `Lines.NothingLost` | server/src/parser.js:19-24 | the text equals its complete lines, each with its newline, followed by the kept tail |
| `Lines.SplitTerminated` | server/src/parser.js:19-24 | splitting terminated newline-free lines followed by a tail gives the lines, then the tail's split |
| `Lines.SplitAppend` | server/src/parser.js:32-34 | appending text to a queue only affects its last segment |
| `Lines.SplitOfNoNewline` | server/src/parser.js:26-30 | a newline-free text splits into itself alone |
| `Lines.ConcatSnoc` | server/src/parser.js:32-34 | a stream's text grows by exactly the chunk appended |
| `Lines.TerminatedAppend` | server/src/tcp/socket.js:30-34 | framing distributes over concatenation |
| `Lines.SplitOfTerminated` | server/src/tcp/socket.js:30-34 | newline-framed lines plus a newline-free tail split back into the lines and the tail |
| `LogLine.Span` | server/src/parser.js:43 | a character-class run is maximal: what follows it is outside the class |
| `LogLine.SpanOf` | server/src/parser.js:43 | a run followed by a character outside the class is measured exactly |
| `LogLine.Message` | server/src/parser.js:43 | the `]: ` separator and message group, with the message free of line terminators |
| `LogLine.MessageOf` | server/src/parser.js:43 | the message group reads back the message written |
| `LogLine.Submodule` | server/src/parser.js:43 | the bracketed submodule group and the message that follows |
| `LogLine.SubmoduleOf` | server/src/parser.js:43 | the submodule and message groups read back what was written |
| `LogLine.Token` | server/src/parser.js:43 | the `mode[submodule]: message` part of the regular expression, with backtracking over `mode` |
| `LogLine.TokenOf` | server/src/parser.js:43 | the token part reads back the mode, submodule and message written |
| `LogLine.MatchPrefix` | server/src/parser.js:43 | a match starting at a position occupies what its groups say |
| `LogLine.MatchPrefixOf` | server/src/parser.js:43 | a well-formed line's groups are recovered from its text, whatever follows |
| `LogLine.MatchAtOccupies` | server/src/parser.js:43 | a match found at a position is the line's text from there |
| `LogLine.OccupiesMatches` | server/src/parser.js:43 | text occupied by groups at a position is matched there |
| `LogLine.MatchesOf` | server/src/parser.js:43 | the candidate match at every position of the line |
| `LogLine.FirstFromLeftmost` | server/src/parser.js:43 | `exec` returns the leftmost match, and none exactly when no position matches |
| `LogLine.DigitsFrom` | server/src/parser.js:47 | the first run of digits of the mode, absent exactly when the mode has none |
| `LogLine.Level` | server/src/parser.js:47 | `debug_level` is the mode's first digit run as a string, or the number 0 when it has no digit |
| `LogLine.ParseLineMeaning` | server/src/parser.js:41-57 | `parse_line` throws a TypeError exactly when no position matches; otherwise the record holds the leftmost match's groups and level |
| `LogLine.ParseFormatted` | server/src/parser.js:41-57 | a well-formed log line parses into the record of its own groups |
| `LogLine.TestLineParses` | server/tests/parser.test.js:21-29 | the test's first log line parses into the expected time, mode, level, submodule and message |
| `LogLine.TokenDbg3` | server/tests/parser.test.js:21-29 | mode `DBG3` gives level `'3'` |
| `LogLine.TokenWithoutDigits` | server/src/parser.js:47 | a mode without digits gives level 0 |
| `LogLine.EmptyLineThrows` | server/src/parser.js:41-57 | the empty line does not match, so `parse_line('')` throws |
| `Parser.Collect` | server/src/parser.js:23 | `map(parse_line)`: all records in order when every line parses, the first error otherwise |
| `Parser.CollectAppend` | server/src/parser.js:23 | collecting two blocks is collecting each, the first error winning |
| `Parser.ParseEach` | server/src/parser.js:23 | one parse per line, in order |
| `Parser.CollectSingle` | server/src/parser.js:29 | a one-line block yields that line's record or its error |
| `Parser.ParseLinesSingle` | server/src/parser.js:29 | parsing a one-line block is parsing its line |
| `Parser.ParseRestOfOneLine` | server/src/parser.js:26-30 | a newline-free queue parses as its one line |
| `Parser.ParseLinesMeaning` | server/src/parser.js:23 | a block parses iff every line does; its records are the lines' records; failure is a TypeError |
| `Parser.ParseLinesAppend` | server/src/parser.js:23 | parsing concatenated blocks is parsing each, the first failure winning |
| `Parser.CutLinesLosesNothing` | server/src/parser.js:19-24 | the complete lines taken and the tail kept reassemble the queue; none holds a newline |
| `Parser.FeedIndependentOfChunks` | server/tests/parser.test.js:119-143 | feeding chunks one by one yields the same lines and tail as feeding their concatenation |
| `Parser.NoNewlineOfCount` | server/src/parser.js:15-17 | a zero newline count means no newline |
| `Parser.ExecParser.constructor` | server/src/parser.js:13 | the queue starts as the empty string |
| `Parser.ExecParser.CountLines` | server/src/parser.js:15-17 | the newline count plus one; an array queue throws `split is not a function` |
| `Parser.ExecParser.AddToQueue` | server/src/parser.js:32-34 | the chunk is appended; an emptied (array) queue reads as `''` |
| `Parser.ExecParser.Parse` | server/src/parser.js:19-24 | the complete lines are parsed, the last segment stays queued |
| `Parser.ExecParser.ParseAsWritten` | server/src/parser.js:19-24 | as written, the unqualified `parse_line` is unbound: the queue is cut, and the call throws a ReferenceError |
| `Parser.ExecParser.ParseRest` | server/src/parser.js:26-30 | every segment is parsed and the queue becomes `[]` |
| `Parser.ExecParser.ParseRestAsWritten` | server/src/parser.js:26-30 | as written, the queue becomes `[]`, and the call throws a ReferenceError |
| `Parser.ParseAsWrittenDropsLines` | server/src/parser.js:19-24 | as written, complete lines leave the queue but no record is returned |
| `Parser.ParseLinesOfFormatted` | server/tests/parser.test.js:108-143 | well-formed log lines parse into their own records, in order |
| `Parser.FormatNoNewline` | server/src/parser.js:43 | a well-formed log line holds no newline |
| `Parser.ParseBlock` | server/tests/parser.test.js:108-117 | a joined block of log lines counts one line each and parses into their records |
| `Registry.IndexOf` | server/src/tcp/socket.js:108-110 | `indexOf`: -1 iff absent, else the first position of the socket |
| `Registry.SpliceStart` | server/src/tcp/socket.js:108-110 | `splice`'s start index, negative counting from the end, clamped into the list |
| `Registry.RemovePresent` | server/src/tcp/socket.js:108-110 | removing a registered socket deletes its first occurrence and keeps the order of the rest |
| `Registry.RemoveAbsent` | server/src/tcp/socket.js:108-110 | removing an unknown socket deletes the LAST socket, since `splice(-1, 1)` counts from the end |
| `Registry.AddThenRemove` | server/src/tcp.js:22-38 | a socket added and then removed leaves the registry as before |
| `Registry.RemoveKeepsOthers` | server/src/tcp/socket.js:108-110 | removing one registered socket keeps every other registered one |
| `Registry.List.constructor` | server/src/tcp/socket.js:95-102 | the registry starts empty |
| `Registry.List.Add` | server/src/tcp/socket.js:104-106 | the socket is appended and the length grows by one |
| `Registry.List.Remove` | server/src/tcp/socket.js:108-110 | the registry becomes `Removed` of the old one |
| `Wire.ErrorReplyOf` | server/src/tcp/socket.js:48-60 | the `error` reply; a `stackTrace` field is present iff the stack is truthy |
| `Wire.TerminatedOf` | server/src/tcp/socket.js:62-69 | the `terminated` reply with defaults `false` and `''` for missing values |
| `Wire.Frames` | server/src/tcp/socket.js:30-34 | each reply's text followed by one newline |
| `Wire.Framing` | server/src/tcp/socket.js:30-34 | a client splitting the stream at newlines gets back every newline-free reply in order |
| `Wire.FramesConcat` | server/src/tcp/socket.js:30-34 | the concatenated frames are the replies newline-terminated |
| `Wire.Encoded` | server/src/tcp/socket.js:36-39 | each reply encoded by the wrapper's encoder |
| `Wire.FramedAppend` | server/src/tcp/socket.js:36-39 | the frames of two reply sequences are the frames of each, in order |
| `Wire.Wrapper.constructor` | server/src/tcp/socket.js:16-19 | a live wrapper that has written nothing, over the given device handle |
| `Wire.Wrapper.Write` | server/src/tcp/socket.js:22-28 | the data is written unless the socket throws |
| `Wire.Wrapper.Send` | server/src/tcp/socket.js:30-34 | one newline-terminated frame, unless the socket is destroyed or throws |
| `Wire.Wrapper.SendFormatted` | server/src/tcp/socket.js:36-39 | the reply's encoding as one frame |
| `Wire.Wrapper.SendData` | server/src/tcp/socket.js:41-46 | one `console_data` frame with the records |
| `Wire.Wrapper.SendError` | server/src/tcp/socket.js:48-60 | one `error` frame |
| `Wire.Wrapper.SendTerminated` | server/src/tcp/socket.js:62-69 | one `terminated` frame |
| `Commands.CommandOf` | server/src/commands.js:121-127 | a name denotes a command iff it is one of the five exported names |
| `Commands.NamesRoundTrip` | server/src/commands.js:121-127 | command names and commands correspond one to one |
| `Commands.RunBinStart` | server/src/commands.js:17-31 | busy means ignored; a missing binary or a failed existence check means refused; otherwise started with the `||` defaults |
| `Commands.RunBinDefaults` | server/src/commands.js:57-60 | without flags or level, the binary runs with no flags at level 3 |
| `Commands.RunBinLevelZero` | server/src/commands.js:60 | level 0 is falsy, so it becomes 3 |
| `Commands.RunSession.constructor` | server/src/commands.js:30-31 | a fresh parser with an empty queue, nothing received or sent |
| `Commands.RunSession.OnOutput` | server/src/commands.js:33-42 | complete lines are parsed and sent as one `console_data`; a bad line throws and nothing is sent |
| `Commands.RunSession.OnExit` | server/src/commands.js:44-50 | an empty queue sends nothing; otherwise the records `parseRest` makes of the queue (its one line's, by `Parser.ParseRestOfOneLine`) as one `console_data`, then `terminated('run_bin', true)`; a bad line throws and sends nothing; a second exit finds the queue `[]` and throws |
| `Commands.OutputKeepsEverything` | server/src/commands.js:33-42 | every byte received is either in a line handed to the parser or still queued |
| `Commands.SessionIsChunkIndependent` | server/tests/parser.test.js:119-143 | the lines handed on depend on the output's text, not on how it was chunked |
| `Commands.CompileVerdict` | server/src/commands.js:83-93 | success iff the binary exists and was modified at most one second ago |
| `Commands.CompileVerdictAsWritten` | server/src/commands.js:86 | as written, the existence check is a promise, always truthy, so only the modification time decides |
| `Commands.CompileVerdictMissingBinary` | server/src/commands.js:86-88 | as written, a missing binary whose modification-time lookup rejects makes the exit handler reject; as intended it reports failure |
| `Commands.CompileVerdictMissingBinaryLocal` | server/src/commands.js:86-88 | a lookup answering `null` (read as 0 by `-`) gives failure both as written and as intended |
| `Commands.CompileVerdictsAgree` | server/src/commands.js:86-88 | the two agree whenever the binary exists |
| `Commands.CompileSession.constructor` | server/src/commands.js:77 | no errors collected yet |
| `Commands.CompileSession.OnStderr` | server/src/commands.js:95-98 | each stderr chunk is appended to the collected errors |
| `Commands.CompileSession.OnExit` | server/src/commands.js:83-93 | one `terminated('compile_bin', success, errors)` with the verdict, or the rejection |
| `Commands.CompileSession.OnExitAsWritten` | server/src/commands.js:83-93 | the same, with the verdict as written |
| `Commands.CompileBinStart` | server/src/commands.js:68-75 | reading `make_params` throws on a null payload before the busy check; busy means nothing starts |
| `Commands.SshRequestOf` | server/src/commands.js:110 | destructuring throws on a null payload; otherwise host, username, password, dir |
| `Commands.SshDefaults` | server/src/commands.js:110 | a missing password or dir becomes `''`, present ones are kept |
| `Commands.SshKeepsNullPassword` | server/src/commands.js:110 | a `null` password is kept, since defaults apply only to `undefined` |
| `Commands.HandlerEffect` | server/src/commands.js:17-119 | what each handler does against the device's answers: ignored iff busy, refused, started, killed, answered or reset |
| `Interpreter.IsCommand` | server/src/tcp/interpreter.js:16-22 | true iff the message is, strictly, one of the command names |
| `Interpreter.Replies` | server/src/tcp/interpreter.js:28-35 | the replies a handler sends at once: one `server_error` for a rejection, `ssh_connection`, `reset_complete`, or none |
| `Interpreter.BuiltinErrorReply` | server/src/tcp/interpreter.js:29-34 | a built-in error is reported with its bare message and its stack |
| `Interpreter.TypedErrorReply` | server/src/tcp/interpreter.js:29 | an error with a `type` is reported as `type: message` |
| `Interpreter.MissingBinaryIsReported` | server/src/commands.js:24-28 | `run_bin` without the binary sends exactly one `server_error` with the `ERR_INVALID_FILE_URL_PATH` message |
| `Interpreter.RejectionReportedOnce` | server/src/tcp/interpreter.js:28-35 | every rejected handler is reported by exactly one `server_error` reply |
| `Interpreter.RunCommand` | server/src/tcp/interpreter.js:24-36 | an unknown command throws; otherwise the handler's replies are written, `reset` rebinds the handle, started processes get a session |
| `Inbound.InterpretMsg` | server/src/tcp/socket.js:82-92 | an unknown message writes the notice; a command runs with the whole message as payload |
| `Inbound.HandleIncoming` | server/src/tcp/socket.js:71-80 | text that is not JSON writes the notice; `null` JSON throws reading `msg`; else the message is interpreted |
| `Local.LaunchOf` | server/src/environments/local.js:31-44 | options destructuring throws on null; params default to `[]`, cwd to `DEFAULT_PATH`; `spawn` throws for params that are not a list, missing or an object, and for a cwd that is not a string or null; a list's elements are the arguments |
| `Local.LocalShell.constructor` | server/src/environments/local.js:19-21 | no child process, so not busy |
| `Local.LocalShell.IsBusy` | server/src/environments/local.js:23-25 | busy iff a child process handle is held |
| `Local.LocalShell.ExecCommand` | server/src/environments/local.js:31-54 | the spawn is recorded and its handle kept, with no busy guard; a destructuring or spawn error leaves everything as it was |
| `Local.LocalShell.OnExit` | server/src/environments/local.js:50-53 | the handle is cleared, even when it belongs to a later process |
| `Local.LocalShell.Kill` | server/src/environments/local.js:57-60 | SIGINT to the child and the handle cleared; without a child it throws |
| `Local.DoesFileExist` | server/src/environments/local.js:62-67 | `null` is refused; true iff the path names an existing file |
| `Local.GetFileLastModified` | server/src/environments/local.js:69-72 | `null` for a missing file, the modification time of an existing one |
| `Local.LastModifiedAfterWrite` | server/src/environments/local.js:62-72 | a file just written exists and reports the time it was written with |
| `Ssh.RemoteCommand` | server/src/environments/ssh.js:70-72 | `cd <cwd> && <cmd>`, falling back to `DEFAULT_DIR` when cwd is falsy |
| `Ssh.RemoteCommandEndsWithCmd` | server/src/environments/ssh.js:70-72 | the remote line always ends with the command itself |
| `Ssh.SshConnection.constructor` | server/src/environments/ssh.js:17-22 | not connected, not busy, no stream |
| `Ssh.SshConnection.Connect` | server/src/environments/ssh.js:24-38 | already connected resolves true; otherwise connected iff the connection succeeds |
| `Ssh.SshConnection.Disconnect` | server/src/environments/ssh.js:40-44 | the connection ends |
| `Ssh.SshConnection.ExecCommand` | server/src/environments/ssh.js:59-88 | destructuring throws first, then `SSH_NOT_CONNECTED`, then the spawn's error; a spawned stream makes the connection busy |
| `Ssh.SshConnection.OnExit` | server/src/environments/ssh.js:81-85 | busy is cleared |
| `Ssh.SshConnection.Kill` | server/src/environments/ssh.js:91-95 | not connected throws; no stream throws; otherwise SIGINT, with busy left set |
| `Ssh.SshConnection.DoesFileExist` | server/src/environments/ssh.js:97-109 | not connected throws; a failed stat means missing |
| `Ssh.SshConnection.FileQueriesAgree` | server/src/environments/ssh.js:97-117 | the modification time is known exactly for the files that exist |
| `Device.RunParams` | server/src/Bbb.js:62 | `concat` appends the debug flag to an array, to a string as text, and throws otherwise |
| `Device.RunParamsKeepFlags` | server/src/Bbb.js:62 | the flags are passed unchanged and in order, followed by one debug flag |
| `Device.RunArgs` | server/src/Bbb.js:62-64 | only a list of flags reaches the binary, as the flags then one debug flag; a string fails at `spawn`, anything else at `concat`, both with a TypeError |
| `Device.ExitCallbacks` | server/src/Bbb.js:42-47 | the exit callback always fires; the error callback also fires iff the code is not 0, `null` included |
| `Device.Bbb.constructor` | server/src/Bbb.js:18-21 | not running, not compiling, `_connected` undefined |
| `Device.Bbb.IsBusy` | server/src/Bbb.js:92-94 | busy iff running or compiling, which no method sets |
| `Device.Bbb.IsRunning` | server/src/Bbb.js:88-90 | never running, since nothing sets the flag |
| `Device.Bbb.DoesCompiledBinExist` | server/src/Bbb.js:84-86 | true iff `hyped-pod_code/hyped` exists at the repository root (`HYPED_PATH` is `../../hyped-pod_code` from `server/src`) |
| `Device.Bbb.Compile` | server/src/Bbb.js:32-48 | `make` is spawned in the pod code with a list's elements as arguments, and no handle is kept; parameters `spawn` refuses throw a TypeError and nothing starts |
| `Device.Bbb.RunAsWritten` | server/src/Bbb.js:59-60 | as written, reading `self` throws a ReferenceError before anything runs |
| `Device.Bbb.Run` | server/src/Bbb.js:59-77 | false without the binary; otherwise, for a list of flags, the binary runs with the flags then one debug flag, the device is connected and the handle kept; any other flags throw a TypeError (at `concat`, or at `spawn` for a string) and nothing changes |
| `Device.Bbb.OnExit` | server/src/Bbb.js:68-73 | no longer connected, and the callbacks of `ExitCallbacks` fire |
| `Device.Bbb.Kill` | server/src/Bbb.js:80-82 | SIGINT to the last run binary; before any run it throws |
| `Server.Tcp.constructor` | server/src/tcp/server.js:19-24 | closed, no sockets, nothing destroyed |
| `Server.Tcp.Open` | server/src/tcp/server.js:26-37 | refused once open; otherwise listening on the port |
| `Server.Tcp.Close` | server/src/tcp/server.js:39-52 | throws before `open`; kills the process only when busy; then destroys every registered socket in order |
| `Server.Tcp.OnServerClosedAsWritten` | server/src/tcp/server.js:48-51 | as written, the callback's `this` is the `net.Server`, so the instance stays open |
| `Server.Tcp.OnServerClosed` | server/src/tcp/server.js:48-51 | as intended, the instance is closed |
| `Server.Tcp.OnClientConnected` | server/src/tcp/server.js:54-62 | the socket is registered and gets a fresh wrapper over the server's device handle |
| `Server.Tcp.OnClientClose` | server/src/tcp/server.js:63-66 | the socket is removed from the registry |
| `Server.Tcp.OnClientError` | server/src/tcp/server.js:67-70 | the socket is removed from the registry |
| `Server.ReopenAsWritten` | server/src/tcp/server.js:26-52 | as written, open, close, open: the second open is refused |
| `Server.Reopen` | server/src/tcp/server.js:26-52 | as intended, the server opens again after closing |
| `Server.ConnectThenClose` | server/src/tcp/server.js:54-66 | a connection that closes leaves the registry as it was |
| `LegacyTcp.RequestOf` | server/src/tcp.js:125-146 | a `switch` on the message with `||` defaults; other messages do nothing; null data throws |
| `LegacyTcp.HandleDataMeaning` | server/src/tcp.js:148-156 | text that is not JSON is dropped; `null` JSON throws reading `msg`; else the message is dispatched |
| `LegacyTcp.RunBinDefaults` | server/src/tcp.js:125-133 | a falsy level, 0 included, becomes 3, and missing flags become `[]` |
| `LegacyTcp.Broadcasts` | server/src/tcp.js:167-171 | one write per registered socket, in registry order |
| `LegacyTcp.Hub.constructor` | server/src/tcp.js:22-38 | nothing written |
| `LegacyTcp.Hub.Broadcast` | server/src/tcp.js:167-171 | the newline-terminated data goes to every registered socket in order |
| `LegacyTcp.Hub.BroadcastError` | server/src/tcp.js:174-181 | one `error` message to everyone |
| `LegacyTcp.Hub.BroadcastData` | server/src/tcp.js:183-190 | one `console_data` message to everyone |
| `LegacyTcp.Hub.BroadcastCompleted` | server/src/tcp.js:192-199 | one `completed` message to everyone |
| `LegacyTcp.Hub.RunBin` | server/src/tcp.js:41-85 | busy does nothing; a missing binary is reported to everyone; otherwise a session starts and, for a list of flags, the device runs `./hyped` with the flags then one debug flag and answers `undefined`; other flags throw a TypeError and nothing runs |
| `LegacyTcp.Hub.CompileBin` | server/src/tcp.js:87-112 | busy does nothing; otherwise a session is set up and `make` starts with a list's elements as arguments; parameters `spawn` refuses throw a TypeError and nothing starts |
| `LegacyTcp.LegacyRun.constructor` | server/src/tcp.js:53-54 | a fresh parser with an empty queue |
| `LegacyTcp.LegacyRun.OnOutput` | server/src/tcp.js:56-65 | complete lines are parsed and broadcast once the count exceeds one; the chunk is queued first, so output after exit turns the `[]` back into text |
| `LegacyTcp.LegacyRun.OnExit` | server/src/tcp.js:67-71 | no empty-queue check: the rest is parsed, and the records and `completed` are broadcast |
| `LegacyTcp.LegacyRun.OnError` | server/src/tcp.js:73-75 | reads the unbound `err`, so every call throws a ReferenceError |
| `LegacyTcp.LegacyCompile.constructor` | server/src/tcp.js:87-99 | bound to the hub |
| `LegacyTcp.LegacyCompile.OnError` | server/src/tcp.js:106-108 | the compiler's error output goes to everyone |
| `LegacyTcp.LegacyCompile.OnExit` | server/src/tcp.js:100-104 | reads the unbound `parseQueue`, so every call throws a ReferenceError |
| `LegacyTcp.EmptyExitThrows` | server/src/tcp.js:67-71 | an exit with an empty queue parses `''` and throws |

## Left out

- `server/src/Logger.js`: logging to files and the console only. The core requires `./logger`, and on a case-sensitive file system that name does not resolve to `Logger.js`.
- `server/index.js` and process start-up are left out: they only wire the modules together.
- `utils.isJsonParsable` and `JSON.parse`: received text is given as already parsed, with `None` for text that is not JSON.
- `JSON.stringify`: the byte-exact encoding of replies is an encoder given as a parameter. Wrapper and server contracts require only that the encoder never emits a newline, which `JSON.stringify` guarantees.
- Promises and the event loop: each callback is an atomic method call. Interleavings within one `await` are not modelled.
- `Commands.HandlerEffect`: an `await` of the device is the settled answer given in `Commands.Device`. A synchronous throw from `runBin` or `compileBin` is not modelled.
- Numbers are integers: fractions, `NaN` and infinities are not modelled. A compile's age is compared in milliseconds.
- Stack traces are cut to their first line, `Kind: message`. The frames that follow are not modelled.
- `spawn`, `ssh2` and `net` are recorded calls. Their outcomes (a spawn's stream, a connection's success, a stat) are inputs.
- `Server.Tcp.constructor`: the constructor calls `Bbb.hasInstance`, which `server/src/Bbb.js` does not define. The device handle is given to the constructor instead.
- `Commands.HandlerEffect`: the newer device API (`runBin`, `compileBin`, `binLastModified`, `useSSH`, `reset`) is not part of this model. Its answers are the fields of `Commands.Device`.
- `CompileParser` in `server/src/parser.js` is left out: it is declared and never used.
- `Wire.Wrapper.Send`: a write exception is a flag (`throwing`), not the error's details. A socket destroyed by `Server.Tcp.Close` is recorded in `destroyed` and is not linked to a wrapper's `destroyed` flag.
- `LegacyTcp.Hub`: the legacy `kill_run` only forwards to the device's `kill`, which is `Device.Bbb.Kill`. Socket write exceptions inside `broadcast` are not modelled.
- `LegacyTcp.LegacyRun.OnError` and `LegacyTcp.LegacyCompile.OnExit` model the code as written: both read a name that is bound nowhere. No corrected version is modelled, because nothing shows what they were meant to send.
- `Commands.RunBinStart`: `.catch(raiseErr)` passes the rejection through unchanged, because `raiseErr` is not exported by `server/src/utils.js`.
- `LogLine.Level`: the test in `server/tests/parser.test.js` names the mode field `log_type`. The model follows `parse_line`, which builds `debug_mode`.
- `Commands.RunSession.OnOutput`: requires `Valid()`, whose queue is text; after the exit handler the queue is `[]`, and output arriving then (which `addToQueue` would turn back into text) is not modelled for the newer server.
- `Local.DefaultPath` and `Device.HypedPath`: `path.join(__dirname, '../../hyped-pod_code')` is written as a path relative to the repository root. From `server/src/environments` that is `server/hyped-pod_code`; from `server/src` it is `hyped-pod_code`.
- `Commands.RunSession.OnOutput`, `Commands.RunSession.OnExit`, `LegacyTcp.LegacyRun.OnOutput`, `LegacyTcp.LegacyRun.OnExit` and `LegacyTcp.Hub.RunBin` compose the corrected `Parser.ExecParser.Parse`, `Parser.ExecParser.ParseRest` and `Device.Bbb.Run`. As written, every output chunk holding a newline and every exit with a non-empty queue throw a ReferenceError (`server/src/parser.js:23,29`), and legacy `run_bin` throws at `self` (`server/src/Bbb.js:60`) before anything runs; the as-written members model that.
- `Device.Bbb.Compile`, `Device.Bbb.Run`, `Local.LaunchOf`: an object given to `spawn` as its argument list is taken as the options instead. The model records an empty argument list and keeps the options the code passes; a `cwd` given as a `URL` or `Buffer` is not modelled.
- `Ssh.SshConnection.GetFileLastModified` only passes the settled stat's time through. Its partner is `Ssh.SshConnection.FileQueriesAgree`.

## Findings

| source | as written | input that shows it | evidently intended | confidence | as-written member | corrected member |
|---|---|---|---|---|---|---|
| server/src/parser.js:23 | `parse_line` is a method of the class but is referenced unqualified, so the name is unbound | any queue holding a newline, e.g. a chunk `"a\nb"` | each complete line is parsed by the module's `parse_line` | not executed | `Parser.ExecParser.ParseAsWritten`, `Parser.ParseAsWrittenDropsLines` | `Parser.ExecParser.Parse` |
| server/src/parser.js:29 | the same unqualified call in `parseRest` | any queue at exit, e.g. `"a"` | the remaining segments are parsed | not executed | `Parser.ExecParser.ParseRestAsWritten` | `Parser.ExecParser.ParseRest` |
| server/src/commands.js:86 | `bbb.doesCompiledBinExist()` is not awaited, so the promise is always truthy | a compile that produced no binary, on a device whose `binLastModified` rejects for a missing file (as an SSH stat does) | a missing binary reports `success: false` | not executed | `Commands.CompileVerdictMissingBinary` | `Commands.CompileSession.OnExit` |
| server/src/Bbb.js:60 | `self.doesCompiledBinExist()` reads `self`, which is bound nowhere in Node | any `run(...)` call | `this.doesCompiledBinExist()` | not executed | `Device.Bbb.RunAsWritten` | `Device.Bbb.Run` |
| server/src/tcp/server.js:48-51 | the close callback is a plain function, so `this.isOpen = false` sets a flag on the `net.Server` | `open`, `close`, `open` | the second `open` succeeds | not executed | `Server.ReopenAsWritten` | `Server.Reopen` |
