# Kibana process launcher and plugin removal, modelled in Dafny

This project models two parts of the Windows installer for Kibana.

**`KibanaProcess`** (`kibana_process.dfy`) is the launcher for the Kibana child process. It covers:

- how the home and config directories are resolved: the explicit value, then the machine-level environment variable, then a default, with trailing backslashes trimmed;
- how the caller's arguments are filtered (`ParseArguments`);
- how the launch arguments are composed (`GetArguments`);
- how the launcher detects that Kibana has started. When Kibana logs to a file rather than to `stdout`, the launcher watches that file. It starts at the file's length when `Start` runs. On each change notification it feeds the lines between the stored offset and the end of the file to `HandleMessage`. `HandleMessage` is a one-shot state machine: the first started confirmation records the host and port, stops the watcher and fires the started signal.

The class `KibanaProcess.KibanaProcess` holds the fields the source updates in place. The pure functions `Step` and `Run` give the readiness state machine, and `Unread`, `PositionAfterRead` and `TailedText` give log tailing. The lemmas beside these functions state the one-shot behaviour and the tailing guarantees.

**`RemovePluginsTask`** (`remove_plugins_task.dfy`) is the installer task that removes every installed plugin and reports progress. Each plugin is weighted 20 + 1930 + 50 ticks. The calls the task makes on the installer session and the plugin provider are recorded, in order, as a trace of `Event`s. `ExecuteTask` is proved against the specification function `RemovalEvents`. The lemmas prove the accounting: the announced total equals the ticks spent, each plugin is removed exactly once and in order, and every block of three calls has a fixed shape.

`paths.dfy` models the two .NET helpers both files use: `Path.Combine` and `TrimEnd('\\')`. `wrappers.dfy` holds `Option`, which stands for C#'s null and `int?`.

## Behaviour worth noting

- **Config flag.** In `ParseArguments` the "next argument is the config path" flag is set and cleared for the same token. So the flag token itself (`"--config"` or `"-c"`) becomes `ConfigDirectory`, and the token after it passes through unchanged (`FlagKeepsNextToken`).
- **Unterminated lines.** After a change notification the log offset moves to the end of what was read, including an unterminated final line.
- **Drive-root home.** When the working directory's parent is a drive root such as `C:\`, trimming leaves the home directory as `C:`. The default config directory is then the drive-relative `C:config`, and the script path is `C:src\cli` (`DriveRootHome`).
- **Ignored `Remove` result.** The plugin task ignores what `Remove` returns and always reports success.

## Model

| member | source | states |
|---|---|---|
| `Paths.Combine` | src/Elastic.Installer.Domain/Kibana/Process/KibanaProcess.cs:39-41 | An empty second path gives the first, an empty first path gives the second, and a rooted second path wins. Otherwise the parts are joined by exactly one backslash, or by none when the first path already ends with `\`, `/` or `:`. |
| `Paths.RootedPaths` | src/Elastic.Installer.Domain/Kibana/Process/KibanaProcess.cs:37-41 | `IsPathRooted` matches `Path.IsPathRooted`: a leading `\` or `/` or a drive colon roots a path. The relative parts the launcher combines (`config`, `kibana.yml`, `src\cli`, `node\node.exe`) are not rooted. |
| `Paths.TrimEndBackslashes` | src/Elastic.Installer.Domain/Kibana/Process/KibanaProcess.cs:33 | The result is a prefix of the input that does not end with a backslash, and only backslashes follow it in the input. This characterisation is unique (`TrimmedFromUnique`). |
| `KibanaProcess.ResolveHomeDirectory` | src/Elastic.Installer.Domain/Kibana/Process/KibanaProcess.cs:31-33 | The home directory is the explicit value if present, else the environment value, else the parent of the working directory, in each case with all trailing backslashes trimmed. |
| `KibanaProcess.ResolveConfigDirectory` | src/Elastic.Installer.Domain/Kibana/Process/KibanaProcess.cs:35-37 | The config directory is the explicit value, else the environment value, else `Combine(home, "config")`, trimmed the same way. |
| `KibanaProcess.DefaultConfigDirectoryUnderHome` | src/Elastic.Installer.Domain/Kibana/Process/KibanaProcess.cs:37 | With no explicit or environment value, the config directory equals `Combine(home, "config")`, untouched by trimming, and the home directory is a prefix of it. It is `home + "\config"` when home is non-empty and does not end with `\`, `/` or `:`. |
| `KibanaProcess.DriveRootHome` | src/Elastic.Installer.Domain/Kibana/Process/KibanaProcess.cs:31-39 | A parent directory `C:\` trims to the home `C:`. The default config directory is then the drive-relative `C:config`, and the script path is `C:src\cli`. |
| `KibanaProcess.KibanaProcess.constructor` | src/Elastic.Installer.Domain/Kibana/Process/KibanaProcess.cs:29-45 | Sets both directories by those resolutions, so neither ends with a backslash. Sets `JsPath`, `ConfigFile` and `ProcessExe` by `Combine`, and sets `LogFile` to the configured logging destination. The process starts not started, with no watcher and no signal fired. |
| `KibanaProcess.KibanaProcess.GetArguments` | src/Elastic.Installer.Domain/Kibana/Process/KibanaProcess.cs:47-58 | The launch arguments are `AdditionalArguments` as a prefix, followed by exactly three entries: `--no-warnings`, the quoted `JsPath`, and `--config` with the quoted `ConfigFile`. |
| `KibanaProcess.KibanaProcess.ParseArguments` | src/Elastic.Installer.Domain/Kibana/Process/KibanaProcess.cs:60-80 | A null input gives an empty list and leaves `ConfigDirectory` unchanged. Otherwise the result is `PassThrough(args)`, and `ConfigDirectory` becomes the last flag token, or is left unchanged when there is no flag. |
| `KibanaProcess.PassThroughCounts` | src/Elastic.Installer.Domain/Kibana/Process/KibanaProcess.cs:68-76 | Every `--config` and `-c` token is removed. Every other token is kept exactly as many times as it occurs. |
| `KibanaProcess.PassThroughAppend` | src/Elastic.Installer.Domain/Kibana/Process/KibanaProcess.cs:66-77 | Filtering distributes over concatenation, so kept tokens stay in their original relative order. |
| `KibanaProcess.LastConfigFlagAppend` | src/Elastic.Installer.Domain/Kibana/Process/KibanaProcess.cs:66-74 | The config directory set by a concatenation comes from the later part whenever that part has a flag. |
| `KibanaProcess.LastConfigFlagSpec` | src/Elastic.Installer.Domain/Kibana/Process/KibanaProcess.cs:68-74 | `ConfigDirectory` is overwritten exactly when a flag occurs. The value stored is then the flag token itself, the one at the last flag position. |
| `KibanaProcess.FlagKeepsNextToken` | src/Elastic.Installer.Domain/Kibana/Process/KibanaProcess.cs:65-77 | The token following a flag is passed through, not consumed. If no later flag occurs, the flag itself becomes the config directory. |
| `KibanaProcess.KibanaProcess.Start` | src/Elastic.Installer.Domain/Kibana/Process/KibanaProcess.cs:82-119 | A watcher is created and started only when `LogFile != "stdout"`. Its offset is the file's length if the file exists, else 0. With `stdout`, nothing changes. |
| `KibanaProcess.PositionAfterRead` | src/Elastic.Installer.Domain/Kibana/Process/KibanaProcess.cs:108-114 | After seeking to the offset and reading to the end, the position is never before the offset or the file's end, and it is one of them. |
| `KibanaProcess.KibanaProcess.OnChanged` | src/Elastic.Installer.Domain/Kibana/Process/KibanaProcess.cs:101-116 | While watching and not started, the lines from the stored offset to the end reach `HandleMessage` in file order, and the offset moves to the end position. The read range is appended to the contiguous record of reads. Otherwise nothing changes. The offset never decreases. When nothing is left to read, the readiness state is unchanged. |
| `KibanaProcess.ContiguousRanges` | src/Elastic.Installer.Domain/Kibana/Process/KibanaProcess.cs:88-114 | The ranges read since `Start` all lie at or after the initial offset and never overlap. Content present before `Start` is never read, and no byte is read twice. |
| `KibanaProcess.TailedTextIsAppendedContent` | src/Elastic.Installer.Domain/Kibana/Process/KibanaProcess.cs:88-114 | For a log file that only grows, the successive notifications together read exactly the text appended after the starting offset. |
| `KibanaProcess.KibanaProcess.HandleMessage` | src/Elastic.Installer.Domain/Kibana/Process/KibanaProcess.cs:124-140 | The new readiness state is `Step` of the old one. Blank messages and anything after the start change nothing. The first confirmation records the host and port, stops the watcher, sets `Started` and fires the signal. The signal count stays 1 exactly when started, and 0 otherwise. |
| `KibanaProcess.BlankMessages` | src/Elastic.Installer.Domain/Kibana/Process/KibanaProcess.cs:127 | `IsNullOrWhiteSpace` matches `string.IsNullOrWhiteSpace`. Null, empty and all-white-space messages (including Unicode separators) are blank, and a message with any other character is not. |
| `KibanaProcess.BlankMessageIgnored` | src/Elastic.Installer.Domain/Kibana/Process/KibanaProcess.cs:127 | A blank message leaves the readiness state unchanged, even if the parser would report it as a confirmation. |
| `KibanaProcess.RunSnoc` | src/Elastic.Installer.Domain/Kibana/Process/KibanaProcess.cs:111-112 | Handling lines one at a time, in order, is the same as the run over the whole sequence. |
| `KibanaProcess.RunAfterStarted` | src/Elastic.Installer.Domain/Kibana/Process/KibanaProcess.cs:127 | Once started, no sequence of messages changes the host, the port, the watcher or the signal count, including later confirmations. |
| `KibanaProcess.RunOneShot` | src/Elastic.Installer.Domain/Kibana/Process/KibanaProcess.cs:124-139 | From a not-started state, a run ends started exactly when some non-blank message confirms the start. The recorded host and port are those of the first confirmation, and the signal fires exactly once. Otherwise the state is unchanged. |
| `RemovePluginsTask.ExecuteTask` | src/Elastic.Installer.Domain/Kibana/Model/Tasks/RemovePluginsTask.cs:16-43 | The task always returns true, whatever `Remove` returns. With zero plugins it only logs. Otherwise it first announces `count * 2000` ticks once, then makes the per-plugin calls `RemovalEvents`, with the config file `Combine(configDirectory, "kibana.yml")`. |
| `RemovePluginsTask.OnePlugin` | src/Elastic.Installer.Domain/Kibana/Model/Tasks/RemovePluginsTask.cs:31-40 | One plugin's three calls account for 20 + 1930 + 50 = 2000 ticks and remove that plugin alone. |
| `RemovePluginsTask.RemovalWeightIsAnnouncedTotal` | src/Elastic.Installer.Domain/Kibana/Model/Tasks/RemovePluginsTask.cs:31-41 | The progress ticks plus the `Remove` weights of the loop equal the announced total, `count * Sum(TicksPerPlugin)` = `count * 2000`. |
| `RemovePluginsTask.EachPluginRemovedOnce` | src/Elastic.Installer.Domain/Kibana/Model/Tasks/RemovePluginsTask.cs:36-41 | The plugins passed to `Remove`, in call order, are exactly the installed plugins in enumeration order: each is removed once. |
| `RemovePluginsTask.PluginBlock` | src/Elastic.Installer.Domain/Kibana/Model/Tasks/RemovePluginsTask.cs:36-41 | The loop makes `3 * count` calls. Block k is, in order, progress(20, "removing p"), `Remove(1930, …, p, "--config", configFile)` and progress(50, "removed p"), for the k-th plugin p. |
| `RemovePluginsTask.RemovalEventKinds` | src/Elastic.Installer.Domain/Kibana/Model/Tasks/RemovePluginsTask.cs:35-41 | After the announcement, the loop makes only progress and `Remove` calls: no second announcement and no log line. Every `Remove` gets weight 1930, the install and config directories, and `--config <configFile>`. |

## Left out

- **Process spawning and the base class.** The base class that spawns the process and launches it in `Start`, owns the `Started` property and disposes resources is not part of this model. It also decides where `AdditionalArguments` and the pre-set home and config directories come from, including when `ParseArguments` runs. These are constructor parameters here.
- **Configuration file.** Reading kibana.yml (`KibanaYamlConfiguration.FromFolder`) is not part of this model. The logging destination is a constructor parameter, and a missing, unreadable or null setting is not modelled.
- **Log-line parsing.** How `KibanaMessage` parses a line and recognises the started confirmation is not part of this model. It is the function `parse`, fixed at construction.
- **Line splitting.** The reader's line splitting is the function `splitLines`. The model requires only that empty text gives no lines. It does not require each line to be a piece of the text it was split from, so it admits more line sequences than `ReadLine` produces. It makes no claim about how an unterminated final line is treated.
- **Environment and working directory.** Environment-variable lookups and `Directory.GetParent(".")` are inputs. The variables' names are not part of this model.
- **File-system watcher.** The watcher is reduced to two booleans: created, and raising events. Its path, filter and notify-filter configuration are left out because they are I/O setup.
- **Concurrency.** The model delivers notifications one at a time. It leaves out overlapping notifications, the race between reading `seekTo` and `Interlocked.CompareExchange`, and the race in `TakeWhile(!Started)`. `BlockingSubject.OnNext` and `StartedHandle.Set` are counted together as one started signal.
- **Reading the log file.** Opening the file can fail (for example, when it has been deleted or locked). In the source that exception escapes the handler; the model always reads.
- **Bytes versus characters.** The offset counts characters of the file's text, while the source counts bytes. The two agree only for single-byte text. Encoding and byte-order-mark detection are left out.
- `KibanaProcess.ResolveHomeDirectory`: when the working directory is itself a drive root, `Directory.GetParent(".")` is null. With no explicit or environment home, the source then throws NullReferenceException. The model takes the parent as a string and does not capture this failure.
- `KibanaProcess.KibanaProcess.Start`: calling it a second time creates a second watcher in the source. The model keeps only the most recent watcher and its offset. When the log file's directory does not exist, the source's watcher throws ArgumentException while its path is being set. That happens before the watcher is stored and before the process is launched. The model does not capture this failure: it creates the watcher anyway, with offset 0.
- `RemovePluginsTask.ExecuteTask`: does not model the 32-bit wrap-around of `count * 2000` in the source, which only happens above 1,073,741 plugins.
- **Plugin provider and session.** Finding the installed plugins and what `Remove` does on disk are not part of this model. The plugins and the result of each `Remove` are inputs. Session logging and progress rendering are reduced to the recorded calls.
- **Invalid path arguments.** `Path.Combine` throws on invalid path characters and null arguments. Neither is modelled.
