# Sublime-OpenSees helpers, modelled in Dafny

This project models `lib/helpers.py` of the Sublime Text plugin for OpenSees.
That file is the layer between the editor's APIs and the processes the plugin
starts. It has three parts:

- **The settings resolver** (`Settings.get`, `Settings._replace_references`).
  - A dotted key such as `a.b.c` takes its first segment from the project data
    when the project has that key, and otherwise from the plugin settings.
  - The later segments index into the value found.
  - The result is then rewritten recursively. A dict holding the current
    platform's key (`windows`, `osx`, `linux`) collapses to that branch.
  - Other dicts and lists are resolved element by element, in place.
  - In a string, environment variables are expanded, then every `${token}` is
    replaced by `str(Settings.get(token))`.
  - Modules: `settings.dfy` (module `Settings`), with its properties in
    `settings_facts.dfy` (module `SettingsFacts`).
- **`OnDoneExecCommand`**, the editor's build-output command with three extras.
  - A display name, which rewrites the first `Finished` of each chunk.
  - A list of completion callbacks.
  - An optional list that collects every forwarded chunk.
  - Modelled as the class `Exec.ExecCommand` in `exec.dfy`. Everything the
    hidden base command does is recorded as an event in its `log`.
- **`RunBase`**, the run command, in `runner.dfy` (module `Runner`).
  - It chooses the input file and saves dirty views below it.
  - It assembles the OpenSees command line: serial, or under `mpiexec`, with
    the MPICH2 checks on Windows.
  - It launches the line, or shows a message instead.

`text.dfy` (module `Text`) holds the string operations the code relies on:
`startswith`, `split`, `str(int)`, literal `re.sub` and the expansion of `re`
replacement templates. `wrappers.dfy` holds `Option` and `Result`.

Structure of the model:

- The specification is a set of functions: `Settings.Lookup`,
  `Settings.Resolve`, `Exec.Forward`, `Runner.GetPath` and `Runner.GetCmd`.
- The parts that work by mutation are methods proved against those functions.
  - `Settings.Get`, with its loops over dict values, list elements and tokens,
    is proved equal to `Settings.Lookup`.
  - The methods of `Exec.ExecCommand` state their new log and collected output
    in terms of `Exec.Forward`, `Exec.Banner` and `Exec.Calls`.
  - `Runner.SaveAllViews` is proved to save exactly the views that pass the
    `Runner.ShouldSave` filter, each once and in view order.
- Python's recursion limit is modelled by a `fuel` bound on nested lookups. A
  cyclic reference (`a` = `${a}`) ends in `Err(RecursionLimit)`.
- The editor, the file system, `which`, `cpu_count()`, the `os.path` functions
  and the outputs of the smpd/mpiexec probes are parameters.

Notes on what the code does as written:

- The platform keys are the values `sublime.platform()` returns (`windows`,
  `osx`, `linux`).
- `save_all_views` is called with the input *file* path, not its directory
  (lib/helpers.py:119). So only views whose normalised name starts with the
  normalised file path are saved. This is a plain string-prefix test.
- `processor_count` never takes effect. The range test at lib/helpers.py:156
  reads the unbound name `x`, and the `NameError` is caught at :158. The count
  is therefore always `cpu_count()`.
- The invalid-file message at lib/helpers.py:116-118 cannot be shown.
  `os.path.basename(None)` at :114 raises first, so `run` without an input file
  ends in an exception (`Crashed`).
- `cpu_count()` calls `os.sysconf_names.has_key` wherever `os.sysconf` exists.
  That is an `AttributeError` under Python 3. The model therefore takes the
  result of `cpu_count()` as an `Option`, and `None` makes parallel mode end in
  an exception.

## Model

| member | source | states |
|---|---|---|
| Settings.Find | lib/helpers.py:19-22 | `k in d` and `d[k]`: no position exactly when the key is absent, otherwise a position holding that key |
| Settings.Keys | lib/helpers.py:32 | the keys of a dict, one per entry, in iteration order |
| Settings.Root | lib/helpers.py:19-22 | the value of the first segment: the project entry if the project has the key, else the plugin setting; stated by `SettingsFacts.RawTopLevel` |
| Settings.Index | lib/helpers.py:24 | `setting[k]`: the value under `k` in a dict, KeyMissing when absent, NotIndexable on a non-dict; stated by `SettingsFacts.RawExtend` |
| Settings.Walk | lib/helpers.py:23-24 | indexing by the remaining segments in turn, stopping at the first failure; stated by `SettingsFacts.WalkAppend` and `SettingsFacts.RawExtend` |
| Settings.Raw | lib/helpers.py:17-24 | the raw value of a dotted key; `Settings.ReadKey` is proved to compute it |
| Settings.Show | lib/helpers.py:41 | `str(v)` of a looked-up value: a string as it is, an integer in decimal, `True`/`False`, `None`; containers through `reprContainer` |
| Settings.Lookup | lib/helpers.py:13-25 | the result of `Settings.get(key)`: the raw value, resolved; `Settings.Get` is proved to return it, and `SettingsFacts.LookupFuelMonotone` states its nesting bound |
| Settings.Resolve | lib/helpers.py:27-42 | the result of `_replace_references`; `Settings.ReplaceReferences` is proved to return it, and the `SettingsFacts` lemmas state what it keeps and changes |
| Settings.ResolveEntries | lib/helpers.py:32-33 | the dict case of `Resolve`; stated by `SettingsFacts.ResolveEntriesSpec` |
| Settings.ResolveItems | lib/helpers.py:34-36 | the list case of `Resolve`; stated by `SettingsFacts.ResolveItemsSpec` |
| Settings.Substitute | lib/helpers.py:39-41 | the string case's loop over tokens; stated by `Settings.SubstituteCons`, `Settings.SubstituteAt` and `SettingsFacts.SubstituteFill` |
| Settings.FindTokens | lib/helpers.py:39-40 | every token `findall` yields has no `}` and occurs as `${token}` in the string; the exact list is stated by `SettingsFacts.FindTokensCons` and `SettingsFacts.FindTokensFill` |
| Settings.Get | lib/helpers.py:13-25 | `Settings.get(key)` returns exactly `Lookup(cfg, key, fuel)`: the raw value of the key, resolved |
| Settings.ReadKey | lib/helpers.py:17-24 | the layer choice and the loop of `setting = setting[k]` compute `Raw(cfg, key)`, stopping at the first failing index |
| Settings.ReplaceReferences | lib/helpers.py:27-42 | `_replace_references` returns exactly `Resolve(cfg, setting, fuel)` |
| Settings.ReplaceInDict | lib/helpers.py:32-33 | overwriting each dict value in place with its resolution yields `ResolveEntries`: all values resolved, or the first error |
| Settings.ReplaceInList | lib/helpers.py:34-36 | overwriting each list element in place yields `ResolveItems`: all elements resolved, or the first error |
| Settings.ReplaceInString | lib/helpers.py:37-41 | expanding the environment, then one `re.sub` per token found, rebinding the string, yields `Substitute` over the tokens of the expanded string |
| Settings.ReplaceToken | lib/helpers.py:40-41 | one `re.sub` with the escaped text of `Settings.get(token)` replaces `${token}` by that text literally, or fails as the lookup fails |
| Settings.SubstituteAt | lib/helpers.py:39-41 | the tokens are handled one after the other: the first error stops the loop, otherwise each replacement feeds the next |
| Settings.SubstituteCons | lib/helpers.py:40-41 | one token costs one level of nesting: it is looked up with one unit less, and its text replaces every `${token}` |
| SettingsFacts.RawTopLevel | lib/helpers.py:17-22 | a key without dots gives the project entry if the project has it, else the plugin setting, else None |
| SettingsFacts.RawExtend | lib/helpers.py:23-24 | a further segment indexes the previous result; a missing key is KeyMissing and a non-dict is NotIndexable, never a default |
| SettingsFacts.SplitAppend | lib/helpers.py:17 | `key.split(".")` of `key + "." + seg` is the segments of `key` followed by `seg` |
| SettingsFacts.WalkAppend | lib/helpers.py:23-24 | indexing by one more segment continues from the value the earlier segments reached |
| SettingsFacts.ResolveEntriesSpec | lib/helpers.py:32-33 | resolving dict values succeeds iff every value resolves; it keeps every key, holds each value's resolution, and otherwise returns the first failing value's error |
| SettingsFacts.ResolveItemsSpec | lib/helpers.py:35-36 | resolving list elements succeeds iff every element resolves; it holds each element's resolution in order, and otherwise returns the first failing element's error |
| SettingsFacts.ResolveDictKeepsKeys | lib/helpers.py:29-33 | a dict without the platform key keeps exactly its keys, in order, with each value resolved; it fails iff a value fails |
| SettingsFacts.ResolveListKeepsOrder | lib/helpers.py:34-36 | a list keeps its length and order, with each element resolved; it fails iff an element fails |
| SettingsFacts.ResolveScalar | lib/helpers.py:29-42 | numbers, booleans and None come back unchanged |
| SettingsFacts.FindAfterAbsent | lib/helpers.py:30-31 | `setting[PLATFORM]` finds the first entry with the platform key |
| SettingsFacts.ResolvePlatformBranch | lib/helpers.py:30-31 | a dict holding the platform key resolves to the resolution of that branch alone; sibling keys are discarded |
| SettingsFacts.ResolvedPlatformFree | lib/helpers.py:29-36 | a resolved value contains no dict with the current platform's key anywhere |
| SettingsFacts.ResolvePreservesShape | lib/helpers.py:29-42 | without platform keys, resolution keeps the keys, list lengths and scalar values of the whole tree and changes only strings |
| SettingsFacts.NoMarkerNoTokens | lib/helpers.py:39 | a string with no `${` yields no tokens |
| SettingsFacts.NoMarkerNoReference | lib/helpers.py:41 | replacing `${t}` in a string with no `${` leaves the string unchanged |
| SettingsFacts.ResolvePlainString | lib/helpers.py:37-42 | a string with no `${` after environment expansion is returned as expanded |
| SettingsFacts.FindTokensSingle | lib/helpers.py:39-40 | a string whose only `${` opens one `${k}` yields exactly the token `k` |
| SettingsFacts.FirstReferenceAt | lib/helpers.py:41 | no `${k}` starts inside the marker-free prefix `a` of `a${k}b`, so the first match is the one right after `a` |
| SettingsFacts.FindTokensAtReference | lib/helpers.py:39-40 | `${k}` at the start of a string is its first token, followed by the tokens of the rest |
| SettingsFacts.ReplaceAroundReference | lib/helpers.py:41 | replacing `${k}` in `a${k}b` gives `a`, the replacement, `b` |
| SettingsFacts.FindTokensCons | lib/helpers.py:39-40 | after a marker-free prefix, `${k}` is the first token found, followed by the tokens of the rest of the string |
| SettingsFacts.FindTokensFill | lib/helpers.py:39-40 | marker-free parts around the references `${k1}` … `${kn}` yield exactly the tokens `k1` … `kn`, in order, repeats included |
| SettingsFacts.ReplaceAllFill | lib/helpers.py:41 | one `re.sub` for `${k}` over such a string replaces exactly the slots still holding `${k}`, and leaves the parts and every other slot as they are |
| SettingsFacts.SubstituteStages | lib/helpers.py:39-41 | when no lookup fails, the loop of `re.sub` calls fills the slots key by key, each replacement feeding the next, and ends with every slot holding its key's text |
| SettingsFacts.SubstituteFails | lib/helpers.py:39-41 | the first token whose lookup fails stops the loop with that lookup's error, whatever the string |
| SettingsFacts.SubstituteFill | lib/helpers.py:39-41 | substituting the tokens of parts-and-references gives the parts with every `${k}` replaced by `str(Settings.get(k))`, or the error of the first failing lookup |
| SettingsFacts.ResolveReferences | lib/helpers.py:37-41 | a string with any number of references, repeats included, whose parts, keys and looked-up texts contain no `$`, resolves to its parts with every `${k}` replaced by `str(Settings.get(k))`; otherwise to the first failing lookup's error, or to the nesting bound when no level is left; without references, to the expanded string |
| SettingsFacts.ResolveSingleReference | lib/helpers.py:37-41 | a string with one reference resolves to the text around it with `str(Settings.get(k))` in its place, or to that lookup's error, or to the nesting bound when no level is left |
| SettingsFacts.LookupFuelMonotone | lib/helpers.py:13-25 | a lookup that did not hit the nesting bound gives the same result with a larger bound |
| SettingsFacts.ResolveFuelMonotone | lib/helpers.py:27-42 | a resolution that did not hit the nesting bound gives the same result with a larger bound |
| SettingsFacts.EntriesFuelMonotone | lib/helpers.py:32-33 | the same for dict values |
| SettingsFacts.ItemsFuelMonotone | lib/helpers.py:35-36 | the same for list elements |
| SettingsFacts.SubstituteFuelMonotone | lib/helpers.py:39-41 | the same for token substitution |
| Text.IndexOf | lib/helpers.py:39 | the position of the first `}`: it holds `}` and nothing before it does; none when there is no `}` |
| Text.FirstIndex | lib/helpers.py:41 | `re.sub` with a literal pattern matches first at the leftmost occurrence: it occurs there and nowhere before; none when it occurs nowhere |
| Text.ReplaceAll | lib/helpers.py:41 | `re.sub` with a literal pattern: every non-overlapping occurrence, scanned from the left, replaced; stated by `Text.ReplaceAllSkip`, `Text.ReplaceAllHead` and `Text.ReplaceAllAbsent` |
| Text.ReplaceAllSkip | lib/helpers.py:41 | a prefix in which no match starts passes through `re.sub` unchanged, and the rest is replaced on its own |
| Text.ReplaceAllHead | lib/helpers.py:41 | a match at the start is replaced and the scan continues right after it |
| Text.ReplaceAllAbsent | lib/helpers.py:41 | a string in which the pattern occurs nowhere is returned unchanged |
| Text.ReplaceFirst | lib/helpers.py:86 | `re.sub(..., count=1)` with a literal pattern: the leftmost occurrence, as `Text.FirstIndex` finds it, replaced; stated for `Finished` by `Exec.ForwardSpec` |
| Text.Split | lib/helpers.py:17 | `key.split(".")` gives at least one part, and no part contains the separator |
| Text.JoinSplit | lib/helpers.py:17 | joining the parts of a split with the separator gives back the key |
| Text.SplitJoin | lib/helpers.py:17 | splitting separator-free parts joined by the separator gives back the parts |
| Text.SplitFree | lib/helpers.py:17-18 | a key without dots is a single segment |
| Text.SplitAfterFree | lib/helpers.py:17 | a separator followed by separator-free text adds exactly that text as the last part |
| Text.NatToString | lib/helpers.py:183 | `str(n)` is a non-empty string of decimal digits, with no leading zero: it starts with `0` exactly when `n` is 0 |
| Text.NatToStringValue | lib/helpers.py:183 | the digits of `str(n)` denote `n` |
| Text.DigitValue | lib/helpers.py:183 | each digit character denotes its value |
| Text.IntToString | lib/helpers.py:183 | `str(i)`: a minus sign for a negative number, then the digits of `Text.NatToString`, which `Text.NatToStringValue` proves denote the number |
| Text.ExpandEscape | lib/helpers.py:41 | doubling the backslashes makes any text a `re` template that expands to exactly that text, so the insertion is literal |
| Text.Escape | lib/helpers.py:41 | the looked-up text with its backslashes doubled; `Text.ExpandEscape` proves the template expands back to the text |
| Text.Expand | lib/helpers.py:86 | the expansion of a `re` replacement template; stated by `Text.ExpandEscape`, `Text.ExpandLiteralPrefix` and `Text.NameTemplate` |
| Text.ExpandLiteralPrefix | lib/helpers.py:86 | template text without backslashes passes through unchanged |
| Text.NameTemplate | lib/helpers.py:86 | the template `<name> \1` expands to `<name> Finished` for a name without backslashes |
| Exec.CallbackList | lib/helpers.py:104-105 | the list `run_callbacks` iterates over: a non-list `on_done` wrapped into a one-element list, a list as it is; `Exec.ExecCommand.RunCallbacks` is stated in terms of it |
| Exec.Calls | lib/helpers.py:106-108 | the calls `run_callbacks` makes for a list, in order; stated by `Exec.CallsAppend`, `Exec.CallsCons` and `Exec.CallsCount` |
| Exec.CallsAppend | lib/helpers.py:106-108 | the calls for a list are those for its first part followed by those for the rest: list order is kept |
| Exec.CallsCons | lib/helpers.py:106-108 | the first entry is called first, if it is not None |
| Exec.CallsCount | lib/helpers.py:106-108 | every non-None entry is called exactly as often as it occurs, None entries are skipped, and nothing else is called |
| Exec.Rewrites | lib/helpers.py:85 | the guard of `append_string`: `poll()` falsy and the display name non-empty |
| Exec.Forward | lib/helpers.py:84-87 | the text `append_string` passes on, or none when the name is not a valid template; stated by `Exec.ForwardSpec` |
| Exec.ForwardSpec | lib/helpers.py:84-87 | with `poll()` falsy and a non-empty name, the forwarded chunk is `"\n\n"` plus the chunk with only its first `Finished` turned into `<name> Finished`; otherwise the chunk passes unchanged |
| Exec.Banner | lib/helpers.py:82 | the text `run` appends after launching: `[<name> Started]` and a blank line |
| Exec.MessageCommand | lib/helpers.py:99-100 | the shell command `run_message` launches; stated by `Exec.MessageCommandIsComment` |
| Exec.MessageCommandIsComment | lib/helpers.py:99-100 | the command `run_message` launches starts with the comment marker and ends with the message |
| Exec.Capture.constructor | lib/helpers.py:74 | a new `stdout` list is empty |
| Exec.ExecCommand.constructor | lib/helpers.py:74-78 | the command keeps the given display name, `on_done` and `stdout`, and has done nothing yet |
| Exec.ExecCommand.AppendString | lib/helpers.py:84-89 | exactly the forwarded text is shown and, with a `stdout` list, appended to it; if the name is not a valid template, nothing is shown or collected |
| Exec.ExecCommand.Run | lib/helpers.py:80-82 | the process is launched, then the banner `[<name> Started]` is passed through `append_string` |
| Exec.ExecCommand.RunMessage | lib/helpers.py:98-101 | a comment command naming the command and the message is run, then the message is passed through `append_string` |
| Exec.ExecCommand.RunCallbacks | lib/helpers.py:103-108 | `on_done` becomes a list, and every non-None entry is called once, in order |
| Exec.ExecCommand.OnFinished | lib/helpers.py:91-93 | the callbacks run before the base command's own finish handling |
| Runner.GetPath | lib/helpers.py:133-141 | no paths gives the active file, one path gives that path, more gives None; a missing or nonexistent path gives None |
| Runner.IsEnabled | lib/helpers.py:129-130 | `is_enabled`: a path is designated; stated by `Runner.EnabledExactly` |
| Runner.IsVisible | lib/helpers.py:131-132 | `is_visible`, which delegates to `is_enabled`; stated by `Runner.EnabledExactly` |
| Runner.EnabledExactly | lib/helpers.py:129-132 | `is_visible` equals `is_enabled`, and both hold exactly when one existing file is designated |
| Runner.ShouldSave | lib/helpers.py:50 | the filter of `save_all_views`: a non-empty, existing, dirty file whose normalised name starts with the normalised path; `Runner.SaveAllViews` is proved to save exactly these views |
| Runner.SaveAllViews | lib/helpers.py:47-51 | the views saved are exactly those with a non-empty, existing, dirty file whose normalised name starts with the normalised path, each once and in view order |
| Runner.TryProcessorCount | lib/helpers.py:154-157 | the `try` block reading `processor_count`: a failed read, a failed `int()` or the `NameError` of the range test; stated by `Runner.ProcessorCount` |
| Runner.ProcessorCount | lib/helpers.py:153-159 | the count used is always `cpu_count()`, whatever `processor_count` holds, because the range test raises `NameError` |
| Runner.RegisterDiffers | lib/helpers.py:164-173 | the registration script is a different command from the status and validation probes |
| Runner.WindowsPreflight | lib/helpers.py:160-179 | the MPICH2 checks: their result and the commands issued; stated by `Runner.PreflightOutcomes` |
| Runner.PreflightOutcomes | lib/helpers.py:160-179 | ready iff smpd runs and mpiexec validates, first time or after registering; registration fails iff both validations answer without SUCCESS; a failed probe counts as smpd down; the script runs at most once, exactly when the first validation is refused |
| Runner.GetCmdSerial | lib/helpers.py:143-147 | a missing executable gives its message and issues nothing; otherwise the serial line is `"<exe>" "<basename>"` |
| Runner.GetCmd | lib/helpers.py:142-184 | `get_cmd`: the three settings read, then `Assemble`; stated by `Runner.GetCmdSerial`, `Runner.GetCmdMissingMpi`, `Runner.GetCmdNoCpuCount`, `Runner.GetCmdParallel`, `Runner.GetCmdEndsWithInput` and `Runner.GetCmdIssues` |
| Runner.Assemble | lib/helpers.py:143-148 | the executable check, then the serial line or `ParallelCmd`; stated by the same lemmas |
| Runner.ParallelCmd | lib/helpers.py:148-183 | the parallel branch of `get_cmd`; stated by `Runner.GetCmdMissingMpi`, `Runner.GetCmdNoCpuCount`, `Runner.GetCmdParallel` and `Runner.ParallelCmdWindows` |
| Runner.GetCmdMissingMpi | lib/helpers.py:149-152 | in parallel mode an mpiexec that is not found gives the message naming it and issues nothing |
| Runner.GetCmdNoCpuCount | lib/helpers.py:153 | with mpiexec found, a `cpu_count()` that raises ends `get_cmd` in an exception, before any check is issued |
| Runner.GetCmdParallel | lib/helpers.py:148-183 | in parallel mode off Windows the line is `"<mpiexec>"  -np <cpu_count()> ` then the serial line, and nothing is issued; on Windows the commands issued are those of the MPICH2 checks, and their result gives the line with `-noprompt`, the `smpd -start` message, or the `-register` message |
| Runner.ParallelCmdWindows | lib/helpers.py:160-183 | on Windows, a ready check gives the `-noprompt` line, smpd down gives the message naming `smpd` next to mpiexec, and a failed registration gives the message naming mpiexec; the commands issued are the checks' |
| Runner.GetCmdEndsWithInput | lib/helpers.py:147-183 | every command line ends with the quoted input file name |
| Runner.GetCmdIssues | lib/helpers.py:148-179 | the MPICH2 probes run only on Windows in parallel mode |
| Runner.Launch | lib/helpers.py:120-128 | a command line is launched in the file's directory with its banner; a message is shown through `run_message`; an exception does nothing more |
| Runner.DisplayName | lib/helpers.py:112-115 | the display name `RUN OpenSees <name> for "<file>"`, which `Runner.Run` gives the command |
| Runner.Run | lib/helpers.py:111-128 | without an input file, `run` raises; otherwise it creates a command named `RUN OpenSees <name> for "<file>"`, saves exactly the matching views, runs the checks of `get_cmd`, and launches or reports |

## Left out

- The editor's APIs are inputs: settings, project data, the active view's file and the open views. A missing active view (`active_window().active_view()` being None) is not modelled.
- The `PackageDir` environment write (lib/helpers.py:14) is not modelled. `os.path.expandvars` is the parameter `expandVars` of the configuration.
- Tokens are spliced into the `re` pattern unescaped (lib/helpers.py:28, 41). The model treats `${token}` as a literal pattern. A `.` in a dotted token would match any character in the source.
- The display name is used as a `re` template at lib/helpers.py:86. Templates are modelled with `\\` and `\1`..`\9`. Other escapes are reported as errors rather than expanded.
- Text.Expand: `\g<…>`, `\n` and the other escapes Python expands in templates are not modelled.
- `str()` of a list or dict (Python's `repr`) is the parameter `reprContainer`. Floats are not in the value type.
- Python dicts are modelled as sequences of entries in iteration order. A lookup takes the first entry with the key.
- `fuel` stands for Python's recursion limit. Its depth is not the same as Python's stack depth.
- `which`/`distutils.spawn` and `cpu_count()` (lib/helpers.py:53-70) are inputs: a set of executables found, and an optional count.
- `os.path.normpath`, `normcase`, `basename`, `dirname` and `join` are uninterpreted functions.
- Runner.ToInt: `int()` on strings with signs, blanks or underscores is not modelled; its result never reaches the command line anyway.
- The subprocess calls are not modelled as processes. The probes are given outcomes, and the commands issued are recorded in order.
- The base `Default.exec.ExecCommand` is not modelled: launching, the output panel, killing a previous process and `popen()` (lib/helpers.py:95-96). Its effects are events in `log`.
- `poll()` is an input. Callbacks are names; what they do, and any exception they raise, is not modelled.
- The `file_regex` argument (lib/helpers.py:125) only configures the editor's output panel and is not modelled.
- `get_name`, `is_parallel` and `get_exe_setting_name` (lib/helpers.py:185-190) are abstract. A concrete command supplies them as a `Variant`.
- SettingsFacts.ResolveReferences: stated for strings whose parts, keys and looked-up texts contain no `$`. With a `$` in a part or a looked-up text, a replacement can complete a new `${…}` that a later `re.sub` of the loop matches. With a `$` in a key, an earlier replacement can break up a later reference: in `${y}${x${y}` the tokens are `y` and `x${y`, and replacing `${y}` first leaves no `${x${y}` to replace. `Settings.Substitute` models these cases, but no lemma describes their result.
