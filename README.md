# Manifest packaging compiler — a Dafny model

This project models the packaging logic of cluster-forge's `cmd/utils/compiler.go`:

- the **hook filter** (`shouldSkipFile`), which keeps or skips each entry of the working directory;
- the **kind classifier**, which derives `<category>-<kind>` from a file name;
- the **object compiler** (`CreateCrossplaneObject`). It re-indents every kept manifest by 16 spaces per line, renders it into the object envelope, and appends it to exactly one of the object, CRD or secret output files. It resets the content buffer after each file and normalises the three files at the end;
- the **package compiler** (`CreatePackage`), which writes header, content and footer into one package file and normalises it;
- the **blank-line normaliser** (`removeEmptyLines`).

Layout, one module per component:

| file | module | contents |
|---|---|---|
| `wrappers.dfy` | `Wrappers` | `Option` |
| `text.dfy` | `Text` | the Go `strings` operations used: `Contains`, `Split`, `Join`, `TrimSuffix`, with their laws |
| `hook_filter.dfy` | `HookFilter` | directory entries, `ShouldSkipFile` |
| `kind.dfy` | `Kind` | `Classify`, the three streams, `Route` |
| `indent.dfy` | `Indent` | the 16-space indentation and its inverse |
| `normalize.dfy` | `Normalize` | `RemoveEmptyLines` as a line filter, and its properties |
| `templates.dfy` | `Templates` | the three envelope templates, as a record of rendering functions |
| `object_compiler.dfy` | `ObjectCompiler` | the run specification `RunFiles`, the per-stream view `Collected`, the class `PlatformPackage` and `CreateCrossplaneObject` |
| `package_compiler.dfy` | `PackageCompiler` | `CreatePackage` |

How the outside world is represented:

- **Working directory.** Its listing is a `seq<DirEntry>`, processed in the order given. `os.ReadDir` returns entries sorted by file name; the model accepts a listing in any order, so its lemmas also cover that sorted order. Each entry has a name, a directory flag and the result of reading it (`ReadOk(content)` or `ReadFailed`).
- **Output files.** They are `string` fields of `PlatformPackage`. The constructor starts them empty, modelling the truncate-on-open.
- **Templates.** Their text is not part of this model. `TemplateSet` holds three arbitrary functions: `wrapper(name, kind, content)`, `header(name)` and `footer(name)`. `None` stands for a failed `Execute`.
- **Fatal exits.** `log.Fatalln` and the index-out-of-range panic on a name without `_` become an `Option<Fatal>` result. The output files then keep what was written before the fatal entry. They are not normalised, because the program stops before `removeEmptyLines`.

Two points where the code does less than one might expect; the model follows the code:

- **Trailing whitespace.** One might expect every trailing whitespace run to be removed. The regex on line 170 removes the whitespace run that starts at the newline ending the last non-blank line, except when that run is a single `\n`; spaces at the end of that line itself stay. So `"A\n"` keeps its final newline, `"A\n\n"` becomes `"A"`, `"A \n\n"` becomes `"A "`, and whitespace-only text such as `"\n"` or `" "` becomes `""`. The model states this as `EndsWithLineBreak`; `FinalNewline` proves that the output ends with a newline exactly when it holds.
- **Normaliser errors.** `removeEmptyLines` returns an error value, but `CreateCrossplaneObject` and `CreatePackage` ignore it (lines 127-129, 159).

## Model

| member | source | states |
|---|---|---|
| `Text.Contains` | cmd/utils/compiler.go:65 | true exactly when the marker occurs at some index of the content (substring search, not YAML-aware) |
| `HookFilter.ShouldSkipFile` | cmd/utils/compiler.go:53-70 | an entry is skipped exactly when it is a directory, its read fails, or its raw content contains `helm.sh/hook`; every other entry is kept |
| `Text.SplitSeveral` | cmd/utils/compiler.go:99 | the name splits into two or more segments exactly when it contains `_` |
| `Text.Split` | cmd/utils/compiler.go:99 | `strings.Split` with a one-character separator: the pieces between separators, at least one (`""` gives `[""]`); `SplitCount`, `SplitSeveral`, `JoinSplit` and `SplitJoin` pin it down |
| `Kind.Classify` | cmd/utils/compiler.go:99-101 | no kind (the index of segment 1 is out of range) exactly when the name has no `_` |
| `Kind.ClassifyParts` | cmd/utils/compiler.go:99-101 | for `a_b` or `a_b_...` with `a`, `b` free of `_`, the kind is `a-b` with one trailing `.yaml` trimmed; it depends on the name only |
| `Text.TrimSuffix` | cmd/utils/compiler.go:101 | with the suffix present, the result followed by the suffix is the input; otherwise the input is unchanged |
| `Kind.Route` | cmd/utils/compiler.go:114-120 | CRD stream exactly when the kind contains `CustomResourceDefinition`, even if it also contains `Secret`; secret stream exactly when it contains `Secret` but not the former; object stream exactly when it contains neither |
| `Text.SplitCount` | cmd/utils/compiler.go:107 | splitting on newline yields one piece more than there are newlines |
| `Indent.IndentLines` | cmd/utils/compiler.go:110-112 | the loop's output: each line as 16 spaces, the line and a newline, concatenated in order; `IndentLinesSnoc` and `IndentLinesPieces` pin it down |
| `Indent.IndentContent` | cmd/utils/compiler.go:107-112 | the buffer for one manifest: its content split on `\n`, every piece indented, the empty last piece included; `IndentLineCount` and `IndentRoundTrip` pin it down |
| `Indent.IndentLinesPieces` | cmd/utils/compiler.go:107-112 | the indented block has exactly one line per input line, in order, each exactly 16 spaces followed by that line; its last `\n`-piece is empty, so a non-empty block ends with a newline |
| `Indent.IndentLineCount` | cmd/utils/compiler.go:107-112 | the indented block holds `count('\n', content) + 1` newline-terminated lines |
| `Indent.IndentRoundTrip` | cmd/utils/compiler.go:107-112 | stripping the 16-space prefixes and joining the lines with newlines recovers the original content |
| `Indent.IndentLinesSnoc` | cmd/utils/compiler.go:110-112 | indenting one more line appends exactly `Pad + line + "\n"` |
| `ObjectCompiler.PlatformPackage.WriteIndented` | cmd/utils/compiler.go:110-112 | the buffer becomes its old value followed by every line indented, in order |
| `ObjectCompiler.Streams.Append` | cmd/utils/compiler.go:114-120 | a rendered block changes the chosen output stream by appending to it, and no other stream |
| `ObjectCompiler.PlatformPackage.WriteTo` | cmd/utils/compiler.go:114-120 | rendering appends the block to the routed file only |
| `ObjectCompiler.PlatformPackage.constructor` | cmd/utils/compiler.go:75-91 | the package name is set; the buffer and all three output files start empty |
| `ObjectCompiler.PlatformPackage.Compile` | cmd/utils/compiler.go:93-129 | the buffer is empty at the start of every file (loop invariant). The files equal the run specification. On success the whole output is normalised; on a fatal entry the files keep what was written before it |
| `ObjectCompiler.CreateCrossplaneObject` | cmd/utils/compiler.go:73-130 | the three final files and the fatal condition are those of `RunFiles`, normalised when the run completes |
| `ObjectCompiler.FileFate` | cmd/utils/compiler.go:95-123 | what one entry does: skipped when `ShouldSkipFile` holds; else fatal on a name without `_` or on a failed render; else its rendered block routed by `Route`; `SkippedAddsNothing` and `RoutedToOneStream` pin it down |
| `ObjectCompiler.RunFiles` | cmd/utils/compiler.go:93-126 | the loop over the listing: routed blocks appended to their streams in order, the first fatal entry ending the run; `RunFilesCollects`, `RunFilesCompletes`, `FatalIsFinal` and `RunFilesStopsAtFirstFatal` pin it down |
| `ObjectCompiler.Streams.Normalized` | cmd/utils/compiler.go:127-129 | all three files, each passed through `RemoveEmptyLines` on its own; used only when the run completes (`Compile`, `CreateCrossplaneObject`) |
| `ObjectCompiler.RunFilesCollects` | cmd/utils/compiler.go:94-126 | a completed run writes to each stream exactly the rendered blocks of the entries routed to it, in listing order, and nothing else |
| `ObjectCompiler.CollectedAppend` | cmd/utils/compiler.go:94-126 | what a stream receives from two consecutive parts of the listing is what it receives from the first followed by what it receives from the second |
| `ObjectCompiler.SkippedAddsNothing` | cmd/utils/compiler.go:94-97 | a skipped entry (directory, unreadable file, hook manifest) adds nothing to any stream |
| `ObjectCompiler.RoutedToOneStream` | cmd/utils/compiler.go:114-120 | a routed entry adds its whole block to its own stream and nothing to the other two: each block goes to exactly one stream |
| `ObjectCompiler.StreamsPartitionBlocks` | cmd/utils/compiler.go:114-120 | the lengths of the three streams sum to the length of all rendered blocks |
| `ObjectCompiler.RunFilesCompletes` | cmd/utils/compiler.go:99-123 | a run completes exactly when no kept entry has a malformed name or a failed render |
| `ObjectCompiler.FatalIsFinal` | cmd/utils/compiler.go:121-123 | once a run is cut short, the later entries change nothing |
| `ObjectCompiler.RunFilesStopsAtFirstFatal` | cmd/utils/compiler.go:99-123 | a run that is cut short reports the first fatal entry's reason and holds exactly the output of the entries before it |
| `Text.JoinSplit` | cmd/utils/compiler.go:146-149 | `Join(Split(s, "\n"), "\n") == s`: the package step leaves the content unchanged |
| `Text.Join` | cmd/utils/compiler.go:149 | `strings.Join` with a one-character separator: the pieces with the separator between consecutive ones; `JoinSplit` and `SplitJoin` make it the inverse of `Split` |
| `Text.SplitJoin` | cmd/utils/compiler.go:146-149 | splitting a join of newline-free pieces gives the pieces back |
| `PackageCompiler.CreatePackage` | cmd/utils/compiler.go:133-160 | header failure: an empty file. Footer failure: header then content. Otherwise the normalised form of header, then content unchanged, then footer |
| `Normalize.RemoveEmptyLines` | cmd/utils/compiler.go:169-171 | the non-blank `\n`-pieces joined by `\n`, plus a final `\n` when the text ends in a non-blank line and one newline; `LinesOfRemoveEmptyLines` fixes the output's lines and `FinalNewline` its final newline; `RemoveEmptyLinesNoBlank`, `RemoveEmptyLinesFixpoint` and `RemoveEmptyLinesIdempotent` follow |
| `Normalize.NonBlank` | cmd/utils/compiler.go:169-171 | the kept lines are exactly the input lines that are not whitespace-only |
| `Normalize.LinesOfRemoveEmptyLines` | cmd/utils/compiler.go:169-171 | the output's lines are exactly the non-blank input lines, with content and relative order unchanged |
| `Normalize.RemoveEmptyLinesNoBlank` | cmd/utils/compiler.go:169-171 | the output contains no whitespace-only line |
| `Normalize.RemoveEmptyLinesFixpoint` | cmd/utils/compiler.go:169-171 | a text with no blank line comes back unchanged |
| `Normalize.RemoveEmptyLinesIdempotent` | cmd/utils/compiler.go:169-171 | normalising twice equals normalising once |
| `Normalize.FinalNewline` | cmd/utils/compiler.go:170 | the output ends with a newline exactly when the input ends with a non-blank line and a single newline (the `[\r\n]+\s+\z` alternative removes any longer run) |
| `Normalize.BlankLineBetween` | cmd/utils/compiler.go:169-171 | an empty line between two non-blank lines is removed; the final newline stays |
| `Normalize.RemoveEmptyLinesExample` | cmd/utils/compiler.go:169-171 | a blank line inside package content: `"A: 1\n\nB: 2\n"` normalises to `"A: 1\nB: 2\n"` |

## Left out

- File I/O is represented as values, not performed: the calls to `os.OpenFile`, `os.ReadFile`, `os.ReadDir` and `os.WriteFile`, the `defer Close` calls, file modes and the path strings built from the package name. Failures of opening or writing an output file, and of reading or writing inside `removeEmptyLines`, are not modelled.
- The error of `os.ReadDir` is ignored by the source. The model takes the listing as given; it does not require the file-name order `os.ReadDir` produces, so every lemma holds for that order as well.
- The second read of each kept file (lines 103-106) is taken to return the same content as the read in `shouldSkipFile`. So its fatal branch is not reachable in the model.
- `log.Printf` on an unreadable file is not modelled. `log.Fatalln` is modelled as a fatal result, not as process termination.
- The `//go:embed` assets, `init()` and `template.Must(ParseFS)` (lines 31-45) are not modelled. Neither is `text/template` execution: the three renders are arbitrary functions. Output that a failing `Execute` may already have written is not modelled.
- Normalize.RemoveEmptyLines: treats only `\n` as the line separator and models the regex on line 170 as a line filter, following the comment on line 169 ("Remove empty lines"). For text that contains no `\r` it follows the regex, including the trailing-run rule. With `\r` present the regex can remove more than the model does: it removes a final `\r\n` right after a non-blank line, and after a blank line it also eats a `\r` that begins the next line (`"A\n\n\rB"` becomes `"A\nB"`, the model gives `"A\n\rB"`). Exact RE2 matching semantics are not modelled.
- Content is modelled as `seq<char>`, not bytes. No encoding is modelled.
- Concurrent runs with the same package name are not modelled. The source has no locking.
