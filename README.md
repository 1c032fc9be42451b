# trestle-mcp command translation layer

trestle-mcp exposes the `trestle` compliance-as-code CLI as MCP tools. Under
the tools sits a thin, deterministic translation layer, and this project
models it:

- **Executable resolution** (`find_trestle_bin`): the `trestle` binary is the
  first of two virtual-environment candidates that exists: the caller's
  working directory first, then the package checkout. Otherwise it is the
  bare name `trestle`.
- **Running a command** (`run_trestle_command`): the full argument vector is
  `[bin] + args`. The working directory is `cwd`, or else the process's own
  directory. The timeout is 60 seconds. The outcome is mapped to the record
  `{success, stdout, stderr, returncode}`. A timeout and a raised error both
  give the sentinel code -1 with a fixed explanation.
- **Six per-tool argument builders**: `init`, `import`,
  `author catalog-generate`, `author profile-generate`,
  `author profile-assemble` and `author profile-resolve`. Each builder starts
  with the required tokens. It then appends each optional flag, in its own
  fixed order, when a boolean is true or a string is truthy. Truthy means
  present and non-empty.
- **Six result formatters**: each turns the record into a report. A success
  report is a check-mark headline, an identifying line and the stripped
  standard output. A failure report is a cross-mark headline, an identifying
  line and `Error: ` plus the stripped standard error.

## Module layout

- `Argv` (argv.dfy) holds the vocabulary every builder shares.
  - An optional part of a vector is a table of rows. `Switch(flag, on)` is a
    flag alone; `Valued(flag, value)` is a flag followed by its value.
  - `Emit` renders a table the way the source's `if x: args.append(...)` /
    `args.extend([...])` chains do.
  - `Decode` reads a rendered tail back against the table's grammar (its
    `Slot`s). `DecodeEmit` and `EmitDecode` prove the two are inverse.
  - `PushSwitch`, `PushValued` and `PushText` are the builder steps. Each
    appends one row's tokens to a vector and keeps the invariant that the
    vector is the required prefix plus the rendering of the rows passed so
    far.
- `Text` models Python's `str.strip()` over Python's whitespace set, with
  `Strip` characterised exactly. `Report` composes the two-part messages.
- `Trestle` covers resolution, the invocation and the result envelope. The
  operating system is a `Host` value: its `cwd`, the package root, and a
  `pathExists` oracle. The subprocess is a function `spawn` from the exact
  `Invocation` (vector, directory, timeout) to an `Outcome`. That outcome is
  `Completed(code, out, err)`, `TimedOut` or `Raised(msg)`.
- There is one module per tool: `InitService`, `ImportService`,
  `CatalogGenerate`, `ProfileGenerate`, `ProfileAssemble` and
  `ProfileResolve`. Each has the same members:
  - the input record;
  - the required prefix;
  - the option table `XOptions`, listed in the source's order;
  - the specification `XArgs(p) == prefix + Emit(XOptions(p))`;
  - the imperative builder `BuildXArgs`, which appends step by step as the
    source does and is proved equal to `XArgs`;
  - a parser `ParseXArgs`, with round-trip lemmas in both directions;
  - the formatter `FormatX`;
  - the tool `TrestleX`, which builds, runs and reports.

The round trip is stated in both directions:

- `ParseXArgs(XArgs(p)) == Some(CanonicalX(p))`: the vector determines every
  parameter, up to the falsy forms Python's truthiness cannot tell apart.
- `XArgs(ParseXArgs(a).value) == a`: every vector the parser accepts is
  produced by some parameters.

Together these say the vector is lossless and no flag is confused with
another flag or with a value.

profile-resolve reports with catalog-generate's words, both on success and on
failure. The source does this, and `ProfileResolve.ProfileResolveReportsAsCatalog`
states it.

## Model

| member | source | states |
|---|---|---|
| Trestle.FirstExisting | trestle_mcp/libs/trestle.py:24-26 | the result is the first path in the list that exists, with every earlier one absent; it is None only when none exists |
| Trestle.ResolvedBinaryOrder | trestle_mcp/libs/trestle.py:18-29 | the working directory's `.venv/bin/trestle` wins if it exists; otherwise the package's if it exists; otherwise the bare `trestle`; when both existence checks answer, some name always results (a check that raises is not modelled, see "## Left out") |
| Trestle.ResolvedBinary | trestle_mcp/libs/trestle.py:24-29 | the executable is the bare `trestle` or one of the two candidates that exists |
| Trestle.FindTrestleBin | trestle_mcp/libs/trestle.py:12-29 | the loop with early return yields exactly the resolved binary: an existing candidate, or the bare name when it returns no candidate |
| Trestle.WorkingDirectory | trestle_mcp/libs/trestle.py:47 | a truthy `cwd` is used as given; otherwise the process's current directory |
| Trestle.CommandLine | trestle_mcp/libs/trestle.py:42-48 | the argument vector is the resolved binary followed by `args`, unchanged and of length `|args| + 1`; the directory is the working directory and the timeout is 60 |
| Trestle.Envelope | trestle_mcp/libs/trestle.py:50-69 | success holds exactly when returncode is 0; a completed run passes code, stdout and stderr through untrimmed; a timeout gives `(false, "", "Command timed out after 60 seconds", -1)`; an error `m` gives `(false, "", "Error executing trestle: " + m, -1)` |
| Trestle.SentinelOutcomes | trestle_mcp/libs/trestle.py:56-69 | both failure paths report failure, code -1 and empty stdout; the timeout text contains "timed out"; the error text starts with the fixed prefix and contains the exception's message |
| Trestle.EnvelopeProvenance | trestle_mcp/libs/trestle.py:50-69 | success holds exactly for a run that completed with code 0, and output is reported only by a completed run |
| Trestle.SentinelCollides | trestle_mcp/libs/trestle.py:50-55 | a run that completed with code -1 keeps its output, so code -1 does not in general imply empty stdout |
| Trestle.RunTrestleCommand | trestle_mcp/libs/trestle.py:32-69 | runs exactly the invocation `CommandLine(args, cwd, host)` once and returns its envelope; success holds exactly when returncode is 0 |
| Text.TrimStart | trestle_mcp/services/init.py:87 | the result is a suffix of the input; what it drops is all whitespace; it does not start with whitespace |
| Text.TrimEnd | trestle_mcp/services/init.py:87 | the result is a prefix of the input; what it drops is all whitespace; it does not end with whitespace |
| Text.Strip | trestle_mcp/services/init.py:87 | the result has no whitespace at either end, and the input is that result with whitespace around it |
| Text.StripUnique | trestle_mcp/services/init.py:87 | the converse: stripping whitespace-only padding from a trimmed text gives exactly that text, so `Strip` is the unique such result |
| Text.StripIdempotent | trestle_mcp/services/init.py:87 | stripping twice is stripping once |
| Report.Compose | trestle_mcp/services/import_.py:76-81 | a headline, a blank line, a detail line and a body: the message starts with the headline, contains the detail and ends with the body |
| Report.FailureHeadline | trestle_mcp/services/init.py:90-91 | a message that starts with a "❌ Failed …" headline reads as a failure report |
| Argv.TextOf | trestle_mcp/services/init.py:78 | an optional string renders to a non-empty value exactly when it is truthy |
| Argv.TextRoundTrip | trestle_mcp/services/init.py:78-79 | reading a rendered optional string back gives its canonical form (empty means None) and the same truthiness |
| Argv.Tokens | trestle_mcp/services/init.py:78-82 | an unset row renders nothing; a set switch renders its flag alone; a set value renders its flag followed by its value |
| Argv.Emit | trestle_mcp/services/import_.py:65-72 | the optional tail of a vector: every row's tokens, in table order (no contract of its own; `EmitLength`, `EmitAppend`, `EmitLast`, `EmitNone`, `RowInEmit` and the round trips state its properties) |
| Argv.Decode | trestle_mcp/services/import_.py:65-72 | what the parser accepts is a table of the grammar's shape |
| Argv.DecodeEmit | trestle_mcp/services/import_.py:65-72 | with distinct flags, decoding a rendered table gives back exactly that table |
| Argv.EmitDecode | trestle_mcp/services/import_.py:65-72 | whatever the parser accepts is exactly the rendering of the table it returns |
| Argv.EmitInjective | trestle_mcp/services/import_.py:65-72 | two tables of one grammar with distinct flags render alike exactly when they are equal |
| Argv.EmitAppend | trestle_mcp/services/import_.py:65-72 | appending rows appends their renderings in the same order |
| Argv.RowInEmit | trestle_mcp/services/author/catalog_generate.py:69-78 | in a rendering, each row's tokens (a flag immediately followed by its value) sit right after those of all earlier rows |
| Argv.EmitLast | trestle_mcp/services/author/catalog_generate.py:77-78 | the rendering ends with the last row's tokens, after the rendering of the rest |
| Argv.EmitNone | trestle_mcp/services/author/catalog_generate.py:62-78 | a table with nothing set renders to nothing |
| Argv.EmitLength | trestle_mcp/services/import_.py:65-72 | the length of a rendering is the sum of the rows' token counts |
| Argv.AppendSwitch | trestle_mcp/services/init.py:81-82 | `if on: args.append(flag)`: the vector grows by the flag when it is on, and is unchanged otherwise |
| Argv.AppendValued | trestle_mcp/services/init.py:78-79 | `if value: args.extend([flag, value])`: the vector grows by the flag and the value when the value is truthy, and is unchanged otherwise |
| Argv.AppendText | trestle_mcp/services/author/profile_assemble.py:84-87 | the same for a required string field, tested for being non-empty |
| Argv.PushSwitch | trestle_mcp/services/init.py:81-82 | one step of a builder: the vector stays the prefix plus the rendering of the rows passed, now including this switch |
| Argv.PushValued | trestle_mcp/services/init.py:78-79 | the same step for an optional value |
| Argv.PushText | trestle_mcp/services/author/profile_assemble.py:84-87 | the same step for a required string field |
| InitService.ModeFlag | trestle_mcp/services/init.py:70-75 | the one flag a mode selects: `--full`, `--govdocs`, otherwise `--local` (no contract of its own; `ModeRoundTrip` and `InitSingleMode` state its properties) |
| InitService.ModeOfFlag | trestle_mcp/services/init.py:14-19 | a flag names a mode exactly when it is that mode's flag; every other string names none |
| InitService.ModeRoundTrip | trestle_mcp/services/init.py:70-75 | each mode is read back from its own flag |
| InitService.InitOptions | trestle_mcp/services/init.py:78-82 | the option table, one row per conditional step in the source's order, each row set exactly when the source's test is truthy (no contract of its own; `Shape` and `Length` lemmas state its properties) |
| InitService.InitArgs | trestle_mcp/services/init.py:67-82 | the specification of the builder: `["init", mode flag]` followed by the rendering of its root and verbose rows (no contract of its own; the builder, round-trip and shape lemmas state its properties) |
| InitService.BuildInitArgs | trestle_mcp/services/init.py:67-82 | starts with `["init"]`, appends the mode's flag (`--full`, `--govdocs`, otherwise `--local`), then the root and verbose; the result is `InitArgs(p)` |
| InitService.InitRoundTrip | trestle_mcp/services/init.py:22-35 | the vector determines the mode, the root (up to empty vs None) and verbose |
| InitService.InitParseExact | trestle_mcp/services/init.py:67-82 | every vector of the init grammar is the vector of the parameters it parses to |
| InitService.InitArgsShape | trestle_mcp/services/init.py:67-82 | `args[0]` is "init" and `args[1]` the mode's flag; the length counts exactly the options that are set; `--trestle-root` appears exactly when the root is truthy, followed by it; the last token is `--verbose` exactly when verbose is set (or the root itself is that text) |
| InitService.InitDefaultArgs | trestle_mcp/services/init.py:27-35 | the default parameters give exactly `["init", "--local"]` |
| InitService.InitSingleMode | trestle_mcp/services/init.py:70-75 | no mode flag appears after position 1 unless it is the root value itself |
| InitService.FormatInit | trestle_mcp/services/init.py:86-91 | the report reads as success exactly when the run succeeded; on success it starts with "✅ Trestle workspace initialized successfully" and ends with the stripped stdout; on failure it starts with "❌ Failed to initialize trestle workspace" and ends with "Error: " plus the stripped stderr |
| InitService.TrestleInit | trestle_mcp/services/init.py:84-91 | the report is the formatted result of running the built vector in the process's directory; it reads as success exactly when the process completed with code 0 |
| ImportService.ImportOptions | trestle_mcp/services/import_.py:65-72 | the option table, one row per conditional step in the source's order, each row set exactly when the source's test is truthy (no contract of its own; `Shape` and `Length` lemmas state its properties) |
| ImportService.ImportArgs | trestle_mcp/services/import_.py:63-72 | the specification of the builder: `["import", "-f", file, "-o", output]` followed by the rendering of its regenerate, root and verbose rows (no contract of its own; the builder, round-trip and shape lemmas state its properties) |
| ImportService.BuildImportArgs | trestle_mcp/services/import_.py:63-72 | the literal `["import", "-f", file, "-o", output]` grown by the regenerate, root and verbose steps equals `ImportArgs(p)` |
| ImportService.ImportRoundTrip | trestle_mcp/services/import_.py:14-27 | the vector determines file, output, regenerate, the root (up to empty vs None) and verbose |
| ImportService.ImportParseExact | trestle_mcp/services/import_.py:63-72 | every vector of the import grammar is the vector of the parameters it parses to |
| ImportService.ImportArgsShape | trestle_mcp/services/import_.py:63-72 | the first five tokens are exactly `import -f file -o output`, with the file one intact token; the length is 5 + [regenerate] + 2·[root truthy] + [verbose]; a set regenerate comes sixth and a set verbose last |
| ImportService.ImportAllOptions | trestle_mcp/services/import_.py:65-72 | with everything set, the tail is exactly `--regenerate --trestle-root root --verbose` |
| ImportService.FormatImport | trestle_mcp/services/import_.py:76-81 | the marker follows success only; a success report contains "Output: " + output and ends with the stripped stdout; a failure report starts with "❌ Failed to import OSCAL model", contains "File: " + file and ends with "Error: " plus the stripped stderr |
| ImportService.TrestleImport | trestle_mcp/services/import_.py:74-81 | the report is the formatted result of running the built vector, and reads as success exactly when the process completed with code 0 |
| CatalogGenerate.CatalogGenerateOptions | trestle_mcp/services/author/catalog_generate.py:69-78 | the option table, one row per conditional step in the source's order, each row set exactly when the source's test is truthy (no contract of its own; `Shape` and `Length` lemmas state its properties) |
| CatalogGenerate.CatalogGenerateArgs | trestle_mcp/services/author/catalog_generate.py:62-78 | the specification of the builder: the six required tokens followed by the rendering of its five option rows (no contract of its own; the builder, round-trip and shape lemmas state its properties) |
| CatalogGenerate.BuildCatalogGenerateArgs | trestle_mcp/services/author/catalog_generate.py:62-78 | the step-by-step builder equals `CatalogGenerateArgs(p)` |
| CatalogGenerate.CatalogGenerateShape | trestle_mcp/services/author/catalog_generate.py:69-78 | the option table has the fixed grammar force-overwrite, yaml-header, overwrite-header-values, trestle-root, verbose, whatever the parameters |
| CatalogGenerate.CatalogGenerateRoundTrip | trestle_mcp/services/author/catalog_generate.py:13-38 | the vector determines every parameter, up to empty vs None |
| CatalogGenerate.CatalogGenerateParseExact | trestle_mcp/services/author/catalog_generate.py:62-78 | every vector of the grammar is the vector of the parameters it parses to |
| CatalogGenerate.CatalogGenerateFalsyForms | trestle_mcp/services/author/catalog_generate.py:71-76 | an empty header or root gives the same vector as an absent one |
| CatalogGenerate.CatalogGenerateLength | trestle_mcp/services/author/catalog_generate.py:62-78 | the length is 6 plus one per set switch and two per truthy value |
| CatalogGenerate.CatalogGenerateArgsShape | trestle_mcp/services/author/catalog_generate.py:62-78 | the first six tokens are `author catalog-generate --name name --output output`; a set force-overwrite comes seventh and a set verbose last |
| CatalogGenerate.CatalogGenerateMinimal | trestle_mcp/services/author/catalog_generate.py:62-66 | the required parameters alone give exactly the six prefix tokens |
| CatalogGenerate.CatalogGenerateAllOptions | trestle_mcp/services/author/catalog_generate.py:69-78 | with everything set, the options follow in the source's order, each value right after its flag |
| CatalogGenerate.FormatCatalogGenerate | trestle_mcp/services/author/catalog_generate.py:82-87 | the marker follows success only; a success report starts with "✅ Catalog controls generated as markdown successfully", contains "Output: " + output and ends with the stripped stdout; a failure report starts with "❌ Failed to generate catalog markdowns", contains "Catalog: " + name and ends with "Error: " plus the stripped stderr |
| CatalogGenerate.TrestleCatalogGenerate | trestle_mcp/services/author/catalog_generate.py:80-87 | the report is the formatted result of running the built vector, and reads as success exactly when the process completed with code 0 |
| ProfileGenerate.ProfileGenerateOptions | trestle_mcp/services/author/profile_generate.py:79-92 | the option table, one row per conditional step in the source's order, each row set exactly when the source's test is truthy (no contract of its own; `Shape` and `Length` lemmas state its properties) |
| ProfileGenerate.ProfileGenerateArgs | trestle_mcp/services/author/profile_generate.py:73-92 | the specification of the builder: the six required tokens followed by the rendering of its seven option rows (no contract of its own; the builder, round-trip and shape lemmas state its properties) |
| ProfileGenerate.BuildProfileGenerateArgs | trestle_mcp/services/author/profile_generate.py:73-92 | the step-by-step builder equals `ProfileGenerateArgs(p)` |
| ProfileGenerate.ProfileGenerateShape | trestle_mcp/services/author/profile_generate.py:79-92 | the option table has the fixed grammar yaml-header, force-overwrite, overwrite-header-values, sections, required-sections, trestle-root, verbose |
| ProfileGenerate.ProfileGenerateRoundTrip | trestle_mcp/services/author/profile_generate.py:13-41 | the vector determines every parameter, up to empty vs None |
| ProfileGenerate.ProfileGenerateParseExact | trestle_mcp/services/author/profile_generate.py:73-92 | every vector of the grammar is the vector of the parameters it parses to |
| ProfileGenerate.ProfileGenerateFalsyForms | trestle_mcp/services/author/profile_generate.py:79-90 | an empty optional string gives the same vector as an absent one |
| ProfileGenerate.ProfileGenerateLength | trestle_mcp/services/author/profile_generate.py:73-92 | the length is 6 plus one per set switch and two per truthy value |
| ProfileGenerate.ProfileGenerateArgsShape | trestle_mcp/services/author/profile_generate.py:73-92 | the first six tokens are `author profile-generate -n name --output output` (short `-n`, long `--output`); a truthy header follows them as flag and value; a set verbose is last |
| ProfileGenerate.ProfileGenerateMinimal | trestle_mcp/services/author/profile_generate.py:73-77 | the required parameters alone give exactly the six prefix tokens |
| ProfileGenerate.ProfileGenerateSectionsVerbose | trestle_mcp/services/author/profile_generate.py:85-92 | sections plus verbose add exactly `--sections s --verbose` after the prefix |
| ProfileGenerate.ProfileGenerateAllOptions | trestle_mcp/services/author/profile_generate.py:79-92 | with everything set, the options follow in the source's order, each value right after its flag |
| ProfileGenerate.FormatProfileGenerate | trestle_mcp/services/author/profile_generate.py:96-101 | the marker follows success only; a success report contains "Output: " + output and ends with the stripped stdout; a failure report starts with "❌ Failed to generate profile-based markdowns", contains "Profile: " + name and ends with "Error: " plus the stripped stderr |
| ProfileGenerate.TrestleProfileGenerate | trestle_mcp/services/author/profile_generate.py:94-101 | the report is the formatted result of running the built vector, and reads as success exactly when the process completed with code 0 |
| ProfileAssemble.ProfileAssembleOptions | trestle_mcp/services/author/profile_assemble.py:82-103 | the option table, one row per conditional step in the source's order, each row set exactly when the source's test is truthy (no contract of its own; `Shape` and `Length` lemmas state its properties) |
| ProfileAssemble.ProfileAssembleArgs | trestle_mcp/services/author/profile_assemble.py:80-103 | the specification of the builder: `["author", "profile-assemble"]` followed by the rendering of its eleven rows (no contract of its own; the builder, round-trip and shape lemmas state its properties) |
| ProfileAssemble.BuildProfileAssembleArgs | trestle_mcp/services/author/profile_assemble.py:80-103 | the eleven conditional steps after `["author", "profile-assemble"]` build exactly `ProfileAssembleArgs(p)` |
| ProfileAssemble.ProfileAssembleShape | trestle_mcp/services/author/profile_assemble.py:82-103 | the table has the fixed grammar name, markdown, output, set-parameters, regenerate, version, sections, required-sections, allowed-sections, verbose, trestle-root (verbose before the root) |
| ProfileAssemble.ProfileAssembleRoundTrip | trestle_mcp/services/author/profile_assemble.py:13-48 | the vector determines every parameter, up to empty vs None |
| ProfileAssemble.ProfileAssembleParseExact | trestle_mcp/services/author/profile_assemble.py:80-103 | every vector of the grammar is the vector of the parameters it parses to |
| ProfileAssemble.ProfileAssembleFalsyForms | trestle_mcp/services/author/profile_assemble.py:82-103 | an empty optional string gives the same vector as an absent one |
| ProfileAssemble.ProfileAssembleLength | trestle_mcp/services/author/profile_assemble.py:80-103 | the length is 2 plus one per set switch and two per truthy value, the required markdown and output fields included |
| ProfileAssemble.ProfileAssembleArgsShape | trestle_mcp/services/author/profile_assemble.py:80-103 | the vector starts `author profile-assemble`; a truthy name comes next as `--name name`, before `--markdown`; without a name a non-empty markdown directory comes next; a truthy root is the last pair |
| ProfileAssemble.ProfileAssembleBasic | trestle_mcp/services/author/profile_assemble.py:80-87 | the two required fields alone give exactly `author profile-assemble --markdown md --output out` |
| ProfileAssemble.FormatProfileAssemble | trestle_mcp/services/author/profile_assemble.py:107-112 | the marker follows success only; a success report contains "Output: " + output profile and ends with the stripped stdout; a failure report starts with "❌ Failed to assemble profile from markdown", contains "MarkdownDir: " + markdown dir and ends with "Error: " plus the stripped stderr |
| ProfileAssemble.ProfileAssembleReportIgnoresName | trestle_mcp/services/author/profile_assemble.py:107-112 | the profile's name does not affect the report |
| ProfileAssemble.TrestleProfileAssemble | trestle_mcp/services/author/profile_assemble.py:105-112 | the report is the formatted result of running the built vector, and reads as success exactly when the process completed with code 0 |
| ProfileResolve.ProfileResolveOptions | trestle_mcp/services/author/profile_resolve.py:78-93 | the option table, one row per conditional step in the source's order, each row set exactly when the source's test is truthy (no contract of its own; `Shape` and `Length` lemmas state its properties) |
| ProfileResolve.ProfileResolveArgs | trestle_mcp/services/author/profile_resolve.py:76-93 | the specification of the builder: the six required tokens followed by the rendering of its eight option rows (no contract of its own; the builder, round-trip and shape lemmas state its properties) |
| ProfileResolve.BuildProfileResolveArgs | trestle_mcp/services/author/profile_resolve.py:76-93 | the literal prefix grown by the eight conditional steps equals `ProfileResolveArgs(p)` |
| ProfileResolve.ProfileResolveShape | trestle_mcp/services/author/profile_resolve.py:78-93 | the table has the fixed grammar show-values, show-labels, bracket-format, value-assigned-prefix, value-not-assigned-prefix, label-prefix, verbose, trestle-root |
| ProfileResolve.ProfileResolveRoundTrip | trestle_mcp/services/author/profile_resolve.py:13-43 | the vector determines every parameter, up to empty vs None for strings and absent vs false for switches |
| ProfileResolve.ProfileResolveParseExact | trestle_mcp/services/author/profile_resolve.py:76-93 | every vector of the grammar is the vector of the parameters it parses to |
| ProfileResolve.ProfileResolveFalsyForms | trestle_mcp/services/author/profile_resolve.py:78-93 | an empty string and None, and an absent switch and false, give the same vector |
| ProfileResolve.ProfileResolveLength | trestle_mcp/services/author/profile_resolve.py:76-93 | the length is 6 plus one per switch set to true and two per truthy value |
| ProfileResolve.ProfileResolveArgsShape | trestle_mcp/services/author/profile_resolve.py:76-93 | the first six tokens are `author profile-resolve --name name -o output`; a set show-values comes seventh; a truthy root is the last pair |
| ProfileResolve.ProfileResolveMinimal | trestle_mcp/services/author/profile_resolve.py:76 | the required parameters alone give exactly six tokens |
| ProfileResolve.ProfileResolveAllOptions | trestle_mcp/services/author/profile_resolve.py:78-93 | with everything set, the options follow in the source's order; values such as "(.)", "[ASSIGNED]" and "[NOT]" pass through as single unchanged tokens right after their flags |
| ProfileResolve.FormatProfileResolve | trestle_mcp/services/author/profile_resolve.py:97-102 | the marker follows success only; a success report contains "Output: " + output and ends with the stripped stdout; a failure report starts with "❌ Failed to generate catalog markdowns", contains "Catalog: " + name and ends with "Error: " plus the stripped stderr |
| ProfileResolve.ProfileResolveReportsAsCatalog | trestle_mcp/services/author/profile_resolve.py:97-102 | the report is word for word catalog-generate's for a catalog with the same name and output |
| ProfileResolve.TrestleProfileResolve | trestle_mcp/services/author/profile_resolve.py:95-102 | the report is the formatted result of running the built vector, and reads as success exactly when the process completed with code 0 |

## Left out

- Spawning the subprocess, the 60-second timer, `os.getcwd()` and the file system are not modelled. They appear as the `spawn` function and as the `Host` fields `cwd`, `packageRoot` and `pathExists`. How the process is killed on timeout and how a Python exception becomes text (`str(e)`) are outside the model.
- Trestle.RunTrestleCommand: an error raised while resolving the binary is not modelled. `find_trestle_bin()` runs at trestle_mcp/libs/trestle.py:42, before the `try` at line 45. So `Path.cwd()` failing on a deleted working directory, or `Path.exists()` raising (for example `PermissionError`), propagates out of `run_trestle_command` instead of becoming a `Raised` result. The model's `pathExists` oracle is total and cannot raise, so the model does not capture this escape from the failure containment.
- `Path` arithmetic is not modelled. The candidates are the strings `<dir>/.venv/bin/trestle`, and `packageRoot` stands for the directory three levels above the wrapper module. No normalisation of either path is modelled.
- Pydantic validation is not modelled. The inputs are taken as already validated. The `str_strip_whitespace` that five of the six input models configure happens before the builders run, so it is not modelled either. `profile_generate.py` does not configure it.
- Trestle.Envelope: the claim "a -1 returncode implies empty stdout" is stated only for the timeout and error paths. It does not hold for a process that itself exits with -1; `Trestle.SentinelCollides` shows this.
- ProfileAssemble.ProfileAssembleArgsShape: "no `--name` token without a name" is not stated literally. Another field's value may be the text `--name`. The round trip states the sound form: the parser reads the name back as absent.
- InitService.InitArgsShape: the same caveat holds for `--verbose` as the last token. The root's value may itself be `--verbose`, and the lemma states that exception.
- `trestle_mcp/main.py` (MCP registration, transport, async wrappers) and the `__init__.py` re-exports are not part of this model.
- `tests/e2e/test_mcp_server.py` is not part of this model. It drives the real CLI.
- The async/await machinery is not modelled. It has no behaviour of its own in this layer.
