/**
 * `trestle import`: import an OSCAL model from a file path or URL.
 */
module ImportService {
  import opened Argv
  import opened Text
  import opened Report
  import opened Trestle

  /** The validated parameters of the tool. */
  datatype ImportInput = ImportInput(
    file: string,
    output: string,
    regenerate: bool,
    trestleRoot: Option<string>,
    verbose: bool)

  /** The required part of the vector. */
  function ImportPrefix(p: ImportInput): seq<string> {
    ["import", "-f", p.file, "-o", p.output]
  }

  /** The optional part of the vector, in the order the tool appends it. */
  function ImportOptions(p: ImportInput): seq<Opt> {
    [ Switch("--regenerate", p.regenerate),
      Valued("--trestle-root", TextOf(p.trestleRoot)),
      Switch("--verbose", p.verbose) ]
  }

  /** The grammar of the optional part, as the parser reads it. */
  const ImportSlots: seq<Slot> :=
    [Slot("--regenerate", SwitchKind), Slot("--trestle-root", ValuedKind), Slot("--verbose", SwitchKind)]

  /** The argument vector of the tool (the specification of `BuildImportArgs`). */
  function ImportArgs(p: ImportInput): seq<string> {
    ImportPrefix(p) + Emit(ImportOptions(p))
  }

  /** Starts from the required tokens and appends each set option in turn. */
  method BuildImportArgs(p: ImportInput) returns (args: seq<string>)
    ensures args == ImportArgs(p)
  {
    ghost var head, done: seq<Opt> := ImportPrefix(p), [];
    args := ["import", "-f", p.file, "-o", p.output];
    assert args == head + Emit(done);
    args, done := PushSwitch(head, done, args, "--regenerate", p.regenerate);
    args, done := PushValued(head, done, args, "--trestle-root", p.trestleRoot);
    args, done := PushSwitch(head, done, args, "--verbose", p.verbose);
    ImportTable(p);
  }

  /** The rendering of the table, row by row. */
  lemma ImportRows(p: ImportInput)
    ensures var opts := ImportOptions(p);
      Emit(opts) == Tokens(opts[0]) + Tokens(opts[1]) + Tokens(opts[2])
  {
    var opts := ImportOptions(p);
    EmitAt(opts, 0);
    EmitAt(opts, 1);
    EmitAt(opts, 2);
    assert opts[0..] == opts && opts[3..] == [];
  }

  /** The table, row by row in the order the builder appends the rows. */
  lemma ImportTable(p: ImportInput)
    ensures ([]
            + [Switch("--regenerate", p.regenerate)]
            + [Valued("--trestle-root", TextOf(p.trestleRoot))]
            + [Switch("--verbose", p.verbose)])
            == ImportOptions(p)
  {
  }

  lemma ImportGrammar(p: ImportInput)
    ensures Slots(ImportOptions(p)) == ImportSlots && DistinctFlags(ImportSlots)
  {
  }

  /** The canonical form of the parameters: a falsy root is `None`. */
  function CanonicalImport(p: ImportInput): ImportInput {
    p.(trestleRoot := Canonical(p.trestleRoot))
  }

  /** Reads an argument vector of the tool back into its parameters. */
  function ParseImportArgs(args: seq<string>): Option<ImportInput> {
    if |args| < 5 || args[0] != "import" || args[1] != "-f" || args[3] != "-o" then None
    else match Decode(ImportSlots, args[5..])
      case None => None
      case Some(opts) =>
        Some(ImportInput(args[2], args[4], Emitted(opts[0]), OptionalOf(ValueOf(opts[1])), Emitted(opts[2])))
  }

  /** The vector determines the parameters: parsing it gives them back, up to falsy forms. */
  lemma ImportRoundTrip(p: ImportInput)
    ensures ParseImportArgs(ImportArgs(p)) == Some(CanonicalImport(p))
  {
    var opts := ImportOptions(p);
    ImportGrammar(p);
    DecodeEmit(opts);
    assert ImportArgs(p)[5..] == Emit(opts);
  }

  /** Every vector the parser accepts is the vector of the parameters it reads. */
  lemma ImportParseExact(args: seq<string>)
    requires ParseImportArgs(args).Some?
    ensures ImportArgs(ParseImportArgs(args).value) == args
  {
    var q := ParseImportArgs(args).value;
    var opts := Decode(ImportSlots, args[5..]).value;
    EmitDecode(ImportSlots, args[5..]);
    assert ImportOptions(q) == opts;
    assert args == args[..5] + args[5..];
  }

  /**
   * The shape of the vector: the five required tokens (the file as one intact
   * token), then one token per set switch and two for a set root, so that
   * its length counts exactly the options that are set.
   */
  lemma ImportArgsShape(p: ImportInput)
    ensures var args := ImportArgs(p);
      && args[..5] == ["import", "-f", p.file, "-o", p.output]
      && |args| == 5 + (if p.regenerate then 1 else 0) + (if Truthy(p.trestleRoot) then 2 else 0)
                     + (if p.verbose then 1 else 0)
      && (!p.regenerate && !Truthy(p.trestleRoot) && !p.verbose ==> |args| == 5)
      && (p.regenerate ==> args[5] == "--regenerate")
      && (p.verbose ==> args[|args| - 1] == "--verbose")
  {
    ImportRows(p);
  }

  /** With every option set, the tail is exactly regenerate, root and verbose, in that order. */
  lemma ImportAllOptions(file: string, output: string, root: string)
    requires root != ""
    ensures ImportArgs(ImportInput(file, output, true, Some(root), true))
      == ["import", "-f", file, "-o", output, "--regenerate", "--trestle-root", root, "--verbose"]
  {
    ImportRows(ImportInput(file, output, true, Some(root), true));
  }

  const ImportSucceeded: string := [SuccessMark] + " OSCAL model imported successfully"
  const ImportFailed: string := FailedPrefix + " to import OSCAL model"

  /**
   * The report of a run: on success the headline, the output element's name
   * and the stripped output; on failure the headline, the imported file and
   * the stripped error text.
   */
  function FormatImport(r: CommandResult, p: ImportInput): (msg: string)
    ensures ReportsSuccess(msg) <==> r.success
    ensures ReportsFailure(msg) <==> !r.success
    ensures r.success ==>
      StartsWith(msg, ImportSucceeded) && Contains(msg, "Output: " + p.output) && EndsWith(msg, Strip(r.stdout))
    ensures !r.success ==>
      StartsWith(msg, ImportFailed) && Contains(msg, "File: " + p.file) && EndsWith(msg, "Error: " + Strip(r.stderr))
  {
    if r.success then
      Compose(ImportSucceeded, "Output: " + p.output, "\n\n", Strip(r.stdout))
    else
      var msg := Compose(ImportFailed, "File: " + p.file, "\n", "Error: " + Strip(r.stderr));
      FailureHeadline(" to import OSCAL model", msg);
      msg
  }

  /** The tool: build the vector, run it in the process's directory, report. */
  method TrestleImport(p: ImportInput, host: Host, spawn: Invocation -> Outcome) returns (msg: string)
    ensures msg == FormatImport(RunResult(ImportArgs(p), None, host, spawn), p)
    ensures var o := spawn(CommandLine(ImportArgs(p), None, host));
      ReportsSuccess(msg) <==> o.Completed? && o.code == 0
  {
    var args := BuildImportArgs(p);
    var result := RunTrestleCommand(args, None, host, spawn);
    msg := FormatImport(result, p);
  }
}
