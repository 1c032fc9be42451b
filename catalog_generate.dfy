/**
 * `trestle author catalog-generate`: write a catalog's controls out as markdown.
 */
module CatalogGenerate {
  import opened Argv
  import opened Text
  import opened Report
  import opened Trestle

  /** The validated parameters of the tool. */
  datatype CatalogGenerateInput = CatalogGenerateInput(
    name: string,
    output: string,
    forceOverwrite: bool,
    yamlHeader: Option<string>,
    overwriteHeaderValues: bool,
    trestleRoot: Option<string>,
    verbose: bool)

  /** The required part of the vector. */
  function CatalogGeneratePrefix(p: CatalogGenerateInput): seq<string> {
    ["author", "catalog-generate", "--name", p.name, "--output", p.output]
  }

  /** The optional part of the vector, in the order the tool appends it. */
  function CatalogGenerateOptions(p: CatalogGenerateInput): seq<Opt> {
    [ Switch("--force-overwrite", p.forceOverwrite),
      Valued("--yaml-header", TextOf(p.yamlHeader)),
      Switch("--overwrite-header-values", p.overwriteHeaderValues),
      Valued("--trestle-root", TextOf(p.trestleRoot)),
      Switch("--verbose", p.verbose) ]
  }

  /** The grammar of the optional part, as the parser reads it. */
  const CatalogGenerateSlots: seq<Slot> :=
    [ Slot("--force-overwrite", SwitchKind),
      Slot("--yaml-header", ValuedKind),
      Slot("--overwrite-header-values", SwitchKind),
      Slot("--trestle-root", ValuedKind),
      Slot("--verbose", SwitchKind) ]

  /** The argument vector of the tool (the specification of `BuildCatalogGenerateArgs`). */
  function CatalogGenerateArgs(p: CatalogGenerateInput): seq<string> {
    CatalogGeneratePrefix(p) + Emit(CatalogGenerateOptions(p))
  }

  /** Starts from the subcommand, extends it with the required pairs, then each set option. */
  method BuildCatalogGenerateArgs(p: CatalogGenerateInput) returns (args: seq<string>)
    ensures args == CatalogGenerateArgs(p)
  {
    ghost var head, done: seq<Opt> := CatalogGeneratePrefix(p), [];
    args := ["author", "catalog-generate"];
    args := args + ["--name", p.name];
    args := args + ["--output", p.output];
    assert args == head + Emit(done);
    args, done := PushSwitch(head, done, args, "--force-overwrite", p.forceOverwrite);
    args, done := PushValued(head, done, args, "--yaml-header", p.yamlHeader);
    args, done := PushSwitch(head, done, args, "--overwrite-header-values", p.overwriteHeaderValues);
    args, done := PushValued(head, done, args, "--trestle-root", p.trestleRoot);
    args, done := PushSwitch(head, done, args, "--verbose", p.verbose);
    CatalogGenerateTable(p);
  }

  /** The table, row by row in the order the builder appends the rows. */
  lemma CatalogGenerateTable(p: CatalogGenerateInput)
    ensures ([]
            + [Switch("--force-overwrite", p.forceOverwrite)]
            + [Valued("--yaml-header", TextOf(p.yamlHeader))]
            + [Switch("--overwrite-header-values", p.overwriteHeaderValues)]
            + [Valued("--trestle-root", TextOf(p.trestleRoot))]
            + [Switch("--verbose", p.verbose)])
            == CatalogGenerateOptions(p)
  {
  }

  /** The table's shape is the parser's grammar, whatever the parameters. */
  lemma CatalogGenerateShape(p: CatalogGenerateInput)
    ensures Slots(CatalogGenerateOptions(p)) == CatalogGenerateSlots
  {
  }

  lemma CatalogGenerateDistinct()
    ensures DistinctFlags(CatalogGenerateSlots)
  {
  }

  /** The canonical form of the parameters: falsy optional strings are `None`. */
  function CanonicalCatalogGenerate(p: CatalogGenerateInput): CatalogGenerateInput {
    p.(yamlHeader := Canonical(p.yamlHeader), trestleRoot := Canonical(p.trestleRoot))
  }

  /** Reads an argument vector of the tool back into its parameters. */
  function ParseCatalogGenerateArgs(args: seq<string>): Option<CatalogGenerateInput> {
    if |args| < 6 || args[0] != "author" || args[1] != "catalog-generate" || args[2] != "--name" || args[4] != "--output"
    then None
    else match Decode(CatalogGenerateSlots, args[6..])
      case None => None
      case Some(opts) =>
        Some(CatalogGenerateInput(args[3], args[5], Emitted(opts[0]), OptionalOf(ValueOf(opts[1])),
                                  Emitted(opts[2]), OptionalOf(ValueOf(opts[3])), Emitted(opts[4])))
  }

  /** The vector determines the parameters: parsing it gives them back, up to falsy forms. */
  lemma CatalogGenerateRoundTrip(p: CatalogGenerateInput)
    ensures ParseCatalogGenerateArgs(CatalogGenerateArgs(p)) == Some(CanonicalCatalogGenerate(p))
  {
    var opts := CatalogGenerateOptions(p);
    CatalogGenerateShape(p);
    CatalogGenerateDistinct();
    DecodeEmit(opts);
    SplitAt(CatalogGeneratePrefix(p), Emit(opts));
    TextRoundTrip(p.yamlHeader);
    TextRoundTrip(p.trestleRoot);
  }

  /** Every vector the parser accepts is the vector of the parameters it reads. */
  lemma CatalogGenerateParseExact(args: seq<string>)
    requires ParseCatalogGenerateArgs(args).Some?
    ensures CatalogGenerateArgs(ParseCatalogGenerateArgs(args).value) == args
  {
    var q := ParseCatalogGenerateArgs(args).value;
    var opts := Decode(CatalogGenerateSlots, args[6..]).value;
    EmitDecode(CatalogGenerateSlots, args[6..]);
    assert |opts| == 5;
    SwitchRead(opts[0], "--force-overwrite");
    ValuedRead(opts[1], "--yaml-header");
    SwitchRead(opts[2], "--overwrite-header-values");
    ValuedRead(opts[3], "--trestle-root");
    SwitchRead(opts[4], "--verbose");
    Rows5(opts, Switch("--force-overwrite", q.forceOverwrite), Valued("--yaml-header", TextOf(q.yamlHeader)),
          Switch("--overwrite-header-values", q.overwriteHeaderValues),
          Valued("--trestle-root", TextOf(q.trestleRoot)), Switch("--verbose", q.verbose));
    Head6(args, "author", "catalog-generate", "--name", q.name, "--output", q.output);
    Rejoin(args, 6);
  }

  /**
   * An empty optional string is indistinguishable from an absent one: the
   * truthiness test emits nothing for either.
   */
  lemma CatalogGenerateFalsyForms(p: CatalogGenerateInput)
    ensures CatalogGenerateArgs(CanonicalCatalogGenerate(p)) == CatalogGenerateArgs(p)
  {
    CatalogGenerateRoundTrip(p);
    CatalogGenerateParseExact(CatalogGenerateArgs(p));
  }

  /**
   * The length of the vector: the six required tokens, then one token per
   * set switch and two per set value, so only the options that are set add
   * anything.
   */
  lemma CatalogGenerateLength(p: CatalogGenerateInput)
    ensures |CatalogGenerateArgs(p)| == 6 + (if p.forceOverwrite then 1 else 0) + (if Truthy(p.yamlHeader) then 2 else 0)
                     + (if p.overwriteHeaderValues then 1 else 0) + (if Truthy(p.trestleRoot) then 2 else 0)
                     + (if p.verbose then 1 else 0)
  {
    Width5(Switch("--force-overwrite", p.forceOverwrite),
      Valued("--yaml-header", TextOf(p.yamlHeader)),
      Switch("--overwrite-header-values", p.overwriteHeaderValues),
      Valued("--trestle-root", TextOf(p.trestleRoot)),
      Switch("--verbose", p.verbose));
    SwitchWidth("--force-overwrite", p.forceOverwrite);
    ValuedWidth("--yaml-header", p.yamlHeader);
    SwitchWidth("--overwrite-header-values", p.overwriteHeaderValues);
    ValuedWidth("--trestle-root", p.trestleRoot);
    SwitchWidth("--verbose", p.verbose);
  }

  /**
   * The ends of the vector: the six required tokens come first, a set
   * "--force-overwrite" follows them, and a set "--verbose" is last.
   */
  lemma CatalogGenerateArgsShape(p: CatalogGenerateInput)
    ensures var args := CatalogGenerateArgs(p);
      && args[..6] == ["author", "catalog-generate", "--name", p.name, "--output", p.output]
      && (p.forceOverwrite ==> args[6] == "--force-overwrite")
      && (p.verbose ==> args[|args| - 1] == "--verbose")
  {
    EmitLast(CatalogGenerateOptions(p));
  }

  /** With only the required parameters, exactly the six required tokens. */
  lemma CatalogGenerateMinimal(name: string, output: string)
    ensures CatalogGenerateArgs(CatalogGenerateInput(name, output, false, None, false, None, false))
      == ["author", "catalog-generate", "--name", name, "--output", output]
  {
    EmitNone(CatalogGenerateOptions(CatalogGenerateInput(name, output, false, None, false, None, false)));
  }

  /** With every option set, the options follow in their fixed order, each value after its flag. */
  lemma CatalogGenerateAllOptions(name: string, output: string, header: string, root: string)
    requires header != "" && root != ""
    ensures CatalogGenerateArgs(CatalogGenerateInput(name, output, true, Some(header), true, Some(root), true))
      == ["author", "catalog-generate", "--name", name, "--output", output,
          "--force-overwrite", "--yaml-header", header, "--overwrite-header-values",
          "--trestle-root", root, "--verbose"]
  {
    var opts := CatalogGenerateOptions(CatalogGenerateInput(name, output, true, Some(header), true, Some(root), true));
    assert opts[..0] == [];
    EmitStep(opts, 0);
    EmitStep(opts, 1);
    EmitStep(opts, 2);
    EmitStep(opts, 3);
    EmitStep(opts, 4);
    EmitWhole(opts, 5);
  }

  const CatalogGenerateSucceeded: string := [SuccessMark] + " Catalog controls generated as markdown successfully"
  const CatalogGenerateFailed: string := FailedPrefix + " to generate catalog markdowns"

  /**
   * The report of a run: on success the headline, the output folder and the
   * stripped output; on failure the headline, the catalog's name and the
   * stripped error text.
   */
  function FormatCatalogGenerate(r: CommandResult, p: CatalogGenerateInput): (msg: string)
    ensures ReportsSuccess(msg) <==> r.success
    ensures ReportsFailure(msg) <==> !r.success
    ensures r.success ==>
      StartsWith(msg, CatalogGenerateSucceeded) && Contains(msg, "Output: " + p.output) && EndsWith(msg, Strip(r.stdout))
    ensures !r.success ==>
      StartsWith(msg, CatalogGenerateFailed) && Contains(msg, "Catalog: " + p.name) && EndsWith(msg, "Error: " + Strip(r.stderr))
  {
    if r.success then
      Compose(CatalogGenerateSucceeded, "Output: " + p.output, "\n\n", Strip(r.stdout))
    else
      var msg := Compose(CatalogGenerateFailed, "Catalog: " + p.name, "\n", "Error: " + Strip(r.stderr));
      FailureHeadline(" to generate catalog markdowns", msg);
      msg
  }

  /** The tool: build the vector, run it in the process's directory, report. */
  method TrestleCatalogGenerate(p: CatalogGenerateInput, host: Host, spawn: Invocation -> Outcome)
    returns (msg: string)
    ensures msg == FormatCatalogGenerate(RunResult(CatalogGenerateArgs(p), None, host, spawn), p)
    ensures var o := spawn(CommandLine(CatalogGenerateArgs(p), None, host));
      ReportsSuccess(msg) <==> o.Completed? && o.code == 0
  {
    var args := BuildCatalogGenerateArgs(p);
    var result := RunTrestleCommand(args, None, host, spawn);
    msg := FormatCatalogGenerate(result, p);
  }
}
