/**
 * `trestle author profile-generate`: write the controls a profile selects out
 * as markdown.
 */
module ProfileGenerate {
  import opened Argv
  import opened Text
  import opened Report
  import opened Trestle

  /** The validated parameters of the tool (this record does not strip whitespace). */
  datatype ProfileGenerateInput = ProfileGenerateInput(
    name: string,
    output: string,
    yamlHeader: Option<string>,
    forceOverwrite: bool,
    overwriteHeaderValues: bool,
    sections: Option<string>,
    requiredSections: Option<string>,
    trestleRoot: Option<string>,
    verbose: bool)

  /** The required part of the vector: a short `-n` for the name, a long `--output`. */
  function ProfileGeneratePrefix(p: ProfileGenerateInput): seq<string> {
    ["author", "profile-generate", "-n", p.name, "--output", p.output]
  }

  /** The optional part of the vector, in the order the tool appends it. */
  function ProfileGenerateOptions(p: ProfileGenerateInput): seq<Opt> {
    [ Valued("--yaml-header", TextOf(p.yamlHeader)),
      Switch("--force-overwrite", p.forceOverwrite),
      Switch("--overwrite-header-values", p.overwriteHeaderValues),
      Valued("--sections", TextOf(p.sections)),
      Valued("--required-sections", TextOf(p.requiredSections)),
      Valued("--trestle-root", TextOf(p.trestleRoot)),
      Switch("--verbose", p.verbose) ]
  }

  /** The grammar of the optional part, as the parser reads it. */
  const ProfileGenerateSlots: seq<Slot> :=
    [ Slot("--yaml-header", ValuedKind),
      Slot("--force-overwrite", SwitchKind),
      Slot("--overwrite-header-values", SwitchKind),
      Slot("--sections", ValuedKind),
      Slot("--required-sections", ValuedKind),
      Slot("--trestle-root", ValuedKind),
      Slot("--verbose", SwitchKind) ]

  /** The argument vector of the tool (the specification of `BuildProfileGenerateArgs`). */
  function ProfileGenerateArgs(p: ProfileGenerateInput): seq<string> {
    ProfileGeneratePrefix(p) + Emit(ProfileGenerateOptions(p))
  }

  /** Starts from the subcommand, extends it with the required pairs, then each set option. */
  method BuildProfileGenerateArgs(p: ProfileGenerateInput) returns (args: seq<string>)
    ensures args == ProfileGenerateArgs(p)
  {
    ghost var head, done: seq<Opt> := ProfileGeneratePrefix(p), [];
    args := ["author", "profile-generate"];
    args := args + ["-n", p.name];
    args := args + ["--output", p.output];
    assert args == head + Emit(done);
    args, done := PushValued(head, done, args, "--yaml-header", p.yamlHeader);
    args, done := PushSwitch(head, done, args, "--force-overwrite", p.forceOverwrite);
    args, done := PushSwitch(head, done, args, "--overwrite-header-values", p.overwriteHeaderValues);
    args, done := PushValued(head, done, args, "--sections", p.sections);
    args, done := PushValued(head, done, args, "--required-sections", p.requiredSections);
    args, done := PushValued(head, done, args, "--trestle-root", p.trestleRoot);
    args, done := PushSwitch(head, done, args, "--verbose", p.verbose);
    ProfileGenerateTable(p);
  }

  /** The table, row by row in the order the builder appends the rows. */
  lemma ProfileGenerateTable(p: ProfileGenerateInput)
    ensures ([]
            + [Valued("--yaml-header", TextOf(p.yamlHeader))]
            + [Switch("--force-overwrite", p.forceOverwrite)]
            + [Switch("--overwrite-header-values", p.overwriteHeaderValues)]
            + [Valued("--sections", TextOf(p.sections))]
            + [Valued("--required-sections", TextOf(p.requiredSections))]
            + [Valued("--trestle-root", TextOf(p.trestleRoot))]
            + [Switch("--verbose", p.verbose)])
            == ProfileGenerateOptions(p)
  {
  }

  /** The table's shape is the parser's grammar, whatever the parameters. */
  lemma ProfileGenerateShape(p: ProfileGenerateInput)
    ensures Slots(ProfileGenerateOptions(p)) == ProfileGenerateSlots
  {
  }

  lemma ProfileGenerateDistinct()
    ensures DistinctFlags(ProfileGenerateSlots)
  {
  }

  /** The canonical form of the parameters: falsy optional strings are `None`. */
  function CanonicalProfileGenerate(p: ProfileGenerateInput): ProfileGenerateInput {
    p.(yamlHeader := Canonical(p.yamlHeader), sections := Canonical(p.sections),
       requiredSections := Canonical(p.requiredSections), trestleRoot := Canonical(p.trestleRoot))
  }

  /** Reads an argument vector of the tool back into its parameters. */
  function ParseProfileGenerateArgs(args: seq<string>): Option<ProfileGenerateInput> {
    if |args| < 6 || args[0] != "author" || args[1] != "profile-generate" || args[2] != "-n" || args[4] != "--output"
    then None
    else match Decode(ProfileGenerateSlots, args[6..])
      case None => None
      case Some(opts) =>
        Some(ProfileGenerateInput(args[3], args[5], OptionalOf(ValueOf(opts[0])), Emitted(opts[1]),
                                  Emitted(opts[2]), OptionalOf(ValueOf(opts[3])),
                                  OptionalOf(ValueOf(opts[4])), OptionalOf(ValueOf(opts[5])),
                                  Emitted(opts[6])))
  }

  /** The vector determines the parameters: parsing it gives them back, up to falsy forms. */
  lemma ProfileGenerateRoundTrip(p: ProfileGenerateInput)
    ensures ParseProfileGenerateArgs(ProfileGenerateArgs(p)) == Some(CanonicalProfileGenerate(p))
  {
    var args, opts := ProfileGenerateArgs(p), ProfileGenerateOptions(p);
    ProfileGenerateShape(p);
    ProfileGenerateDistinct();
    DecodeEmit(opts);
    SplitAt(ProfileGeneratePrefix(p), Emit(opts));
    TextRoundTrip(p.yamlHeader);
    TextRoundTrip(p.sections);
    TextRoundTrip(p.requiredSections);
    TextRoundTrip(p.trestleRoot);
  }

  /** Every vector the parser accepts is the vector of the parameters it reads. */
  lemma ProfileGenerateParseExact(args: seq<string>)
    requires ParseProfileGenerateArgs(args).Some?
    ensures ProfileGenerateArgs(ParseProfileGenerateArgs(args).value) == args
  {
    var q := ParseProfileGenerateArgs(args).value;
    var opts := Decode(ProfileGenerateSlots, args[6..]).value;
    EmitDecode(ProfileGenerateSlots, args[6..]);
    assert |opts| == 7;
    ValuedRead(opts[0], "--yaml-header");
    SwitchRead(opts[1], "--force-overwrite");
    SwitchRead(opts[2], "--overwrite-header-values");
    ValuedRead(opts[3], "--sections");
    ValuedRead(opts[4], "--required-sections");
    ValuedRead(opts[5], "--trestle-root");
    SwitchRead(opts[6], "--verbose");
    assert q == ProfileGenerateInput(args[3], args[5], OptionalOf(ValueOf(opts[0])), Emitted(opts[1]),
                                     Emitted(opts[2]), OptionalOf(ValueOf(opts[3])),
                                     OptionalOf(ValueOf(opts[4])), OptionalOf(ValueOf(opts[5])),
                                     Emitted(opts[6]));
    Rows7(opts, Valued("--yaml-header", TextOf(q.yamlHeader)), Switch("--force-overwrite", q.forceOverwrite),
          Switch("--overwrite-header-values", q.overwriteHeaderValues), Valued("--sections", TextOf(q.sections)),
          Valued("--required-sections", TextOf(q.requiredSections)),
          Valued("--trestle-root", TextOf(q.trestleRoot)), Switch("--verbose", q.verbose));
    Head6(args, "author", "profile-generate", "-n", q.name, "--output", q.output);
    Rejoin(args, 6);
  }

  /**
   * An empty optional string is indistinguishable from an absent one: the
   * truthiness test emits nothing for either.
   */
  lemma ProfileGenerateFalsyForms(p: ProfileGenerateInput)
    ensures ProfileGenerateArgs(CanonicalProfileGenerate(p)) == ProfileGenerateArgs(p)
  {
    ProfileGenerateRoundTrip(p);
    ProfileGenerateParseExact(ProfileGenerateArgs(p));
  }

  /**
   * The length of the vector: the six required tokens, then one token per
   * set switch and two per set value, so only the options that are set add
   * anything.
   */
  lemma ProfileGenerateLength(p: ProfileGenerateInput)
    ensures |ProfileGenerateArgs(p)| == 6 + (if Truthy(p.yamlHeader) then 2 else 0) + (if p.forceOverwrite then 1 else 0)
                     + (if p.overwriteHeaderValues then 1 else 0) + (if Truthy(p.sections) then 2 else 0)
                     + (if Truthy(p.requiredSections) then 2 else 0) + (if Truthy(p.trestleRoot) then 2 else 0)
                     + (if p.verbose then 1 else 0)
  {
    Width7(Valued("--yaml-header", TextOf(p.yamlHeader)),
      Switch("--force-overwrite", p.forceOverwrite),
      Switch("--overwrite-header-values", p.overwriteHeaderValues),
      Valued("--sections", TextOf(p.sections)),
      Valued("--required-sections", TextOf(p.requiredSections)),
      Valued("--trestle-root", TextOf(p.trestleRoot)),
      Switch("--verbose", p.verbose));
    ValuedWidth("--yaml-header", p.yamlHeader);
    SwitchWidth("--force-overwrite", p.forceOverwrite);
    SwitchWidth("--overwrite-header-values", p.overwriteHeaderValues);
    ValuedWidth("--sections", p.sections);
    ValuedWidth("--required-sections", p.requiredSections);
    ValuedWidth("--trestle-root", p.trestleRoot);
    SwitchWidth("--verbose", p.verbose);
  }

  /**
   * The ends of the vector: the six required tokens come first, a set YAML
   * header follows them as flag and value, and a set "--verbose" is last.
   */
  lemma ProfileGenerateArgsShape(p: ProfileGenerateInput)
    ensures var args := ProfileGenerateArgs(p);
      && args[..6] == ["author", "profile-generate", "-n", p.name, "--output", p.output]
      && (Truthy(p.yamlHeader) ==> args[6..8] == ["--yaml-header", p.yamlHeader.value])
      && (p.verbose ==> args[|args| - 1] == "--verbose")
  {
    var opts := ProfileGenerateOptions(p);
    EmitLast(opts);
  }

  /** With only the required parameters, exactly the six required tokens. */
  lemma ProfileGenerateMinimal(name: string, output: string)
    ensures ProfileGenerateArgs(ProfileGenerateInput(name, output, None, false, false, None, None, None, false))
      == ["author", "profile-generate", "-n", name, "--output", output]
  {
    EmitNone(ProfileGenerateOptions(ProfileGenerateInput(name, output, None, false, false, None, None, None, false)));
  }

  /** Partial options add only their own tokens: sections and verbose alone. */
  lemma ProfileGenerateSectionsVerbose(name: string, output: string, sections: string)
    requires sections != ""
    ensures ProfileGenerateArgs(ProfileGenerateInput(name, output, None, false, false, Some(sections), None, None, true))
      == ["author", "profile-generate", "-n", name, "--output", output, "--sections", sections, "--verbose"]
  {
    var opts := ProfileGenerateOptions(ProfileGenerateInput(name, output, None, false, false, Some(sections), None, None, true));
    EmitFirstAll(opts);
    assert EmitFirst(opts, 1) == [];
    assert EmitFirst(opts, 2) == [];
    assert EmitFirst(opts, 3) == [];
    assert EmitFirst(opts, 4) == ["--sections", sections];
    assert EmitFirst(opts, 5) == ["--sections", sections];
    assert EmitFirst(opts, 6) == ["--sections", sections];
  }

  /** With every option set, the options follow in their fixed order, each value after its flag. */
  lemma ProfileGenerateAllOptions(name: string, output: string, header: string, sections: string,
                                  required: string, root: string)
    requires header != "" && sections != "" && required != "" && root != ""
    ensures ProfileGenerateArgs(ProfileGenerateInput(name, output, Some(header), true, true, Some(sections),
                                                     Some(required), Some(root), true))
      == ["author", "profile-generate", "-n", name, "--output", output,
          "--yaml-header", header, "--force-overwrite", "--overwrite-header-values",
          "--sections", sections, "--required-sections", required,
          "--trestle-root", root, "--verbose"]
  {
    var opts := ProfileGenerateOptions(ProfileGenerateInput(name, output, Some(header), true, true, Some(sections),
                                                            Some(required), Some(root), true));
    assert opts[..0] == [];
    EmitStep(opts, 0);
    EmitStep(opts, 1);
    EmitStep(opts, 2);
    EmitStep(opts, 3);
    EmitStep(opts, 4);
    EmitStep(opts, 5);
    EmitStep(opts, 6);
    EmitWhole(opts, 7);
  }

  const ProfileGenerateSucceeded: string := [SuccessMark] + " Profile-based markdown controls generated successfully"
  const ProfileGenerateFailed: string := FailedPrefix + " to generate profile-based markdowns"

  /**
   * The report of a run: on success the headline, the output folder and the
   * stripped output; on failure the headline, the profile's name and the
   * stripped error text.
   */
  function FormatProfileGenerate(r: CommandResult, p: ProfileGenerateInput): (msg: string)
    ensures ReportsSuccess(msg) <==> r.success
    ensures ReportsFailure(msg) <==> !r.success
    ensures r.success ==>
      StartsWith(msg, ProfileGenerateSucceeded) && Contains(msg, "Output: " + p.output) && EndsWith(msg, Strip(r.stdout))
    ensures !r.success ==>
      StartsWith(msg, ProfileGenerateFailed) && Contains(msg, "Profile: " + p.name) && EndsWith(msg, "Error: " + Strip(r.stderr))
  {
    if r.success then
      Compose(ProfileGenerateSucceeded, "Output: " + p.output, "\n\n", Strip(r.stdout))
    else
      var msg := Compose(ProfileGenerateFailed, "Profile: " + p.name, "\n", "Error: " + Strip(r.stderr));
      FailureHeadline(" to generate profile-based markdowns", msg);
      msg
  }

  /** The tool: build the vector, run it in the process's directory, report. */
  method TrestleProfileGenerate(p: ProfileGenerateInput, host: Host, spawn: Invocation -> Outcome)
    returns (msg: string)
    ensures msg == FormatProfileGenerate(RunResult(ProfileGenerateArgs(p), None, host, spawn), p)
    ensures var o := spawn(CommandLine(ProfileGenerateArgs(p), None, host));
      ReportsSuccess(msg) <==> o.Completed? && o.code == 0
  {
    var args := BuildProfileGenerateArgs(p);
    var result := RunTrestleCommand(args, None, host, spawn);
    msg := FormatProfileGenerate(result, p);
  }
}
