/**
 * `trestle author profile-assemble`: assemble a profile's JSON from a
 * directory of markdown controls.
 */
module ProfileAssemble {
  import opened Argv
  import opened Text
  import opened Report
  import opened Trestle

  /**
   * The validated parameters of the tool. The markdown directory and the
   * output profile are required, but the tool still appends each of them
   * only when it is non-empty.
   */
  datatype ProfileAssembleInput = ProfileAssembleInput(
    markdownDir: string,
    outputProfile: string,
    name: Option<string>,
    setParameters: bool,
    regenerate: bool,
    version: Option<string>,
    sections: Option<string>,
    requiredSections: Option<string>,
    allowedSections: Option<string>,
    verbose: bool,
    trestleRoot: Option<string>)

  /** The fixed part of the vector: only the subcommand. */
  const ProfileAssemblePrefix: seq<string> := ["author", "profile-assemble"]

  /** The rest of the vector, in the order the tool appends it. */
  function ProfileAssembleOptions(p: ProfileAssembleInput): seq<Opt> {
    [ Valued("--name", TextOf(p.name)),
      Valued("--markdown", p.markdownDir),
      Valued("--output", p.outputProfile),
      Switch("--set-parameters", p.setParameters),
      Switch("--regenerate", p.regenerate),
      Valued("--version", TextOf(p.version)),
      Valued("--sections", TextOf(p.sections)),
      Valued("--required-sections", TextOf(p.requiredSections)),
      Valued("--allowed-sections", TextOf(p.allowedSections)),
      Switch("--verbose", p.verbose),
      Valued("--trestle-root", TextOf(p.trestleRoot)) ]
  }

  /** The grammar of the rest of the vector, as the parser reads it. */
  const ProfileAssembleSlots: seq<Slot> :=
    [ Slot("--name", ValuedKind),
      Slot("--markdown", ValuedKind),
      Slot("--output", ValuedKind),
      Slot("--set-parameters", SwitchKind),
      Slot("--regenerate", SwitchKind),
      Slot("--version", ValuedKind),
      Slot("--sections", ValuedKind),
      Slot("--required-sections", ValuedKind),
      Slot("--allowed-sections", ValuedKind),
      Slot("--verbose", SwitchKind),
      Slot("--trestle-root", ValuedKind) ]

  /** The argument vector of the tool (the specification of `BuildProfileAssembleArgs`). */
  function ProfileAssembleArgs(p: ProfileAssembleInput): seq<string> {
    ProfileAssemblePrefix + Emit(ProfileAssembleOptions(p))
  }

  /** Starts from the subcommand and appends each parameter that is set, in turn. */
  method BuildProfileAssembleArgs(p: ProfileAssembleInput) returns (args: seq<string>)
    ensures args == ProfileAssembleArgs(p)
  {
    ghost var head, done: seq<Opt> := ProfileAssemblePrefix, [];
    args := ["author", "profile-assemble"];
    assert args == head + Emit(done);
    args, done := PushValued(head, done, args, "--name", p.name);
    args, done := PushText(head, done, args, "--markdown", p.markdownDir);
    args, done := PushText(head, done, args, "--output", p.outputProfile);
    args, done := PushSwitch(head, done, args, "--set-parameters", p.setParameters);
    args, done := PushSwitch(head, done, args, "--regenerate", p.regenerate);
    args, done := PushValued(head, done, args, "--version", p.version);
    args, done := PushValued(head, done, args, "--sections", p.sections);
    args, done := PushValued(head, done, args, "--required-sections", p.requiredSections);
    args, done := PushValued(head, done, args, "--allowed-sections", p.allowedSections);
    args, done := PushSwitch(head, done, args, "--verbose", p.verbose);
    args, done := PushValued(head, done, args, "--trestle-root", p.trestleRoot);
    ProfileAssembleTable(p);
  }

  /** The table, row by row in the order the builder appends the rows. */
  lemma ProfileAssembleTable(p: ProfileAssembleInput)
    ensures ([]
            + [Valued("--name", TextOf(p.name))]
            + [Valued("--markdown", p.markdownDir)]
            + [Valued("--output", p.outputProfile)]
            + [Switch("--set-parameters", p.setParameters)]
            + [Switch("--regenerate", p.regenerate)]
            + [Valued("--version", TextOf(p.version))]
            + [Valued("--sections", TextOf(p.sections))]
            + [Valued("--required-sections", TextOf(p.requiredSections))]
            + [Valued("--allowed-sections", TextOf(p.allowedSections))]
            + [Switch("--verbose", p.verbose)]
            + [Valued("--trestle-root", TextOf(p.trestleRoot))])
            == ProfileAssembleOptions(p)
  {
  }

  /** The table's shape is the parser's grammar, whatever the parameters. */
  lemma ProfileAssembleShape(p: ProfileAssembleInput)
    ensures Slots(ProfileAssembleOptions(p)) == ProfileAssembleSlots
  {
  }

  lemma ProfileAssembleDistinct()
    ensures DistinctFlags(ProfileAssembleSlots)
  {
    var front, back := ProfileAssembleSlots[..5], ProfileAssembleSlots[5..];
    assert DistinctFlags(front);
    assert DistinctFlags(back);
    DistinctJoin(front, back);
    assert front + back == ProfileAssembleSlots;
  }

  /** The canonical form of the parameters: falsy optional strings are `None`. */
  function CanonicalProfileAssemble(p: ProfileAssembleInput): ProfileAssembleInput {
    p.(name := Canonical(p.name), version := Canonical(p.version), sections := Canonical(p.sections),
       requiredSections := Canonical(p.requiredSections), allowedSections := Canonical(p.allowedSections),
       trestleRoot := Canonical(p.trestleRoot))
  }

  /**
   * Reads an argument vector of the tool back into its parameters; a
   * missing "--markdown" or "--output" reads as the empty string.
   */
  function ParseProfileAssembleArgs(args: seq<string>): Option<ProfileAssembleInput> {
    if |args| < 2 || args[0] != "author" || args[1] != "profile-assemble" then None
    else match Decode(ProfileAssembleSlots, args[2..])
      case None => None
      case Some(opts) =>
        Some(ProfileAssembleInput(ValueOf(opts[1]), ValueOf(opts[2]), OptionalOf(ValueOf(opts[0])),
                                  Emitted(opts[3]), Emitted(opts[4]), OptionalOf(ValueOf(opts[5])),
                                  OptionalOf(ValueOf(opts[6])), OptionalOf(ValueOf(opts[7])),
                                  OptionalOf(ValueOf(opts[8])), Emitted(opts[9]), OptionalOf(ValueOf(opts[10]))))
  }

  /** The vector determines the parameters: parsing it gives them back, up to falsy forms. */
  lemma ProfileAssembleRoundTrip(p: ProfileAssembleInput)
    ensures ParseProfileAssembleArgs(ProfileAssembleArgs(p)) == Some(CanonicalProfileAssemble(p))
  {
    var opts := ProfileAssembleOptions(p);
    ProfileAssembleShape(p);
    ProfileAssembleDistinct();
    DecodeEmit(opts);
    SplitAt(ProfileAssemblePrefix, Emit(opts));
    TextRoundTrip(p.name);
    TextRoundTrip(p.version);
    TextRoundTrip(p.sections);
    TextRoundTrip(p.requiredSections);
    TextRoundTrip(p.allowedSections);
    TextRoundTrip(p.trestleRoot);
  }

  /** Every vector the parser accepts is the vector of the parameters it reads. */
  lemma ProfileAssembleParseExact(args: seq<string>)
    requires ParseProfileAssembleArgs(args).Some?
    ensures ProfileAssembleArgs(ParseProfileAssembleArgs(args).value) == args
  {
    var q := ParseProfileAssembleArgs(args).value;
    var opts := Decode(ProfileAssembleSlots, args[2..]).value;
    EmitDecode(ProfileAssembleSlots, args[2..]);
    assert |opts| == 11;
    ValuedRead(opts[0], "--name");
    ValuedRead(opts[1], "--markdown");
    ValuedRead(opts[2], "--output");
    SwitchRead(opts[3], "--set-parameters");
    SwitchRead(opts[4], "--regenerate");
    ValuedRead(opts[5], "--version");
    ValuedRead(opts[6], "--sections");
    ValuedRead(opts[7], "--required-sections");
    ValuedRead(opts[8], "--allowed-sections");
    SwitchRead(opts[9], "--verbose");
    ValuedRead(opts[10], "--trestle-root");
    Rows11(opts, Valued("--name", TextOf(q.name)), Valued("--markdown", q.markdownDir),
           Valued("--output", q.outputProfile), Switch("--set-parameters", q.setParameters),
           Switch("--regenerate", q.regenerate), Valued("--version", TextOf(q.version)),
           Valued("--sections", TextOf(q.sections)), Valued("--required-sections", TextOf(q.requiredSections)),
           Valued("--allowed-sections", TextOf(q.allowedSections)), Switch("--verbose", q.verbose),
           Valued("--trestle-root", TextOf(q.trestleRoot)));
    Head2(args, "author", "profile-assemble");
    Rejoin(args, 2);
  }

  /**
   * An empty optional string is indistinguishable from an absent one: the
   * truthiness test emits nothing for either.
   */
  lemma ProfileAssembleFalsyForms(p: ProfileAssembleInput)
    ensures ProfileAssembleArgs(CanonicalProfileAssemble(p)) == ProfileAssembleArgs(p)
  {
    ProfileAssembleRoundTrip(p);
    ProfileAssembleParseExact(ProfileAssembleArgs(p));
  }

  /**
   * The length of the vector: the subcommand's two tokens, then one token
   * per set switch and two per set value; an empty markdown directory or
   * output profile adds nothing, like an absent option.
   */
  lemma ProfileAssembleLength(p: ProfileAssembleInput)
    ensures |ProfileAssembleArgs(p)| == 2 + (if Truthy(p.name) then 2 else 0) + (if p.markdownDir != "" then 2 else 0)
                     + (if p.outputProfile != "" then 2 else 0) + (if p.setParameters then 1 else 0)
                     + (if p.regenerate then 1 else 0) + (if Truthy(p.version) then 2 else 0)
                     + (if Truthy(p.sections) then 2 else 0) + (if Truthy(p.requiredSections) then 2 else 0)
                     + (if Truthy(p.allowedSections) then 2 else 0) + (if p.verbose then 1 else 0)
                     + (if Truthy(p.trestleRoot) then 2 else 0)
  {
    Width11(Valued("--name", TextOf(p.name)),
      Valued("--markdown", p.markdownDir),
      Valued("--output", p.outputProfile),
      Switch("--set-parameters", p.setParameters),
      Switch("--regenerate", p.regenerate),
      Valued("--version", TextOf(p.version)),
      Valued("--sections", TextOf(p.sections)),
      Valued("--required-sections", TextOf(p.requiredSections)),
      Valued("--allowed-sections", TextOf(p.allowedSections)),
      Switch("--verbose", p.verbose),
      Valued("--trestle-root", TextOf(p.trestleRoot)));
    ValuedWidth("--name", p.name);
    PlainWidth("--markdown", p.markdownDir);
    PlainWidth("--output", p.outputProfile);
    SwitchWidth("--set-parameters", p.setParameters);
    SwitchWidth("--regenerate", p.regenerate);
    ValuedWidth("--version", p.version);
    ValuedWidth("--sections", p.sections);
    ValuedWidth("--required-sections", p.requiredSections);
    ValuedWidth("--allowed-sections", p.allowedSections);
    SwitchWidth("--verbose", p.verbose);
    ValuedWidth("--trestle-root", p.trestleRoot);
  }

  /**
   * The ends of the vector: the subcommand first, then a set name as flag
   * and value, ahead of the markdown directory; a set root is the last pair.
   */
  lemma ProfileAssembleArgsShape(p: ProfileAssembleInput)
    ensures var args := ProfileAssembleArgs(p);
      && args[..2] == ["author", "profile-assemble"]
      && (Truthy(p.name) ==> args[2..4] == ["--name", p.name.value])
      && (!Truthy(p.name) && p.markdownDir != "" ==> |args| >= 4 && args[2..4] == ["--markdown", p.markdownDir])
      && (Truthy(p.trestleRoot) ==> args[|args| - 2..] == ["--trestle-root", p.trestleRoot.value])
  {
    var opts := ProfileAssembleOptions(p);
    EmitLast(opts);
    var front := ProfileAssemblePrefix + Emit(opts[..10]);
    assert ProfileAssembleArgs(p) == front + Tokens(opts[10]);
    SplitAt(front, Tokens(opts[10]));
  }

  /** With only the markdown directory and the output profile, the two pairs after the subcommand. */
  lemma ProfileAssembleBasic(markdownDir: string, outputProfile: string)
    requires markdownDir != "" && outputProfile != ""
    ensures ProfileAssembleArgs(ProfileAssembleInput(markdownDir, outputProfile, None, false, false, None,
                                                     None, None, None, false, None))
      == ["author", "profile-assemble", "--markdown", markdownDir, "--output", outputProfile]
  {
    var opts := ProfileAssembleOptions(ProfileAssembleInput(markdownDir, outputProfile, None, false, false, None,
                                                            None, None, None, false, None));
    EmitFirstAll(opts);
    assert EmitFirst(opts, 1) == [];
    assert EmitFirst(opts, 2) == ["--markdown", markdownDir];
    assert EmitFirst(opts, 3) == ["--markdown", markdownDir, "--output", outputProfile];
    assert EmitFirst(opts, 4) == ["--markdown", markdownDir, "--output", outputProfile];
    assert EmitFirst(opts, 5) == ["--markdown", markdownDir, "--output", outputProfile];
    assert EmitFirst(opts, 6) == ["--markdown", markdownDir, "--output", outputProfile];
    assert EmitFirst(opts, 7) == ["--markdown", markdownDir, "--output", outputProfile];
    assert EmitFirst(opts, 8) == ["--markdown", markdownDir, "--output", outputProfile];
    assert EmitFirst(opts, 9) == ["--markdown", markdownDir, "--output", outputProfile];
    assert EmitFirst(opts, 10) == ["--markdown", markdownDir, "--output", outputProfile];
  }

  const ProfileAssembleSucceeded: string := [SuccessMark] + " Profile assembled from markdown successfully"
  const ProfileAssembleFailed: string := FailedPrefix + " to assemble profile from markdown"

  /**
   * The report of a run: on success the headline, the output profile and the
   * stripped output; on failure the headline, the markdown directory and the
   * stripped error text.
   */
  function FormatProfileAssemble(r: CommandResult, p: ProfileAssembleInput): (msg: string)
    ensures ReportsSuccess(msg) <==> r.success
    ensures ReportsFailure(msg) <==> !r.success
    ensures r.success ==>
      StartsWith(msg, ProfileAssembleSucceeded) && Contains(msg, "Output: " + p.outputProfile)
      && EndsWith(msg, Strip(r.stdout))
    ensures !r.success ==>
      StartsWith(msg, ProfileAssembleFailed) && Contains(msg, "MarkdownDir: " + p.markdownDir)
      && EndsWith(msg, "Error: " + Strip(r.stderr))
  {
    if r.success then
      Compose(ProfileAssembleSucceeded, "Output: " + p.outputProfile, "\n\n", Strip(r.stdout))
    else
      var msg := Compose(ProfileAssembleFailed, "MarkdownDir: " + p.markdownDir, "\n", "Error: " + Strip(r.stderr));
      FailureHeadline(" to assemble profile from markdown", msg);
      msg
  }

  /** The profile's name is not part of the report: two runs that differ only in it report alike. */
  lemma ProfileAssembleReportIgnoresName(r: CommandResult, p: ProfileAssembleInput, name: Option<string>)
    ensures FormatProfileAssemble(r, p.(name := name)) == FormatProfileAssemble(r, p)
  {
  }

  /** The tool: build the vector, run it in the process's directory, report. */
  method TrestleProfileAssemble(p: ProfileAssembleInput, host: Host, spawn: Invocation -> Outcome)
    returns (msg: string)
    ensures msg == FormatProfileAssemble(RunResult(ProfileAssembleArgs(p), None, host, spawn), p)
    ensures var o := spawn(CommandLine(ProfileAssembleArgs(p), None, host));
      ReportsSuccess(msg) <==> o.Completed? && o.code == 0
  {
    var args := BuildProfileAssembleArgs(p);
    var result := RunTrestleCommand(args, None, host, spawn);
    msg := FormatProfileAssemble(result, p);
  }
}
