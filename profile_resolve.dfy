/**
 * `trestle author profile-resolve`: resolve a profile into the catalog it
 * selects, with optional formatting of parameters in the prose.
 */
module ProfileResolve {
  import opened Argv
  import opened Text
  import opened Report
  import opened Trestle
  import CatalogGenerate

  /**
   * The validated parameters of the tool. The three switches are optional
   * booleans whose absence means false.
   */
  datatype ProfileResolveInput = ProfileResolveInput(
    name: string,
    output: string,
    showValues: Option<bool>,
    showLabels: Option<bool>,
    bracketFormat: Option<string>,
    valueAssignedPrefix: Option<string>,
    valueNotAssignedPrefix: Option<string>,
    labelPrefix: Option<string>,
    verbose: Option<bool>,
    trestleRoot: Option<string>)

  /** The required part of the vector: a long `--name`, a short `-o` for the output. */
  function ProfileResolvePrefix(p: ProfileResolveInput): seq<string> {
    ["author", "profile-resolve", "--name", p.name, "-o", p.output]
  }

  /** The optional part of the vector, in the order the tool appends it. */
  function ProfileResolveOptions(p: ProfileResolveInput): seq<Opt> {
    [ Switch("--show-values", IsSet(p.showValues)),
      Switch("--show-labels", IsSet(p.showLabels)),
      Valued("--bracket-format", TextOf(p.bracketFormat)),
      Valued("--value-assigned-prefix", TextOf(p.valueAssignedPrefix)),
      Valued("--value-not-assigned-prefix", TextOf(p.valueNotAssignedPrefix)),
      Valued("--label-prefix", TextOf(p.labelPrefix)),
      Switch("--verbose", IsSet(p.verbose)),
      Valued("--trestle-root", TextOf(p.trestleRoot)) ]
  }

  /** The grammar of the optional part, as the parser reads it. */
  const ProfileResolveSlots: seq<Slot> :=
    [ Slot("--show-values", SwitchKind),
      Slot("--show-labels", SwitchKind),
      Slot("--bracket-format", ValuedKind),
      Slot("--value-assigned-prefix", ValuedKind),
      Slot("--value-not-assigned-prefix", ValuedKind),
      Slot("--label-prefix", ValuedKind),
      Slot("--verbose", SwitchKind),
      Slot("--trestle-root", ValuedKind) ]

  /** The argument vector of the tool (the specification of `BuildProfileResolveArgs`). */
  function ProfileResolveArgs(p: ProfileResolveInput): seq<string> {
    ProfileResolvePrefix(p) + Emit(ProfileResolveOptions(p))
  }

  /** Starts from the subcommand with both required pairs, then appends each set option. */
  method BuildProfileResolveArgs(p: ProfileResolveInput) returns (args: seq<string>)
    ensures args == ProfileResolveArgs(p)
  {
    ghost var head, done := ProfileResolvePrefix(p), [];
    args := ["author", "profile-resolve", "--name", p.name, "-o", p.output];
    assert args == head + Emit(done);
    args, done := PushSwitch(head, done, args, "--show-values", IsSet(p.showValues));
    args, done := PushSwitch(head, done, args, "--show-labels", IsSet(p.showLabels));
    args, done := PushValued(head, done, args, "--bracket-format", p.bracketFormat);
    args, done := PushValued(head, done, args, "--value-assigned-prefix", p.valueAssignedPrefix);
    args, done := PushValued(head, done, args, "--value-not-assigned-prefix", p.valueNotAssignedPrefix);
    args, done := PushValued(head, done, args, "--label-prefix", p.labelPrefix);
    args, done := PushSwitch(head, done, args, "--verbose", IsSet(p.verbose));
    args, done := PushValued(head, done, args, "--trestle-root", p.trestleRoot);
    ProfileResolveTable(p);
  }

  /** The table, row by row in the order the builder appends the rows. */
  lemma ProfileResolveTable(p: ProfileResolveInput)
    ensures ([]
            + [Switch("--show-values", IsSet(p.showValues))]
            + [Switch("--show-labels", IsSet(p.showLabels))]
            + [Valued("--bracket-format", TextOf(p.bracketFormat))]
            + [Valued("--value-assigned-prefix", TextOf(p.valueAssignedPrefix))]
            + [Valued("--value-not-assigned-prefix", TextOf(p.valueNotAssignedPrefix))]
            + [Valued("--label-prefix", TextOf(p.labelPrefix))]
            + [Switch("--verbose", IsSet(p.verbose))]
            + [Valued("--trestle-root", TextOf(p.trestleRoot))])
            == ProfileResolveOptions(p)
  {
  }

  /** The table's shape is the parser's grammar, whatever the parameters. */
  lemma ProfileResolveShape(p: ProfileResolveInput)
    ensures Slots(ProfileResolveOptions(p)) == ProfileResolveSlots
  {
  }

  lemma ProfileResolveDistinct()
    ensures DistinctFlags(ProfileResolveSlots)
  {
  }

  /**
   * The canonical form of the parameters: falsy optional strings are `None`
   * and an absent switch is an explicit false.
   */
  function CanonicalProfileResolve(p: ProfileResolveInput): ProfileResolveInput {
    p.(showValues := Some(IsSet(p.showValues)), showLabels := Some(IsSet(p.showLabels)),
       bracketFormat := Canonical(p.bracketFormat), valueAssignedPrefix := Canonical(p.valueAssignedPrefix),
       valueNotAssignedPrefix := Canonical(p.valueNotAssignedPrefix), labelPrefix := Canonical(p.labelPrefix),
       verbose := Some(IsSet(p.verbose)), trestleRoot := Canonical(p.trestleRoot))
  }

  /** Reads an argument vector of the tool back into its parameters. */
  function ParseProfileResolveArgs(args: seq<string>): Option<ProfileResolveInput> {
    if |args| < 6 || args[0] != "author" || args[1] != "profile-resolve" || args[2] != "--name" || args[4] != "-o"
    then None
    else match Decode(ProfileResolveSlots, args[6..])
      case None => None
      case Some(opts) =>
        Some(ProfileResolveInput(args[3], args[5], Some(Emitted(opts[0])), Some(Emitted(opts[1])),
                                 OptionalOf(ValueOf(opts[2])), OptionalOf(ValueOf(opts[3])),
                                 OptionalOf(ValueOf(opts[4])), OptionalOf(ValueOf(opts[5])),
                                 Some(Emitted(opts[6])), OptionalOf(ValueOf(opts[7]))))
  }

  /** The vector determines the parameters: parsing it gives them back, up to falsy forms. */
  lemma ProfileResolveRoundTrip(p: ProfileResolveInput)
    ensures ParseProfileResolveArgs(ProfileResolveArgs(p)) == Some(CanonicalProfileResolve(p))
  {
    var opts := ProfileResolveOptions(p);
    ProfileResolveShape(p);
    ProfileResolveDistinct();
    DecodeEmit(opts);
    SplitAt(ProfileResolvePrefix(p), Emit(opts));
    TextRoundTrip(p.bracketFormat);
    TextRoundTrip(p.valueAssignedPrefix);
    TextRoundTrip(p.valueNotAssignedPrefix);
    TextRoundTrip(p.labelPrefix);
    TextRoundTrip(p.trestleRoot);
  }

  /** Every vector the parser accepts is the vector of the parameters it reads. */
  lemma ProfileResolveParseExact(args: seq<string>)
    requires ParseProfileResolveArgs(args).Some?
    ensures ProfileResolveArgs(ParseProfileResolveArgs(args).value) == args
  {
    var q := ParseProfileResolveArgs(args).value;
    var opts := Decode(ProfileResolveSlots, args[6..]).value;
    EmitDecode(ProfileResolveSlots, args[6..]);
    assert |opts| == 8;
    SwitchRead(opts[0], "--show-values");
    SwitchRead(opts[1], "--show-labels");
    ValuedRead(opts[2], "--bracket-format");
    ValuedRead(opts[3], "--value-assigned-prefix");
    ValuedRead(opts[4], "--value-not-assigned-prefix");
    ValuedRead(opts[5], "--label-prefix");
    SwitchRead(opts[6], "--verbose");
    ValuedRead(opts[7], "--trestle-root");
    Rows8(opts, Switch("--show-values", IsSet(q.showValues)), Switch("--show-labels", IsSet(q.showLabels)),
          Valued("--bracket-format", TextOf(q.bracketFormat)),
          Valued("--value-assigned-prefix", TextOf(q.valueAssignedPrefix)),
          Valued("--value-not-assigned-prefix", TextOf(q.valueNotAssignedPrefix)),
          Valued("--label-prefix", TextOf(q.labelPrefix)), Switch("--verbose", IsSet(q.verbose)),
          Valued("--trestle-root", TextOf(q.trestleRoot)));
    Head6(args, "author", "profile-resolve", "--name", q.name, "-o", q.output);
    Rejoin(args, 6);
  }

  /**
   * The falsy forms are indistinguishable: an empty string and `None`, and
   * for a switch `None` and an explicit false, give the same vector.
   */
  lemma ProfileResolveFalsyForms(p: ProfileResolveInput)
    ensures ProfileResolveArgs(CanonicalProfileResolve(p)) == ProfileResolveArgs(p)
  {
    ProfileResolveRoundTrip(p);
    ProfileResolveParseExact(ProfileResolveArgs(p));
  }

  /**
   * The length of the vector: the six required tokens, then one token per
   * set switch and two per set value, so only the options that are set add
   * anything.
   */
  lemma ProfileResolveLength(p: ProfileResolveInput)
    ensures |ProfileResolveArgs(p)| == 6 + (if IsSet(p.showValues) then 1 else 0) + (if IsSet(p.showLabels) then 1 else 0)
                     + (if Truthy(p.bracketFormat) then 2 else 0) + (if Truthy(p.valueAssignedPrefix) then 2 else 0)
                     + (if Truthy(p.valueNotAssignedPrefix) then 2 else 0) + (if Truthy(p.labelPrefix) then 2 else 0)
                     + (if IsSet(p.verbose) then 1 else 0) + (if Truthy(p.trestleRoot) then 2 else 0)
  {
    Width8(Switch("--show-values", IsSet(p.showValues)),
      Switch("--show-labels", IsSet(p.showLabels)),
      Valued("--bracket-format", TextOf(p.bracketFormat)),
      Valued("--value-assigned-prefix", TextOf(p.valueAssignedPrefix)),
      Valued("--value-not-assigned-prefix", TextOf(p.valueNotAssignedPrefix)),
      Valued("--label-prefix", TextOf(p.labelPrefix)),
      Switch("--verbose", IsSet(p.verbose)),
      Valued("--trestle-root", TextOf(p.trestleRoot)));
    SwitchWidth("--show-values", IsSet(p.showValues));
    SwitchWidth("--show-labels", IsSet(p.showLabels));
    ValuedWidth("--bracket-format", p.bracketFormat);
    ValuedWidth("--value-assigned-prefix", p.valueAssignedPrefix);
    ValuedWidth("--value-not-assigned-prefix", p.valueNotAssignedPrefix);
    ValuedWidth("--label-prefix", p.labelPrefix);
    SwitchWidth("--verbose", IsSet(p.verbose));
    ValuedWidth("--trestle-root", p.trestleRoot);
  }

  /**
   * The ends of the vector: the six required tokens come first, a set
   * "--show-values" follows them, and a set root is the last pair.
   */
  lemma ProfileResolveArgsShape(p: ProfileResolveInput)
    ensures var args := ProfileResolveArgs(p);
      && args[..6] == ["author", "profile-resolve", "--name", p.name, "-o", p.output]
      && (IsSet(p.showValues) ==> args[6] == "--show-values")
      && (Truthy(p.trestleRoot) ==> args[|args| - 2..] == ["--trestle-root", p.trestleRoot.value])
  {
    var opts := ProfileResolveOptions(p);
    EmitLast(opts);
    var front := ProfileResolvePrefix(p) + Emit(opts[..7]);
    assert ProfileResolveArgs(p) == front + Tokens(opts[7]);
    SplitAt(front, Tokens(opts[7]));
  }

  /** With only the required parameters, exactly the six required tokens. */
  lemma ProfileResolveMinimal(name: string, output: string)
    ensures ProfileResolveArgs(ProfileResolveInput(name, output, None, None, None, None, None, None, None, None))
      == ["author", "profile-resolve", "--name", name, "-o", output]
  {
    EmitNone(ProfileResolveOptions(ProfileResolveInput(name, output, None, None, None, None, None, None, None, None)));
  }

  /**
   * With every option set, the options follow in their fixed order, each
   * value right after its flag; values that look like flags or brackets,
   * such as "(.)" or "[NOT]", pass through unchanged.
   */
  lemma ProfileResolveAllOptions(name: string, output: string)
    ensures ProfileResolveArgs(ProfileResolveInput(name, output, Some(true), Some(true), Some("(.)"), Some("[ASSIGNED]"),
                                                   Some("[NOT]"), Some("LBL:"), Some(true), Some("/path/to/ws")))
      == ["author", "profile-resolve", "--name", name, "-o", output,
          "--show-values", "--show-labels", "--bracket-format", "(.)",
          "--value-assigned-prefix", "[ASSIGNED]", "--value-not-assigned-prefix", "[NOT]",
          "--label-prefix", "LBL:", "--verbose", "--trestle-root", "/path/to/ws"]
  {
    var opts := ProfileResolveOptions(ProfileResolveInput(name, output, Some(true), Some(true), Some("(.)"),
                                                          Some("[ASSIGNED]"), Some("[NOT]"), Some("LBL:"), Some(true),
                                                          Some("/path/to/ws")));
    assert opts[..0] == [];
    EmitStep(opts, 0);
    EmitStep(opts, 1);
    EmitStep(opts, 2);
    EmitStep(opts, 3);
    EmitStep(opts, 4);
    EmitStep(opts, 5);
    EmitStep(opts, 6);
    EmitStep(opts, 7);
    EmitWhole(opts, 8);
  }

  /** The tool reports in catalog-generate's words. */
  const ProfileResolveSucceeded: string := [SuccessMark] + " Catalog controls generated as markdown successfully"
  const ProfileResolveFailed: string := FailedPrefix + " to generate catalog markdowns"

  /**
   * The report of a run: on success the headline, the output catalog and the
   * stripped output; on failure the headline, the profile's name and the
   * stripped error text.
   */
  function FormatProfileResolve(r: CommandResult, p: ProfileResolveInput): (msg: string)
    ensures ReportsSuccess(msg) <==> r.success
    ensures ReportsFailure(msg) <==> !r.success
    ensures r.success ==>
      StartsWith(msg, ProfileResolveSucceeded) && Contains(msg, "Output: " + p.output) && EndsWith(msg, Strip(r.stdout))
    ensures !r.success ==>
      StartsWith(msg, ProfileResolveFailed) && Contains(msg, "Catalog: " + p.name) && EndsWith(msg, "Error: " + Strip(r.stderr))
  {
    if r.success then
      Compose(ProfileResolveSucceeded, "Output: " + p.output, "\n\n", Strip(r.stdout))
    else
      var msg := Compose(ProfileResolveFailed, "Catalog: " + p.name, "\n", "Error: " + Strip(r.stderr));
      FailureHeadline(" to generate catalog markdowns", msg);
      msg
  }

  /**
   * The report is catalog-generate's, word for word, for a catalog with the
   * profile's name and output: a resolve run cannot be told from a
   * catalog-generate run by its report.
   */
  lemma ProfileResolveReportsAsCatalog(r: CommandResult, p: ProfileResolveInput, c: CatalogGenerate.CatalogGenerateInput)
    requires c.name == p.name && c.output == p.output
    ensures FormatProfileResolve(r, p) == CatalogGenerate.FormatCatalogGenerate(r, c)
  {
  }

  /** The tool: build the vector, run it in the process's directory, report. */
  method TrestleProfileResolve(p: ProfileResolveInput, host: Host, spawn: Invocation -> Outcome)
    returns (msg: string)
    ensures msg == FormatProfileResolve(RunResult(ProfileResolveArgs(p), None, host, spawn), p)
    ensures var o := spawn(CommandLine(ProfileResolveArgs(p), None, host));
      ReportsSuccess(msg) <==> o.Completed? && o.code == 0
  {
    var args := BuildProfileResolveArgs(p);
    var result := RunTrestleCommand(args, None, host, spawn);
    msg := FormatProfileResolve(result, p);
  }
}
