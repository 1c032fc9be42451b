/**
 * `trestle init`: initialise a trestle workspace in one of three modes.
 */
module InitService {
  import opened Argv
  import opened Text
  import opened Report
  import opened Trestle

  datatype InitMode = Local | Full | Govdocs

  /** The validated parameters of the tool. */
  datatype InitInput = InitInput(mode: InitMode, trestleRoot: Option<string>, verbose: bool)

  /** The parameters when the caller gives none. */
  const DefaultInit: InitInput := InitInput(Local, None, false)

  /** The one flag that selects a mode. */
  function ModeFlag(m: InitMode): string {
    match m
    case Full => "--full"
    case Govdocs => "--govdocs"
    case Local => "--local"
  }

  /** The mode a flag selects, if it is a mode flag at all. */
  function ModeOfFlag(f: string): (r: Option<InitMode>)
    ensures r.Some? ==> ModeFlag(r.value) == f
    ensures r.None? ==> f != "--full" && f != "--govdocs" && f != "--local"
  {
    if f == "--full" then Some(Full)
    else if f == "--govdocs" then Some(Govdocs)
    else if f == "--local" then Some(Local)
    else None
  }

  /** Each mode is read back from its own flag. */
  lemma ModeRoundTrip(m: InitMode)
    ensures ModeOfFlag(ModeFlag(m)) == Some(m)
  {
    match m
    case Full =>
    case Govdocs =>
    case Local =>
  }

  /** The optional part of the vector, in the order the tool appends it. */
  function InitOptions(p: InitInput): seq<Opt> {
    [Valued("--trestle-root", TextOf(p.trestleRoot)), Switch("--verbose", p.verbose)]
  }

  /** The grammar of the optional part, as the parser reads it. */
  const InitSlots: seq<Slot> := [Slot("--trestle-root", ValuedKind), Slot("--verbose", SwitchKind)]

  /** The argument vector of the tool (the specification of `BuildInitArgs`). */
  function InitArgs(p: InitInput): seq<string> {
    ["init", ModeFlag(p.mode)] + Emit(InitOptions(p))
  }

  /** Starts from `["init"]`, appends the mode flag, then each set option in turn. */
  method BuildInitArgs(p: InitInput) returns (args: seq<string>)
    ensures args == InitArgs(p)
  {
    ghost var head, done: seq<Opt> := ["init", ModeFlag(p.mode)], [];
    args := ["init"];
    if p.mode == Full {
      args := args + ["--full"];
    } else if p.mode == Govdocs {
      args := args + ["--govdocs"];
    } else {
      args := args + ["--local"];
    }
    assert args == head + Emit(done);
    args, done := PushValued(head, done, args, "--trestle-root", p.trestleRoot);
    args, done := PushSwitch(head, done, args, "--verbose", p.verbose);
    InitTable(p);
  }

  /** The canonical form of the parameters: a falsy root is `None`. */
  function CanonicalInit(p: InitInput): InitInput {
    p.(trestleRoot := Canonical(p.trestleRoot))
  }

  /** Reads an argument vector of the tool back into its parameters. */
  function ParseInitArgs(args: seq<string>): Option<InitInput> {
    if |args| < 2 || args[0] != "init" then None
    else match ModeOfFlag(args[1])
      case None => None
      case Some(mode) =>
        match Decode(InitSlots, args[2..])
        case None => None
        case Some(opts) => Some(InitInput(mode, OptionalOf(ValueOf(opts[0])), Emitted(opts[1])))
  }

  /** The rendering of the table, row by row. */
  lemma InitRows(p: InitInput)
    ensures var opts := InitOptions(p);
      Emit(opts) == Tokens(opts[0]) + Tokens(opts[1])
  {
    var opts := InitOptions(p);
    EmitAt(opts, 0);
    EmitAt(opts, 1);
    assert opts[0..] == opts && opts[2..] == [];
  }

  /** The table, row by row in the order the builder appends the rows. */
  lemma InitTable(p: InitInput)
    ensures ([]
            + [Valued("--trestle-root", TextOf(p.trestleRoot))]
            + [Switch("--verbose", p.verbose)])
            == InitOptions(p)
  {
  }

  lemma InitGrammar(p: InitInput)
    ensures Slots(InitOptions(p)) == InitSlots && DistinctFlags(InitSlots)
  {
  }

  /** The vector determines the parameters: parsing it gives them back, up to falsy forms. */
  lemma InitRoundTrip(p: InitInput)
    ensures ParseInitArgs(InitArgs(p)) == Some(CanonicalInit(p))
  {
    var args, opts := InitArgs(p), InitOptions(p);
    InitGrammar(p);
    DecodeEmit(opts);
    assert args[0] == "init" && args[1] == ModeFlag(p.mode) && args[2..] == Emit(opts);
    ModeRoundTrip(p.mode);
    TextRoundTrip(p.trestleRoot);
  }

  /** Every vector the parser accepts is the vector of the parameters it reads. */
  lemma InitParseExact(args: seq<string>)
    requires ParseInitArgs(args).Some?
    ensures InitArgs(ParseInitArgs(args).value) == args
  {
    var q := ParseInitArgs(args).value;
    var opts := Decode(InitSlots, args[2..]).value;
    EmitDecode(InitSlots, args[2..]);
    assert InitOptions(q) == opts;
    assert args == args[..2] + args[2..];
  }

  /**
   * The shape of the vector: "init", then exactly the mode's flag, then the
   * root (flag and value) if and only if it is set, then "--verbose", last, only if
   * verbose (the last token can read "--verbose" otherwise only when that is
   * the root's value).
   */
  lemma InitArgsShape(p: InitInput)
    ensures var args := InitArgs(p);
      && args[0] == "init" && args[1] == ModeFlag(p.mode)
      && |args| == 2 + (if Truthy(p.trestleRoot) then 2 else 0) + (if p.verbose then 1 else 0)
      && (Truthy(p.trestleRoot) ==> args[2..4] == ["--trestle-root", p.trestleRoot.value])
      && ("--trestle-root" in args <==> Truthy(p.trestleRoot))
      && (args[|args| - 1] == "--verbose" <==> p.verbose || TextOf(p.trestleRoot) == "--verbose")
  {
    InitRows(p);
  }

  /** Called without parameters, the tool runs `init --local`. */
  lemma InitDefaultArgs()
    ensures InitArgs(DefaultInit) == ["init", "--local"]
  {
    assert Emit(InitOptions(DefaultInit)) == [];
  }

  /** No mode flag follows the first unless it is the root value itself. */
  lemma InitSingleMode(p: InitInput)
    ensures forall i :: (2 <= i < |InitArgs(p)| && ModeOfFlag(InitArgs(p)[i]).Some?
      ==> InitArgs(p)[i] == TextOf(p.trestleRoot))
  {
    InitRows(p);
  }

  const InitSucceeded: string := [SuccessMark] + " Trestle workspace initialized successfully"
  const InitFailed: string := FailedPrefix + " to initialize trestle workspace"

  /**
   * The report of a run: a check-mark headline and the stripped output on
   * success, a cross-mark headline and the stripped error text on failure.
   */
  function FormatInit(r: CommandResult): (msg: string)
    ensures ReportsSuccess(msg) <==> r.success
    ensures ReportsFailure(msg) <==> !r.success
    ensures r.success ==> StartsWith(msg, InitSucceeded) && EndsWith(msg, Strip(r.stdout))
    ensures !r.success ==> StartsWith(msg, InitFailed) && EndsWith(msg, "Error: " + Strip(r.stderr))
  {
    if r.success then
      Compose(InitSucceeded, "", "", Strip(r.stdout))
    else
      var msg := Compose(InitFailed, "", "", "Error: " + Strip(r.stderr));
      FailureHeadline(" to initialize trestle workspace", msg);
      msg
  }

  /** The tool: build the vector, run it in the process's directory, report. */
  method TrestleInit(p: InitInput, host: Host, spawn: Invocation -> Outcome) returns (msg: string)
    ensures msg == FormatInit(RunResult(InitArgs(p), None, host, spawn))
    ensures var o := spawn(CommandLine(InitArgs(p), None, host));
      ReportsSuccess(msg) <==> o.Completed? && o.code == 0
  {
    var args := BuildInitArgs(p);
    var result := RunTrestleCommand(args, None, host, spawn);
    msg := FormatInit(result);
  }
}
