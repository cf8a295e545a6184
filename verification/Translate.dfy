// From a template's step list to image build instructions.
module Translate {
  import opened Common

  // ------------------------------------------------------------- the languages

  datatype Kind = FROM | RUN | COPY | WORKDIR | USER | ENV | Unknown(name: string)

  datatype Step = Step(kind: Kind, args: seq<string>, filesHash: string, force: bool)

  datatype Instr =
    | From(image: string)
    | Run(cmd: string)
    | Copy(chown: string, chmod: string, src: string, dest: string)
    | CopyFrom(image: string, src: string, dest: string)
    | Workdir(path: string)
    | User(name: string)
    | Env(pairs: seq<(string, string)>)
    | Arg(step: nat, value: string)          // cache bust of one step
    | Cmd(path: string)

  datatype Error =
    | BaseRequired | BasesExclusive
    | FromIsImplicit(i: nat) | RunNeedsCommand(i: nat) | CopyNeedsPaths(i: nat) | CopyNeedsHash(i: nat)
    | WorkdirNeedsPath(i: nat) | UserNeedsName(i: nat) | EnvNeedsPairs(i: nat)
    | Unsupported(i: nat, name: string) | NoRandomness

  datatype Input = Input(fromImage: string, fromTemplateImage: string, steps: seq<Step>, stagingDir: string)

  datatype Output = Output(dockerfile: seq<Instr>, requiredHashes: seq<string>)

  // The random text that busts the cache of step i, when the source of
  // randomness delivers.
  type Bust = nat -> Option<string>

  const ENVD_IMAGE := "edvabe/envd-source:latest"
  const ENVD_PATH := "/usr/local/bin/envd"
  const INIT_PATH := "/usr/local/bin/edvabe-init"
  const MAKE_USER :=
    "id -u user >/dev/null 2>&1 || (useradd -m -s /bin/bash user && " +
    "echo 'user ALL=(ALL:ALL) NOPASSWD:ALL' >> /etc/sudoers && chmod 755 /home/user)"
  const CHOWN_HOME := "chown -R user:user /home/user 2>/dev/null || true"
  const ROOT := "root"

  // ------------------------------------------------------------ step by step

  function ArgAt(step: Step, n: nat): string {
    if n < |step.args| then step.args[n] else ""
  }

  function PairsOf(args: seq<string>): seq<(string, string)>
    requires |args| % 2 == 0
  {
    if args == [] then [] else PairsOf(args[..|args| - 2]) + [(args[|args| - 2], args[|args| - 1])]
  }

  // What is wrong with step i, if anything.
  function Check(step: Step, i: nat, bust: Bust): Option<Error> {
    if step.force && bust(i).None? then Some(NoRandomness)
    else
      match step.kind
      case FROM => Some(FromIsImplicit(i))
      case RUN => if step.args == [] then Some(RunNeedsCommand(i)) else None
      case COPY =>
        if |step.args| < 2 then Some(CopyNeedsPaths(i))
        else if step.filesHash == "" then Some(CopyNeedsHash(i)) else None
      case WORKDIR => if step.args == [] then Some(WorkdirNeedsPath(i)) else None
      case USER => if step.args == [] then Some(UserNeedsName(i)) else None
      case ENV => if |step.args| % 2 != 0 then Some(EnvNeedsPairs(i)) else None
      case Unknown(name) => Some(Unsupported(i, name))
  }

  function BustLine(step: Step, i: nat, bust: Bust): seq<Instr>
    requires Check(step, i, bust).None?
  {
    if step.force then [Arg(i, bust(i).value)] else []
  }

  // The instructions of a step when the USER in force is believed to be `user`.
  function CoreCode(step: Step, user: string, staging: string): seq<Instr> {
    match step.kind
    case RUN =>
      var runAs := ArgAt(step, 1);
      if runAs != "" && runAs != user then [User(runAs), Run(ArgAt(step, 0)), User(user)]
      else [Run(ArgAt(step, 0))]
    case COPY =>
      var chown := ArgAt(step, 2);
      [Copy(if chown == "" && user != ROOT then user else chown, ArgAt(step, 3),
            staging + "/" + step.filesHash + "/" + ArgAt(step, 0), ArgAt(step, 1))]
    case WORKDIR => [Workdir(ArgAt(step, 0))]
    case USER => [User(ArgAt(step, 0))]
    case ENV => if step.args == [] || |step.args| % 2 != 0 then [] else [Env(PairsOf(step.args))]
    case _ => []
  }

  function Code(step: Step, i: nat, user: string, staging: string, bust: Bust): seq<Instr>
    requires Check(step, i, bust).None?
  {
    BustLine(step, i, bust) + CoreCode(step, user, staging)
  }

  function UserAfter(step: Step, user: string): string {
    if step.kind.USER? && step.args != [] then step.args[0] else user
  }

  // ------------------------------------------------------------ whole step lists

  ghost predicate Accepted(steps: seq<Step>, bust: Bust) {
    forall i | 0 <= i < |steps| :: Check(steps[i], i, bust).None?
  }

  function CurrentUser(steps: seq<Step>): string {
    if steps == [] then ROOT else UserAfter(steps[|steps| - 1], CurrentUser(steps[..|steps| - 1]))
  }

  function Body(steps: seq<Step>, staging: string, bust: Bust): seq<Instr>
    requires Accepted(steps, bust)
  {
    if steps == [] then []
    else
      var n, front := |steps| - 1, steps[..|steps| - 1];
      Body(front, staging, bust) + Code(steps[n], n, CurrentUser(front), staging, bust)
  }

  // The file hashes the COPY steps need, each once, in the order of first use.
  function Required(steps: seq<Step>): seq<string> {
    if steps == [] then []
    else
      var front, last := Required(steps[..|steps| - 1]), steps[|steps| - 1];
      if last.kind.COPY? && last.filesHash !in front then front + [last.filesHash] else front
  }

  function Preamble(base: string): seq<Instr> { [From(base), Run(MAKE_USER)] }

  function Tail(): seq<Instr> {
    [User(ROOT), Run(CHOWN_HOME), CopyFrom(ENVD_IMAGE, ENVD_PATH, ENVD_PATH),
     CopyFrom(ENVD_IMAGE, INIT_PATH, INIT_PATH), Cmd(INIT_PATH)]
  }

  function BaseOf(input: Input): string {
    if input.fromImage == "" then input.fromTemplateImage else input.fromImage
  }

  function StagingOf(input: Input): string {
    if input.stagingDir == "" then "ctx" else input.stagingDir
  }

  predicate OneBase(input: Input) { (input.fromImage == "") != (input.fromTemplateImage == "") }

  // The image the input names to start from, and only that one.
  ghost predicate NamesBase(input: Input, name: string) {
    name != "" &&
    if input.fromImage != "" then input.fromImage == name && input.fromTemplateImage == ""
    else input.fromTemplateImage == name
  }

  function Compiled(input: Input, bust: Bust): Output
    requires Accepted(input.steps, bust)
  {
    Output(Preamble(BaseOf(input)) + Body(input.steps, StagingOf(input), bust) + Tail(), Required(input.steps))
  }

  // Success exactly for one base and good steps only; otherwise the error of
  // the first thing that is wrong.
  ghost predicate IsAnswer(input: Input, bust: Bust, r: Result<Output, Error>) {
    if !OneBase(input) then
      r == Err(if input.fromImage == "" then BaseRequired else BasesExclusive)
    else match r
      case Ok(out) => Accepted(input.steps, bust) && out == Compiled(input, bust)
      case Err(e) =>
        exists i | 0 <= i < |input.steps| ::
          Check(input.steps[i], i, bust) == Some(e) && Accepted(input.steps[..i], bust)
  }

  lemma {:induction false} PairsAt(args: seq<string>)
    requires |args| % 2 == 0
    ensures |PairsOf(args)| == |args| / 2
    ensures forall k | 0 <= k < |args| / 2 :: PairsOf(args)[k] == (args[2 * k], args[2 * k + 1])
  {
    if args != [] { PairsAt(args[..|args| - 2]); }
  }

  // The instructions of a step, told by its arguments.
  ghost predicate SaysStep(step: Step, user: string, staging: string, code: seq<Instr>) {
    match step.kind
    case RUN =>
      |step.args| > 0 &&
      if |step.args| > 1 && step.args[1] != "" && step.args[1] != user
      then code == [User(step.args[1]), Run(step.args[0]), User(user)] else code == [Run(step.args[0])]
    case COPY =>
      && |step.args| > 1 && |code| == 1 && code[0].Copy?
      && code[0].chown == (if |step.args| > 2 && step.args[2] != "" then step.args[2]
                           else if user == "root" then "" else user)
      && code[0].chmod == (if |step.args| > 3 then step.args[3] else "")
      && code[0].src == staging + "/" + step.filesHash + "/" + step.args[0] && code[0].dest == step.args[1]
    case WORKDIR => |step.args| > 0 && code == [Workdir(step.args[0])]
    case USER => |step.args| > 0 && code == [User(step.args[0])]
    case ENV =>
      if step.args == [] then code == []
      else
        && |code| == 1 && code[0].Env? && 2 * |code[0].pairs| == |step.args|
        && forall k | 0 <= k < |code[0].pairs| :: code[0].pairs[k] == (step.args[2 * k], step.args[2 * k + 1])
    case _ => false
  }

  // A forced step is led by a line with fresh random text.
  ghost predicate SaysWhole(step: Step, i: nat, user: string, staging: string, bust: Bust, df: seq<Instr>) {
    if step.force then
      && df != [] && df[0] == Arg(i, if bust(i).Some? then bust(i).value else "")
      && SaysStep(step, user, staging, df[1..])
    else SaysStep(step, user, staging, df)
  }

  lemma CodeSays(step: Step, i: nat, user: string, staging: string, bust: Bust)
    requires Check(step, i, bust).None?
    ensures SaysWhole(step, i, user, staging, bust, Code(step, i, user, staging, bust))
  {
    CoreSays(step, i, user, staging, bust);
    var line, core := BustLine(step, i, bust), CoreCode(step, user, staging);
    if step.force { assert (line + core)[1..] == core; } else { assert line + core == core; }
  }

  lemma CoreSays(step: Step, i: nat, user: string, staging: string, bust: Bust)
    requires Check(step, i, bust).None?
    ensures SaysStep(step, user, staging, CoreCode(step, user, staging))
  {
    if step.kind.ENV? { PairsAt(step.args); }
  }

  // A step the translator takes, and what it says of one it does not.
  ghost predicate Good(step: Step, i: nat, bust: Bust) {
    && (step.force ==> bust(i).Some?)
    && match step.kind
       case RUN => |step.args| >= 1
       case COPY => |step.args| >= 2 && step.filesHash != ""
       case WORKDIR => |step.args| >= 1
       case USER => |step.args| >= 1
       case ENV => |step.args| % 2 == 0
       case _ => false
  }

  // No random text is complained of first, too few paths before a missing hash.
  ghost predicate Faulty(step: Step, i: nat, bust: Bust, e: Error) {
    if step.force && bust(i).None? then e.NoRandomness?
    else
      match step.kind
      case FROM => e == FromIsImplicit(i)
      case RUN => |step.args| == 0 && e == RunNeedsCommand(i)
      case COPY =>
        || (|step.args| < 2 && e == CopyNeedsPaths(i))
        || (|step.args| >= 2 && step.filesHash == "" && e == CopyNeedsHash(i))
      case WORKDIR => |step.args| == 0 && e == WorkdirNeedsPath(i)
      case USER => |step.args| == 0 && e == UserNeedsName(i)
      case ENV => |step.args| % 2 == 1 && e == EnvNeedsPairs(i)
      case Unknown(name) => e == Unsupported(i, name)
  }

  lemma CheckTells(step: Step, i: nat, bust: Bust)
    ensures Check(step, i, bust).None? <==> Good(step, i, bust)
    ensures forall e :: Check(step, i, bust) == Some(e) <==> Faulty(step, i, bust, e)
  {
  }

  // The answer, told by the input: an error names the first thing wrong.
  ghost predicate Answers(input: Input, bust: Bust, r: Result<Output, Error>) {
    match r
    case Ok(out) =>
      && (input.fromImage == "" || input.fromTemplateImage == "")
      && (forall i | 0 <= i < |input.steps| :: Good(input.steps[i], i, bust))
      && FramedBy(out.dockerfile, if input.fromImage != "" then input.fromImage else input.fromTemplateImage)
    case Err(e) =>
      if input.fromImage == "" && input.fromTemplateImage == "" then e == BaseRequired
      else if input.fromImage != "" && input.fromTemplateImage != "" then e == BasesExclusive
      else
        exists i | 0 <= i < |input.steps| ::
          Faulty(input.steps[i], i, bust, e) && forall k | 0 <= k < i :: Good(input.steps[k], k, bust)
  }

  // What every file begins and ends with: the image named, the account, the
  // agent and its wrapper.
  ghost predicate FramedBy(df: seq<Instr>, name: string) {
    && name != "" && |df| >= 7
    && df[0] == From(name) && df[1] == Run(MAKE_USER)
    && df[|df| - 5] == User("root") && df[|df| - 4] == Run("chown -R user:user /home/user 2>/dev/null || true")
    && df[|df| - 3] == CopyFrom("edvabe/envd-source:latest", "/usr/local/bin/envd", "/usr/local/bin/envd")
    && df[|df| - 2]
       == CopyFrom("edvabe/envd-source:latest", "/usr/local/bin/edvabe-init", "/usr/local/bin/edvabe-init")
    && df[|df| - 1] == Cmd("/usr/local/bin/edvabe-init")
  }

  lemma CompiledIsFramed(input: Input, bust: Bust)
    requires Accepted(input.steps, bust) && OneBase(input)
    ensures FramedBy(Compiled(input, bust).dockerfile,
                     if input.fromImage != "" then input.fromImage else input.fromTemplateImage)
  {
  }

  lemma AnswerTells(input: Input, bust: Bust, r: Result<Output, Error>)
    requires IsAnswer(input, bust, r)
    ensures Answers(input, bust, r)
  {
    forall i: nat | i < |input.steps|
      ensures Check(input.steps[i], i, bust).None? <==> Good(input.steps[i], i, bust)
      ensures r.Err? ==> (Check(input.steps[i], i, bust) == Some(r.error) <==>
                          Faulty(input.steps[i], i, bust, r.error))
    {
      CheckTells(input.steps[i], i, bust);
    }
    if r.Ok? { CompiledIsFramed(input, bust); } else if OneBase(input) {
      var i :| 0 <= i < |input.steps| && Check(input.steps[i], i, bust) == Some(r.error)
        && Accepted(input.steps[..i], bust);
      assert forall k | 0 <= k < i :: input.steps[..i][k] == input.steps[k];
      assert Faulty(input.steps[i], i, bust, r.error);
    }
  }

  method EmitStep(step: Step, i: nat, user: string, staging: string, bust: Bust) returns (df: seq<Instr>)
    requires Check(step, i, bust).None?
    ensures df == Code(step, i, user, staging, bust)
    ensures SaysWhole(step, i, user, staging, bust, df)
  {
    df := [];
    if step.force { df := df + [Arg(i, bust(i).value)]; }
    match step.kind {
    case RUN =>
      var cmd := step.args[0];
      var runAs := "";
      if |step.args| >= 2 { runAs := step.args[1]; }
      if runAs != "" && runAs != user {
        df := df + [User(runAs), Run(cmd), User(user)];
      } else {
        df := df + [Run(cmd)];
      }
    case COPY =>
      var chown := "";
      if |step.args| >= 3 { chown := step.args[2]; }
      if chown == "" && user != ROOT { chown := user; }
      var chmod := if |step.args| >= 4 then step.args[3] else "";
      df := df + [Copy(chown, chmod, staging + "/" + step.filesHash + "/" + step.args[0], step.args[1])];
    case WORKDIR => df := df + [Workdir(step.args[0])];
    case USER => df := df + [User(step.args[0])];
    case ENV =>
      if step.args != [] {
        var pairs := [];
        var j := 0;
        while j < |step.args|
          invariant 0 <= j <= |step.args| && j % 2 == 0
          invariant pairs == PairsOf(step.args[..j])
        {
          assert step.args[..j + 2][..j] == step.args[..j];
          pairs := pairs + [(step.args[j], step.args[j + 1])];
          j := j + 2;
        }
        assert step.args[..j] == step.args;
        df := df + [Env(pairs)];
      }
    case _ =>
    }
    CodeSays(step, i, user, staging, bust);
  }

  // The loop's variables after the first i steps.
  ghost predicate Translated(steps: seq<Step>, i: nat, staging: string, bust: Bust,
                             user: string, df: seq<Instr>, required: seq<string>)
    requires i <= |steps|
  {
    && Accepted(steps[..i], bust) && user == CurrentUser(steps[..i])
    && df == Body(steps[..i], staging, bust) && required == Required(steps[..i])
  }

  lemma OneMoreStep(steps: seq<Step>, i: nat, staging: string, bust: Bust,
                    user: string, df: seq<Instr>, required: seq<string>)
    requires i < |steps| && Translated(steps, i, staging, bust, user, df, required)
    requires Check(steps[i], i, bust).None?
    ensures Translated(steps, i + 1, staging, bust, UserAfter(steps[i], user), df + Code(steps[i], i, user,
        staging, bust),
                       if steps[i].kind.COPY? && steps[i].filesHash !in required
                       then required + [steps[i].filesHash] else required)
  {
    assert steps[..i + 1][..i] == steps[..i] && steps[..i + 1][i] == steps[i];
  }

  // The loop over the steps: their instructions and hashes, or the first error.
  method TranslateSteps(steps: seq<Step>, staging: string, bust: Bust)
    returns (wrong: Option<Error>, df: seq<Instr>, required: seq<string>)
    ensures wrong.None? ==>
      Accepted(steps, bust) && df == Body(steps, staging, bust) && required == Required(steps)
    ensures wrong.Some? ==>
      exists i | 0 <= i < |steps| :: Check(steps[i], i, bust) == wrong && Accepted(steps[..i], bust)
  {
    df, required := [], [];
    var currentUser := ROOT;
    var seen: set<string> := {};
    for i := 0 to |steps|
      invariant Translated(steps, i, staging, bust, currentUser, df, required)
      invariant seen == SetOf(required)
    {
      var step := steps[i];
      wrong := Check(step, i, bust);
      if wrong.Some? { return; }
      OneMoreStep(steps, i, staging, bust, currentUser, df, required);
      var code := EmitStep(step, i, currentUser, staging, bust);
      df := df + code;
      currentUser := UserAfter(step, currentUser);
      if step.kind.COPY? && step.filesHash !in seen {
        seen := seen + {step.filesHash};
        required := required + [step.filesHash];
      }
    }
    assert steps[..|steps|] == steps;
    wrong := None;
  }

  method Translate(input: Input, bust: Bust) returns (r: Result<Output, Error>)
    ensures IsAnswer(input, bust, r)
    ensures Answers(input, bust, r)
  {
    if input.fromImage == "" && input.fromTemplateImage == "" { return Err(BaseRequired); }
    if input.fromImage != "" && input.fromTemplateImage != "" { return Err(BasesExclusive); }
    var wrong, body, required := TranslateSteps(input.steps, StagingOf(input), bust);
    r := if wrong.Some? then Err(wrong.value)
    else Ok(Output(Preamble(BaseOf(input)) + body + Tail(), required));
    AnswerTells(input, bust, r);
  }
}
