// What the instructions do and what the steps ask for, and when the two agree.
module TranslateMeaning {
  import opened Common
  import opened Translate

  // ------------------------------------------------------------ the build itself

  datatype Event =
    | Ran(cmd: string, user: string, workdir: string, env: map<string, string>)
    | Copied(src: string, dest: string, owner: string, mode: string, workdir: string)
    | Fetched(image: string, src: string, dest: string)

  // What an image remembers for the build that starts from it.
  datatype Image = Image(user: string, workdir: string, env: map<string, string>, cmd: string)

  // The images a builder can start from or fetch from, by name.
  type Images = map<string, Image>

  // The image a build has come to, and what it did since it started from one.
  datatype Machine = Machine(images: Images, image: Image, trace: seq<Event>)

  function Resolve(workdir: string, path: string): string {
    if path != "" && path[0] == '/' then path else workdir + "/" + path
  }

  function SetAll(env: map<string, string>, pairs: seq<(string, string)>): map<string, string> {
    if pairs == [] then env
    else SetAll(env, pairs[..|pairs| - 1])[pairs[|pairs| - 1].0 := pairs[|pairs| - 1].1]
  }

  function OwnerOf(chown: string): string { if chown == "" then ROOT else chown }

  function Exec(instr: Instr, m: Machine): Machine {
    var im := m.image;
    match instr
    case Run(cmd) => m.(trace := m.trace + [Ran(cmd, im.user, im.workdir, im.env)])
    case Copy(chown, chmod, src, dest) =>
      m.(trace := m.trace + [Copied(src, dest, OwnerOf(chown), chmod, im.workdir)])
    case CopyFrom(image, src, dest) => m.(trace := m.trace + [Fetched(image, src, dest)])
    case Workdir(path) => m.(image := im.(workdir := Resolve(im.workdir, path)))
    case User(name) => m.(image := im.(user := name))
    case Env(pairs) => m.(image := im.(env := SetAll(im.env, pairs)))
    case Cmd(path) => m.(image := im.(cmd := path))
    case From(name) => if name in m.images then m.(image := m.images[name], trace := []) else m
    case Arg(_, _) => m
  }

  function ExecAll(instrs: seq<Instr>, m: Machine): Machine {
    if instrs == [] then m else Exec(instrs[|instrs| - 1], ExecAll(instrs[..|instrs| - 1], m))
  }

  lemma {:induction false} ExecAppend(a: seq<Instr>, b: seq<Instr>, m: Machine)
    ensures ExecAll(a + b, m) == ExecAll(b, ExecAll(a, m))
  {
    if b == [] {
      assert a + b == a;
    } else {
      ExecAppend(a, b[..|b| - 1], m);
      assert (a + b)[..|a + b| - 1] == a + b[..|b| - 1];
    }
  }

  // The builder turns down instructions with an empty word where one is needed.
  predicate WellFormed(instr: Instr) {
    match instr
    case From(image) => image != ""
    case Run(cmd) => cmd != ""
    case Copy(_, _, src, dest) => src != "" && dest != ""
    case CopyFrom(image, src, dest) => image != "" && src != "" && dest != ""
    case Workdir(path) => path != ""
    case User(name) => name != ""
    case Env(pairs) => pairs != [] && forall k | 0 <= k < |pairs| :: pairs[k].0 != ""
    case Arg(_, _) => true
    case Cmd(path) => path != ""
  }

  // ... and instructions that name an image it does not have.
  predicate Available(instr: Instr, images: Images) {
    match instr
    case From(name) => name in images
    case CopyFrom(name, _, _) => name in images
    case _ => true
  }

  const SCRATCH := Image("root", "/", map[], "")

  // A build from nothing but a file and the images at hand: none if the builder
  // turns the file down, or if the file does not say where to start.
  ghost function BuildImage(dockerfile: seq<Instr>, images: Images): Option<Machine> {
    if dockerfile != [] && dockerfile[0].From? && AllWellFormed(dockerfile) && AllAvailable(dockerfile, images)
    then Some(ExecAll(dockerfile, Machine(images, SCRATCH, []))) else None
  }

  ghost predicate AllWellFormed(instrs: seq<Instr>) {
    forall i | 0 <= i < |instrs| :: WellFormed(instrs[i])
  }

  ghost predicate AllAvailable(instrs: seq<Instr>, images: Images) {
    forall i | 0 <= i < |instrs| :: Available(instrs[i], images)
  }

  // ------------------------------------------------------------ what steps ask for

  function Means(step: Step, staging: string, m: Machine): Machine {
    var im := m.image;
    match step.kind
    case RUN =>
      var user := if ArgAt(step, 1) == "" then im.user else ArgAt(step, 1);
      m.(trace := m.trace + [Ran(ArgAt(step, 0), user, im.workdir, im.env)])
    case COPY =>
      var owner := if ArgAt(step, 2) == "" then im.user else ArgAt(step, 2);
      m.(trace := m.trace + [Copied(staging + "/" + step.filesHash + "/" + ArgAt(step, 0), ArgAt(step, 1),
                                    owner, ArgAt(step, 3), im.workdir)])
    case WORKDIR => m.(image := im.(workdir := Resolve(im.workdir, ArgAt(step, 0))))
    case USER => m.(image := im.(user := ArgAt(step, 0)))
    case ENV => if |step.args| % 2 == 0 then m.(image := im.(env := SetAll(im.env, PairsOf(step.args)))) else m
    case _ => m
  }

  function MeansAll(steps: seq<Step>, staging: string, m: Machine): Machine {
    if steps == [] then m
    else Means(steps[|steps| - 1], staging, MeansAll(steps[..|steps| - 1], staging, m))
  }

  // A step every one of whose needed words is there.
  predicate Complete(step: Step) {
    match step.kind
    case RUN => ArgAt(step, 0) != ""
    case COPY => ArgAt(step, 1) != ""
    case WORKDIR => ArgAt(step, 0) != ""
    case USER => ArgAt(step, 0) != ""
    case ENV => forall k | 0 <= k < |step.args| && k % 2 == 0 :: step.args[k] != ""
    case _ => true
  }

  // ------------------------------------- how far the translator's USER can be off

  // The translator takes the base image's user to be root. Where that is wrong
  // (OnBase) the mistake shows in some steps; a RUN override moves the build to
  // root for good (OnRoot); the first USER step ends the trouble (Known).
  datatype Track = Known | OnBase | OnRoot

  function NextTrack(step: Step, t: Track): Track {
    match step.kind
    case USER => Known
    case RUN => if t.OnBase? && ArgAt(step, 1) != "" && ArgAt(step, 1) != ROOT then OnRoot else t
    case _ => t
  }

  // Whether this step comes out as asked.
  predicate Harmless(step: Step, t: Track) {
    match step.kind
    case RUN =>
      (ArgAt(step, 1) == "" ==> !t.OnRoot?) && (ArgAt(step, 1) == ROOT ==> !t.OnBase?)
    case COPY => t.Known? || ArgAt(step, 2) != ""
    case _ => true
  }

  function TrackAfter(steps: seq<Step>, base: Image): Track {
    if steps == [] then (if base.user == ROOT then Known else OnBase)
    else NextTrack(steps[|steps| - 1], TrackAfter(steps[..|steps| - 1], base))
  }

  predicate AllHarmless(steps: seq<Step>, base: Image) {
    steps == [] ||
    (AllHarmless(steps[..|steps| - 1], base) && Harmless(steps[|steps| - 1], TrackAfter(steps[..|steps| - 1], base)))
  }

  lemma {:induction false} RootIsHarmless(steps: seq<Step>, base: Image)
    requires base.user == ROOT
    ensures AllHarmless(steps, base) && TrackAfter(steps, base) == Known
  {
    if steps != [] { RootIsHarmless(steps[..|steps| - 1], base); }
  }

  // --------------------------------------------------------------- simulation

  // The build (em) beside the steps' own meaning (me), after the same steps.
  ghost predicate Beside(em: Machine, me: Machine, user: string, base: Image, t: Track) {
    && em.image.workdir == me.image.workdir && em.image.env == me.image.env && em.image.cmd == me.image.cmd
    && |em.trace| == |me.trace|
    && match t
       case Known => em.image.user == user == me.image.user && user != ""
       case OnBase => em.image.user == base.user == me.image.user && user == ROOT != base.user
       case OnRoot => em.image.user == user == ROOT && me.image.user == base.user != ROOT
  }

  lemma ExecOne(a: Instr, m: Machine)
    ensures ExecAll([a], m) == Exec(a, m)
  {
    assert [a][..0] == [];
  }

  lemma ExecThree(a: Instr, b: Instr, c: Instr, m: Machine)
    ensures ExecAll([a, b, c], m) == Exec(c, Exec(b, Exec(a, m)))
  {
    assert [a, b, c] == [a] + [b] + [c];
    ExecAppend([a] + [b], [c], m);
    ExecAppend([a], [b], m);
    ExecOne(a, m);
    ExecOne(b, Exec(a, m));
    ExecOne(c, Exec(b, Exec(a, m)));
  }

  lemma ExecFive(a: Instr, b: Instr, c: Instr, d: Instr, e: Instr, m: Machine)
    ensures ExecAll([a, b, c, d, e], m) == Exec(e, Exec(d, Exec(c, Exec(b, Exec(a, m)))))
  {
    assert [a, b, c, d, e] == [a, b, c] + ([d] + [e]);
    ExecAppend([a, b, c], [d] + [e], m);
    ExecThree(a, b, c, m);
    var mid := Exec(c, Exec(b, Exec(a, m)));
    ExecAppend([d], [e], mid);
    ExecOne(d, mid);
    ExecOne(e, Exec(d, mid));
  }

  // The code of one step, without its cache bust, run on its own.
  function StepEffect(step: Step, user: string, staging: string, m: Machine): Machine {
    match step.kind
    case RUN =>
      var runAs := ArgAt(step, 1);
      if runAs != "" && runAs != user
      then Exec(User(user), Exec(Run(ArgAt(step, 0)), Exec(User(runAs), m)))
      else Exec(Run(ArgAt(step, 0)), m)
    case COPY =>
      var chown := ArgAt(step, 2);
      Exec(Copy(if chown == "" && user != ROOT then user else chown, ArgAt(step, 3),
                staging + "/" + step.filesHash + "/" + ArgAt(step, 0), ArgAt(step, 1)), m)
    case WORKDIR => Exec(Workdir(ArgAt(step, 0)), m)
    case USER => Exec(User(ArgAt(step, 0)), m)
    case ENV => if step.args == [] || |step.args| % 2 != 0 then m else Exec(Env(PairsOf(step.args)), m)
    case _ => m
  }

  lemma CoreHasItsEffect(step: Step, user: string, staging: string, m: Machine)
    ensures ExecAll(CoreCode(step, user, staging), m) == StepEffect(step, user, staging, m)
  {
    var code := CoreCode(step, user, staging);
    if |code| == 1 {
      ExecOne(code[0], m);
      assert code == [code[0]];
    } else if |code| == 3 {
      ExecThree(code[0], code[1], code[2], m);
      assert code == [code[0], code[1], code[2]];
    }
  }

  lemma CodeHasItsEffect(step: Step, i: nat, user: string, staging: string, bust: Bust, m: Machine)
    requires Check(step, i, bust).None?
    ensures ExecAll(Code(step, i, user, staging, bust), m) == StepEffect(step, user, staging, m)
  {
    var line := BustLine(step, i, bust);
    ExecAppend(line, CoreCode(step, user, staging), m);
    if step.force { ExecOne(Arg(i, bust(i).value), m); }
    assert ExecAll(line, m) == m;
    CoreHasItsEffect(step, user, staging, m);
  }

  lemma SameSoFar(a: seq<Event>, b: seq<Event>, x: Event, y: Event)
    requires |a| == |b|
    ensures a + [x] == b + [y] <==> a == b && x == y
  {
    if a + [x] == b + [y] {
      assert a == (a + [x])[..|a|] == (b + [y])[..|b|] == b;
      assert x == (a + [x])[|a|] == (b + [y])[|b|] == y;
    }
  }

  ghost predicate StepStaysBeside(em: Machine, me: Machine, step: Step, user: string, staging: string, base: Image,
      t: Track) {
    var em', me' := StepEffect(step, user, staging, em), Means(step, staging, me);
    && Beside(em', me', UserAfter(step, user), base, NextTrack(step, t))
    && (em'.trace == me'.trace <==> em.trace == me.trace && Harmless(step, t))
  }

  lemma RunStaysBeside(em: Machine, me: Machine, step: Step, user: string, staging: string, base: Image, t: Track)
    requires Beside(em, me, user, base, t) && step.kind.RUN?
    ensures StepStaysBeside(em, me, step, user, staging, base, t)
  {
    var em', me' := StepEffect(step, user, staging, em), Means(step, staging, me);
    SameSoFar(em.trace, me.trace, em'.trace[|em.trace|], me'.trace[|me.trace|]);
  }

  lemma CopyStaysBeside(em: Machine, me: Machine, step: Step, user: string, staging: string, base: Image, t: Track)
    requires Beside(em, me, user, base, t) && step.kind.COPY?
    ensures StepStaysBeside(em, me, step, user, staging, base, t)
  {
    var em', me' := StepEffect(step, user, staging, em), Means(step, staging, me);
    SameSoFar(em.trace, me.trace, em'.trace[|em.trace|], me'.trace[|me.trace|]);
  }

  // One step keeps the two machines beside each other, and their traces stay
  // equal exactly if the step is harmless.
  lemma StepKeepsBeside(em: Machine, me: Machine, step: Step, i: nat, user: string, staging: string, bust: Bust,
      base: Image, t: Track)
    requires Beside(em, me, user, base, t) && Check(step, i, bust).None? && Complete(step)
    ensures StepStaysBeside(em, me, step, user, staging, base, t)
  {
    match step.kind
    case RUN => RunStaysBeside(em, me, step, user, staging, base, t);
    case COPY => CopyStaysBeside(em, me, step, user, staging, base, t);
    case _ =>
  }

  lemma {:induction false} BodyRunsBeside(steps: seq<Step>, staging: string, bust: Bust, m: Machine)
    requires Accepted(steps, bust) && (forall i | 0 <= i < |steps| :: Complete(steps[i]))
    ensures var em, me := ExecAll(Body(steps, staging, bust), m), MeansAll(steps, staging, m);
            && Beside(em, me, CurrentUser(steps), m.image, TrackAfter(steps, m.image))
            && (em.trace == me.trace <==> AllHarmless(steps, m.image))
  {
    if steps != [] {
      var n, front := |steps| - 1, steps[..|steps| - 1];
      BodyRunsBeside(front, staging, bust, m);
      var code := Code(steps[n], n, CurrentUser(front), staging, bust);
      var em, me := ExecAll(Body(front, staging, bust), m), MeansAll(front, staging, m);
      ExecAppend(Body(front, staging, bust), code, m);
      CodeHasItsEffect(steps[n], n, CurrentUser(front), staging, bust, em);
      StepKeepsBeside(em, me, steps[n], n, CurrentUser(front), staging, bust, m.image, TrackAfter(front, m.image));
    }
  }

  // --------------------------------------------- which files the builder accepts

  ghost predicate AllComplete(steps: seq<Step>) {
    forall i | 0 <= i < |steps| :: Complete(steps[i])
  }

  lemma WellFormedAppend(a: seq<Instr>, b: seq<Instr>)
    ensures AllWellFormed(a + b) <==> AllWellFormed(a) && AllWellFormed(b)
  {
    if AllWellFormed(a + b) {
      assert forall i | 0 <= i < |a| :: a[i] == (a + b)[i];
      assert forall i | 0 <= i < |b| :: b[i] == (a + b)[|a| + i];
    }
  }

  lemma KeysAreThere(args: seq<string>)
    requires |args| % 2 == 0
    ensures (forall k | 0 <= k < |PairsOf(args)| :: PairsOf(args)[k].0 != "")
       <==> (forall k | 0 <= k < |args| && k % 2 == 0 :: args[k] != "")
  {
    PairsAt(args);
    var pairs := PairsOf(args);
    if forall k | 0 <= k < |pairs| :: pairs[k].0 != "" {
      forall k | 0 <= k < |args| && k % 2 == 0
        ensures args[k] != ""
      {
        assert pairs[k / 2].0 == args[k];
      }
    }
    if forall k | 0 <= k < |args| && k % 2 == 0 :: args[k] != "" {
      forall k | 0 <= k < |pairs|
        ensures pairs[k].0 != ""
      {
        assert args[2 * k] != "";
      }
    }
  }

  lemma CoreIsWellFormed(step: Step, user: string, staging: string)
    requires user != "" && (step.kind.ENV? ==> |step.args| % 2 == 0)
    ensures AllWellFormed(CoreCode(step, user, staging)) <==> Complete(step)
  {
    var code := CoreCode(step, user, staging);
    match step.kind
    case ENV =>
      if step.args != [] {
        KeysAreThere(step.args);
        PairsAt(step.args);
        assert code[0] == Env(PairsOf(step.args));
      }
    case RUN =>
      if |code| == 3 { assert code[1] == Run(ArgAt(step, 0)); } else { assert code[0] == Run(ArgAt(step, 0)); }
    case COPY => assert WellFormed(code[0]) <==> ArgAt(step, 1) != "";
    case WORKDIR => assert WellFormed(code[0]) <==> ArgAt(step, 0) != "";
    case USER => assert WellFormed(code[0]) <==> ArgAt(step, 0) != "";
    case _ =>
  }

  lemma CodeIsWellFormed(step: Step, i: nat, user: string, staging: string, bust: Bust)
    requires Check(step, i, bust).None? && user != ""
    ensures AllWellFormed(Code(step, i, user, staging, bust)) <==> Complete(step)
  {
    WellFormedAppend(BustLine(step, i, bust), CoreCode(step, user, staging));
    CoreIsWellFormed(step, user, staging);
  }

  lemma {:induction false} CompleteUserIsNamed(steps: seq<Step>)
    requires AllComplete(steps)
    ensures CurrentUser(steps) != ""
  {
    if steps != [] { CompleteUserIsNamed(steps[..|steps| - 1]); }
  }

  lemma CompleteOneMore(front: seq<Step>, last: Step)
    ensures AllComplete(front + [last]) <==> AllComplete(front) && Complete(last)
  {
    var steps := front + [last];
    assert forall i | 0 <= i < |front| :: steps[i] == front[i];
    assert steps[|front|] == last;
  }

  lemma {:induction false} BodyIsWellFormed(steps: seq<Step>, staging: string, bust: Bust)
    requires Accepted(steps, bust)
    ensures AllWellFormed(Body(steps, staging, bust)) <==> AllComplete(steps)
  {
    if steps != [] {
      var n, front := |steps| - 1, steps[..|steps| - 1];
      BodyIsWellFormed(front, staging, bust);
      WellFormedAppend(Body(front, staging, bust), Code(steps[n], n, CurrentUser(front), staging, bust));
      if AllComplete(front) {
        CompleteUserIsNamed(front);
        CodeIsWellFormed(steps[n], n, CurrentUser(front), staging, bust);
      }
      assert steps == front + [steps[n]];
      CompleteOneMore(front, steps[n]);
    }
  }

  // ------------------------------------------------------------- main results

  function Opened(images: Images, base: Image): Machine {
    Machine(images, base, [Ran(MAKE_USER, base.user, base.workdir, base.env)])
  }

  // What a step list asks of a build on the image base.
  function Asked(steps: seq<Step>, staging: string, images: Images, base: Image): Machine {
    MeansAll(steps, staging, Opened(images, base))
  }

  // What every generated file ends with.
  function Closing(im: Image): seq<Event> {
    [Ran(CHOWN_HOME, ROOT, im.workdir, im.env),
     Fetched(ENVD_IMAGE, ENVD_PATH, ENVD_PATH), Fetched(ENVD_IMAGE, INIT_PATH, INIT_PATH)]
  }

  lemma PreambleRuns(name: string, images: Images)
    requires name in images
    ensures ExecAll(Preamble(name), Machine(images, SCRATCH, [])) == Opened(images, images[name])
  {
    var m, base := Machine(images, SCRATCH, []), images[name];
    assert Preamble(name) == [From(name)] + [Run(MAKE_USER)];
    ExecAppend([From(name)], [Run(MAKE_USER)], m);
    ExecOne(From(name), m);
    ExecOne(Run(MAKE_USER), Machine(images, base, []));
    assert [] + [Ran(MAKE_USER, base.user, base.workdir, base.env)] == Opened(images, base).trace;
  }

  lemma ClosingEffect(root: string, cmd: string, image: string, p: string, q: string, m: Machine)
    ensures Exec(Cmd(q), Exec(CopyFrom(image, q, q), Exec(CopyFrom(image, p, p), Exec(Run(cmd), Exec(User(root),
        m))))) ==
            Machine(m.images, m.image.(user := root, cmd := q),
                    m.trace + [Ran(cmd, root, m.image.workdir, m.image.env), Fetched(image, p, p), Fetched(image,
                        q, q)])
  {
    var ran, first, second := Ran(cmd, root, m.image.workdir, m.image.env), Fetched(image, p, p), Fetched(image, q, q);
    assert m.trace + [ran] + [first] + [second] == m.trace + [ran, first, second];
  }

  lemma TailRuns(m: Machine)
    ensures ExecAll(Tail(), m) ==
            Machine(m.images, m.image.(user := ROOT, cmd := INIT_PATH), m.trace + Closing(m.image))
  {
    ExecFive(User(ROOT), Run(CHOWN_HOME), CopyFrom(ENVD_IMAGE, ENVD_PATH, ENVD_PATH),
             CopyFrom(ENVD_IMAGE, INIT_PATH, INIT_PATH), Cmd(INIT_PATH), m);
    ClosingEffect(ROOT, CHOWN_HOME, ENVD_IMAGE, ENVD_PATH, INIT_PATH, m);
  }

  lemma WholeFileRuns(input: Input, bust: Bust, images: Images)
    requires Accepted(input.steps, bust) && BaseOf(input) in images
    ensures ExecAll(Compiled(input, bust).dockerfile, Machine(images, SCRATCH, [])) ==
            ExecAll(Tail(), ExecAll(Body(input.steps, StagingOf(input), bust), Opened(images, images[BaseOf(input)])))
  {
    var pre, body := Preamble(BaseOf(input)), Body(input.steps, StagingOf(input), bust);
    var m := Machine(images, SCRATCH, []);
    ExecAppend(pre + body, Tail(), m);
    ExecAppend(pre, body, m);
    PreambleRuns(BaseOf(input), images);
  }

  lemma FrameIsWellFormed(base: string)
    requires base != ""
    ensures AllWellFormed(Preamble(base)) && AllWellFormed(Tail())
  {
  }

  lemma FrameIsAvailable(base: string, images: Images)
    ensures AllAvailable(Preamble(base), images) <==> base in images
    ensures AllAvailable(Tail(), images) <==> "edvabe/envd-source:latest" in images
  {
    var pre, tail := Preamble(base), Tail();
    assert pre[0] == From(base) && tail[2] == CopyFrom(ENVD_IMAGE, ENVD_PATH, ENVD_PATH);
  }

  lemma AvailableAppend(a: seq<Instr>, b: seq<Instr>, images: Images)
    ensures AllAvailable(a + b, images) <==> AllAvailable(a, images) && AllAvailable(b, images)
  {
    if AllAvailable(a + b, images) {
      assert forall i | 0 <= i < |a| :: a[i] == (a + b)[i];
      assert forall i | 0 <= i < |b| :: b[i] == (a + b)[|a| + i];
    }
  }

  lemma CodeIsAvailable(step: Step, i: nat, user: string, staging: string, bust: Bust, images: Images)
    requires Check(step, i, bust).None?
    ensures AllAvailable(Code(step, i, user, staging, bust), images)
  {
  }

  // Steps name no image.
  lemma {:induction false} BodyIsAvailable(steps: seq<Step>, staging: string, bust: Bust, images: Images)
    requires Accepted(steps, bust)
    ensures AllAvailable(Body(steps, staging, bust), images)
  {
    if steps != [] {
      var n, front := |steps| - 1, steps[..|steps| - 1];
      BodyIsAvailable(front, staging, bust, images);
      CodeIsAvailable(steps[n], n, CurrentUser(front), staging, bust, images);
      AvailableAppend(Body(front, staging, bust), Code(steps[n], n, CurrentUser(front), staging, bust), images);
    }
  }

  lemma FileIsAvailable(input: Input, bust: Bust, images: Images)
    requires Accepted(input.steps, bust)
    ensures AllAvailable(Compiled(input, bust).dockerfile, images)
       <==> BaseOf(input) in images && "edvabe/envd-source:latest" in images
  {
    var pre, body := Preamble(BaseOf(input)), Body(input.steps, StagingOf(input), bust);
    AvailableAppend(pre + body, Tail(), images);
    AvailableAppend(pre, body, images);
    BodyIsAvailable(input.steps, StagingOf(input), bust, images);
    FrameIsAvailable(BaseOf(input), images);
  }

  // An accepted step list builds exactly if none of its steps leaves a needed
  // word empty (an empty user name among them) and the images are there: the one
  // the input names, and the one that holds envd.
  lemma BuildsIfComplete(input: Input, name: string, bust: Bust, images: Images)
    requires NamesBase(input, name) && Accepted(input.steps, bust)
    ensures BuildImage(Compiled(input, bust).dockerfile, images).Some?
       <==> AllComplete(input.steps) && name in images && "edvabe/envd-source:latest" in images
  {
    var pre, body := Preamble(BaseOf(input)), Body(input.steps, StagingOf(input), bust);
    WellFormedAppend(pre + body, Tail());
    WellFormedAppend(pre, body);
    BodyIsWellFormed(input.steps, StagingOf(input), bust);
    FrameIsWellFormed(BaseOf(input));
    FileIsAvailable(input, bust, images);
    assert AllWellFormed(Compiled(input, bust).dockerfile) <==> AllComplete(input.steps);
    assert Compiled(input, bust).dockerfile[0] == From(BaseOf(input));
  }

  // A built machine is what was asked on the image base, traces apart.
  ghost predicate BuiltAsAsked(built: Machine, asked: Machine) {
    built.image == asked.image.(user := ROOT, cmd := INIT_PATH)
  }

  // ... and the traces too.
  ghost predicate DidAsAsked(built: Machine, asked: Machine) {
    built.trace == asked.trace + Closing(asked.image)
  }

  // The meaning is preserved: on the image the input names, the same commands as
  // the same users in the same directories and environments, the same copies
  // with the same owners, exactly when that image's user is root or the steps
  // never show the difference. The built image is right either way, and its user
  // is root.
  lemma TranslationKeepsMeaning(input: Input, name: string, bust: Bust, images: Images)
    requires NamesBase(input, name) && Accepted(input.steps, bust) && AllComplete(input.steps)
    requires name in images && "edvabe/envd-source:latest" in images
    ensures var built := BuildImage(Compiled(input, bust).dockerfile, images);
            var staging := if input.stagingDir == "" then "ctx" else input.stagingDir;
            var asked := Asked(input.steps, staging, images, images[name]);
            && built.Some? && BuiltAsAsked(built.value, asked)
            && (DidAsAsked(built.value, asked) <==> images[name].user == ROOT || AllHarmless(input.steps, images[name]))
  {
    var staging, base := StagingOf(input), images[name];
    BuildsIfComplete(input, name, bust, images);
    WholeFileRuns(input, bust, images);
    BodyRunsBeside(input.steps, staging, bust, Opened(images, base));
    var em := ExecAll(Body(input.steps, staging, bust), Opened(images, base));
    var asked := Asked(input.steps, staging, images, base);
    TailRuns(em);
    assert Closing(em.image) == Closing(asked.image);
    SameEnding(em.trace, asked.trace, Closing(asked.image));
    if base.user == ROOT { RootIsHarmless(input.steps, base); }
  }

  lemma SameEnding(a: seq<Event>, b: seq<Event>, z: seq<Event>)
    requires |a| == |b|
    ensures a + z == b + z <==> a == b
  {
    if a + z == b + z { assert a == (a + z)[..|a|] == (b + z)[..|b|] == b; }
  }

  lemma {:induction false} HarmStays(steps: seq<Step>, base: Image)
    requires steps != [] && base.user != ROOT && !Harmless(steps[0], OnBase)
    ensures !AllHarmless(steps, base)
  {
    if |steps| == 1 {
      assert steps[..0] == [];
    } else {
      HarmStays(steps[..|steps| - 1], base);
    }
  }

  // Where the named image's user is not root, any build that begins with a plain
  // COPY does something else than asked.
  lemma OtherBaseUserGoesWrong(input: Input, name: string, bust: Bust, images: Images)
    requires NamesBase(input, name) && Accepted(input.steps, bust) && AllComplete(input.steps)
    requires name in images && "edvabe/envd-source:latest" in images && images[name].user != ROOT
    requires input.steps != [] && input.steps[0].kind.COPY? && ArgAt(input.steps[0], 2) == ""
    ensures var built := BuildImage(Compiled(input, bust).dockerfile, images);
            var staging := if input.stagingDir == "" then "ctx" else input.stagingDir;
            built.Some? && !DidAsAsked(built.value, Asked(input.steps, staging, images, images[name]))
  {
    HarmStays(input.steps, images[name]);
    TranslationKeepsMeaning(input, name, bust, images);
  }

  // ------------------------------------------------- templates built on templates

  // One build, and the tag its image is stored under.
  datatype Link = Link(input: Input, tag: string)

  ghost predicate GoodInput(input: Input, bust: Bust) {
    OneBase(input) && Accepted(input.steps, bust) && AllComplete(input.steps)
  }

  // Each build after the first starts from the image the one before it stored.
  ghost predicate GoodChain(chain: seq<Link>, bust: Bust) {
    && (forall k | 0 <= k < |chain| :: GoodInput(chain[k].input, bust))
    && forall k | 0 < k < |chain| :: NamesBase(chain[k].input, chain[k - 1].tag)
  }

  // The images at hand after the builds of a chain.
  ghost function ImagesAfter(chain: seq<Link>, bust: Bust, images: Images): Images
    requires GoodChain(chain, bust)
  {
    if chain == [] then images
    else
      var last, before := chain[|chain| - 1], ImagesAfter(chain[..|chain| - 1], bust, images);
      match BuildImage(Compiled(last.input, bust).dockerfile, before)
      case Some(m) => before[last.tag := m.image]
      case None => before
  }

  function AskedOf(input: Input, images: Images, base: Image): Machine {
    Asked(input.steps, if input.stagingDir == "" then "ctx" else input.stagingDir, images, base)
  }

  // The image a chain asks for when its first build starts from base.
  function AskedImage(chain: seq<Link>, images: Images, base: Image): Image {
    if chain == [] then base
    else
      var n := |chain| - 1;
      AskedOf(chain[n].input, images, AskedImage(chain[..n], images, base)).image.(user := ROOT, cmd := INIT_PATH)
  }

  lemma {:induction false} ImagesOnlyMatter(steps: seq<Step>, staging: string, a: Images, b: Images, base: Image)
    ensures var ma, mb := Asked(steps, staging, a, base), Asked(steps, staging, b, base);
            ma.image == mb.image && ma.trace == mb.trace
  {
    if steps != [] { ImagesOnlyMatter(steps[..|steps| - 1], staging, a, b, base); }
  }

  // One build of a chain, on the image its parent is stored as.
  lemma LinkKeepsMeaning(input: Input, name: string, bust: Bust, before: Images, images: Images)
    requires NamesBase(input, name) && Accepted(input.steps, bust) && AllComplete(input.steps)
    requires name in before && "edvabe/envd-source:latest" in before
    ensures var built := BuildImage(Compiled(input, bust).dockerfile, before);
            var asked := AskedOf(input, images, before[name]);
            && built.Some? && BuiltAsAsked(built.value, asked)
            && (before[name].user == ROOT ==> DidAsAsked(built.value, asked))
  {
    TranslationKeepsMeaning(input, name, bust, before);
    ImagesOnlyMatter(input.steps, StagingOf(input), before, images, before[name]);
  }

  // Every build in a chain does what its steps ask, on the image its parents
  // asked for; only the first can be let down by its base image's user.
  lemma {:induction false} ChainKeepsMeaning(chain: seq<Link>, name: string, bust: Bust, images: Images)
    requires chain != [] && GoodChain(chain, bust) && NamesBase(chain[0].input, name)
    requires name in images && "edvabe/envd-source:latest" in images
    ensures var n, last := |chain| - 1, chain[|chain| - 1];
            var before := ImagesAfter(chain[..n], bust, images);
            var parent := AskedImage(chain[..n], images, images[name]);
            var built := BuildImage(Compiled(last.input, bust).dockerfile, before);
            && ImagesAfter(chain, bust, images).Keys >= images.Keys
            && last.tag in ImagesAfter(chain, bust, images)
            && ImagesAfter(chain, bust, images)[last.tag] == AskedImage(chain, images, images[name])
            && AskedImage(chain, images, images[name]).user == ROOT
            && built.Some?
            && (n > 0 || parent.user == ROOT ==> DidAsAsked(built.value, AskedOf(last.input, images, parent)))
  {
    var n, last := |chain| - 1, chain[|chain| - 1];
    var from := if n > 0 then chain[n - 1].tag else name;
    if n > 0 { ChainKeepsMeaning(chain[..n], name, bust, images); }
    LinkKeepsMeaning(last.input, from, bust, ImagesAfter(chain[..n], bust, images), images);
  }

  // ------------------------------------------------------------- staged files

  // Required lists each hash a COPY step names, once, and nothing else; longer
  // step lists only add at the end, so the order is that of first use.
  lemma {:induction false} RequiredIsExact(steps: seq<Step>)
    ensures NoDups(Required(steps))
    ensures SetOf(Required(steps)) == set i | 0 <= i < |steps| && steps[i].kind.COPY? :: steps[i].filesHash
    ensures steps != [] ==> Required(steps[..|steps| - 1]) <= Required(steps)
  {
    if steps != [] {
      var n, front := |steps| - 1, steps[..|steps| - 1];
      RequiredIsExact(front);
      var before := set i | 0 <= i < |front| && front[i].kind.COPY? :: front[i].filesHash;
      var after := set i | 0 <= i < |steps| && steps[i].kind.COPY? :: steps[i].filesHash;
      assert after == if steps[n].kind.COPY? then before + {steps[n].filesHash} else before by {
        forall h | h in before ensures h in after {
          var i :| 0 <= i < |front| && front[i].kind.COPY? && front[i].filesHash == h;
          assert steps[i] == front[i];
        }
        if steps[n].kind.COPY? { assert steps[n].filesHash in after; }
        forall h | h in after ensures h in before || (steps[n].kind.COPY? && h == steps[n].filesHash) {
          var i :| 0 <= i < |steps| && steps[i].kind.COPY? && steps[i].filesHash == h;
          if i < n { assert front[i] == steps[i]; }
        }
      }
      assert forall h :: h in SetOf(Required(front)) <==> h in Required(front);
    }
  }
}
