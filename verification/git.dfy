/** The git wrapper: the argument vectors each wrapper hands to `git`,
    how their results are shaped, the chronological order of `Revisions`
    and the decision made by `RevisionExists`. Running git is an oracle;
    nothing about repository state is modelled. */
module Git {
  import opened Wrappers
  import opened Text

  /** What is handed to `utils.RunCmdRedirectOutput`: working directory
      and full argument vector. */
  datatype Invocation = Invocation(cwd: string, argv: seq<string>)

  /** What `utils.RunCmdRedirectOutput` reports: stdout, stderr, error. */
  datatype Run = Run(stdout: string, stderr: string, err: Option<string>)

  /** `loggerError` is the error `LOGGER.GetLogger(logdir, "git")` returns
      for a log directory; `run` is `utils.RunCmdRedirectOutput` applied
      to a working directory and a vector. */
  datatype GitEnv = GitEnv(loggerError: string -> Option<string>, run: Invocation -> Run)

  /** The result of `gitRun` together with the call it made to the runner, if any. */
  datatype GitCall = GitCall(invoked: Option<Invocation>, stdout: string, stderr: string, err: Option<string>)

  /** `gitRun`: hand the runner `git` followed by `command`, unless the
      logger cannot be created, in which case the runner is not called
      and the logger's error is returned. */
  function GitRun(env: GitEnv, cwd: string, command: seq<string>, logdir: string): (r: GitCall)
    ensures env.loggerError(logdir).Some? ==>
              r.invoked.None? && r.stdout == "" && r.stderr == "" && r.err == env.loggerError(logdir)
    ensures env.loggerError(logdir).None? ==> (
              && r.invoked.Some?
              && r.invoked.value.cwd == cwd
              && |r.invoked.value.argv| == |command| + 1
              && r.invoked.value.argv[0] == "git"
              && r.invoked.value.argv[1..] == command
              && r.stdout == env.run(r.invoked.value).stdout
              && r.stderr == env.run(r.invoked.value).stderr
              && r.err == env.run(r.invoked.value).err)
  {
    var args := ["git"] + command;
    match env.loggerError(logdir)
    case Some(e) => GitCall(None, "", "", Some(e))
    case None =>
      var out := env.run(Invocation(cwd, args));
      GitCall(Some(Invocation(cwd, args)), out.stdout, out.stderr, out.err)
  }

  /** The git subcommands the wrappers issue. */
  datatype Command =
    | ResetSoft(sha: string)
    | ResetToPrevious
    | CheckoutRef(where: string, force: bool)
    | CleanAll
    | ShowToplevel
    | RemoteOriginUrl
    | AbbrevRefHead
    | RevParseHead
    | ShowNoPatch(revision: string)

  /** The literal reflog reference `ResetBack` passes, single quotes included. */
  const PreviousHead := "'HEAD@{1}'"

  function Args(c: Command): seq<string> {
    match c
    case ResetSoft(sha) => ["reset", "--soft", sha]
    case ResetToPrevious => ["reset", PreviousHead]
    case CheckoutRef(where, force) => if force then ["checkout", "-f", where] else ["checkout", where]
    case CleanAll => ["clean", "-fdx"]
    case ShowToplevel => ["rev-parse", "--show-toplevel"]
    case RemoteOriginUrl => ["remote", "get-url", "origin"]
    case AbbrevRefHead => ["rev-parse", "--abbrev-ref", "HEAD"]
    case RevParseHead => ["rev-parse", "HEAD"]
    case ShowNoPatch(revision) => ["show", "--no-patch", revision]
  }

  /** Reads a git argument vector back as the command it encodes. */
  function ParseArgs(v: seq<string>): Option<Command> {
    if v == ["reset", PreviousHead] then Some(ResetToPrevious)
    else if |v| == 3 && v[0] == "reset" && v[1] == "--soft" then Some(ResetSoft(v[2]))
    else if |v| == 3 && v[0] == "checkout" && v[1] == "-f" then Some(CheckoutRef(v[2], true))
    else if |v| == 2 && v[0] == "checkout" then Some(CheckoutRef(v[1], false))
    else if v == ["clean", "-fdx"] then Some(CleanAll)
    else if v == ["rev-parse", "--show-toplevel"] then Some(ShowToplevel)
    else if v == ["remote", "get-url", "origin"] then Some(RemoteOriginUrl)
    else if v == ["rev-parse", "--abbrev-ref", "HEAD"] then Some(AbbrevRefHead)
    else if v == ["rev-parse", "HEAD"] then Some(RevParseHead)
    else if |v| == 3 && v[0] == "show" && v[1] == "--no-patch" then Some(ShowNoPatch(v[2]))
    else None
  }

  /** Each command's vector reads back as that command ... */
  lemma ParseArgsOfArgs(c: Command)
    ensures ParseArgs(Args(c)) == Some(c)
  {
  }

  /** ... and every vector that reads back is that command's vector. */
  lemma ArgsOfParseArgs(v: seq<string>)
    requires ParseArgs(v).Some?
    ensures Args(ParseArgs(v).value) == v
  {
  }

  /** So no two commands hand the runner the same vector: the vectors of
      a forced and an unforced checkout differ, even for a ref named "-f"
      (how git itself reads such a vector is not modelled). */
  lemma ArgsInjective(c: Command, d: Command)
    requires Args(c) == Args(d)
    ensures c == d
  {
    ParseArgsOfArgs(c);
    ParseArgsOfArgs(d);
  }

  /** What a wrapper returning only `error` leaves observable: the
      process it started, if any, and that error. */
  datatype Effect = Effect(invoked: Option<Invocation>, err: Option<string>)

  function Perform(env: GitEnv, cwd: string, c: Command, logdir: string): Effect {
    var call := GitRun(env, cwd, Args(c), logdir);
    Effect(call.invoked, call.err)
  }

  /** `Reset`: `git reset --soft <sha>`. */
  function Reset(env: GitEnv, cwd: string, sha: string, logdir: string): (e: Effect)
    ensures e.invoked.None? <==> env.loggerError(logdir).Some?
    ensures e.invoked.Some? ==> e.invoked.value == Invocation(cwd, ["git", "reset", "--soft", sha])
    ensures e.err == (if e.invoked.Some? then env.run(e.invoked.value).err else env.loggerError(logdir))
  {
    Perform(env, cwd, ResetSoft(sha), logdir)
  }

  /** `ResetBack`: the vector `git reset 'HEAD@{1}'`, whose last element
      holds the single quotes as characters. */
  function ResetBack(env: GitEnv, cwd: string, logdir: string): (e: Effect)
    ensures e.invoked.None? <==> env.loggerError(logdir).Some?
    ensures e.invoked.Some? ==> e.invoked.value == Invocation(cwd, ["git", "reset", "'HEAD@{1}'"])
    ensures e.err == (if e.invoked.Some? then env.run(e.invoked.value).err else env.loggerError(logdir))
  {
    Perform(env, cwd, ResetToPrevious, logdir)
  }

  /** `Checkout`: `git checkout -f <where>` when forced, else `git checkout <where>`. */
  function Checkout(env: GitEnv, cwd: string, where: string, force: bool, logdir: string): (e: Effect)
    ensures e.invoked.None? <==> env.loggerError(logdir).Some?
    ensures e.invoked.Some? && force ==> e.invoked.value == Invocation(cwd, ["git", "checkout", "-f", where])
    ensures e.invoked.Some? && !force ==> e.invoked.value == Invocation(cwd, ["git", "checkout", where])
    ensures e.err == (if e.invoked.Some? then env.run(e.invoked.value).err else env.loggerError(logdir))
  {
    Perform(env, cwd, CheckoutRef(where, force), logdir)
  }

  /** `Clean`: `git clean -fdx`. */
  function Clean(env: GitEnv, cwd: string, logdir: string): (e: Effect)
    ensures e.invoked.None? <==> env.loggerError(logdir).Some?
    ensures e.invoked.Some? ==> e.invoked.value == Invocation(cwd, ["git", "clean", "-fdx"])
    ensures e.err == (if e.invoked.Some? then env.run(e.invoked.value).err else env.loggerError(logdir))
  {
    Perform(env, cwd, CleanAll, logdir)
  }

  /** `Revisions`: the `%H` log (newest first, as `git log` prints it)
      in chronological order. The log itself is an input here. */
  function Revisions(newestFirst: seq<string>): (r: seq<string>)
    ensures |r| == |newestFirst|
    ensures forall i :: 0 <= i < |r| ==> r[i] == newestFirst[|newestFirst| - 1 - i]
  {
    Reverse(newestFirst)
  }

  /** Reordering loses and invents nothing ... */
  lemma {:induction false} RevisionsPermutes(newestFirst: seq<string>)
    ensures multiset(Revisions(newestFirst)) == multiset(newestFirst)
    decreases |newestFirst|
  {
    if newestFirst != [] {
      var tail := newestFirst[1..];
      RevisionsPermutes(tail);
      assert Revisions(newestFirst) == Revisions(tail) + [newestFirst[0]];
      assert newestFirst == [newestFirst[0]] + tail;
    }
  }

  /** ... and applying it twice gives back the log. */
  lemma RevisionsTwice(newestFirst: seq<string>)
    ensures Revisions(Revisions(newestFirst)) == newestFirst
  {
    ReverseInvolution(newestFirst);
  }

  /** `RevisionExists`: `git show --no-patch <revision>` is taken to have
      found the revision unless its stderr mentions the revision or
      "fatal:", or it failed. */
  function RevisionExists(env: GitEnv, cwd: string, revision: string, logdir: string): (b: bool)
    ensures var call := GitRun(env, cwd, ["show", "--no-patch", revision], logdir);
      b <==> && call.err.None?
             && !(exists i :: OccursAt(call.stderr, revision, i))
             && !(exists i :: OccursAt(call.stderr, "fatal:", i))
    // the probe is `git show --no-patch <revision>`
    ensures b ==> env.loggerError(logdir).None?
                  && env.run(Invocation(cwd, ["git", "show", "--no-patch", revision])).err.None?
    // every string contains "", so an empty revision is never found
    ensures revision == "" ==> !b
  {
    assert ["git"] + Args(ShowNoPatch(revision)) == ["git", "show", "--no-patch", revision];
    var call := GitRun(env, cwd, Args(ShowNoPatch(revision)), logdir);
    ContainsIffOccurs(call.stderr, revision);
    ContainsIffOccurs(call.stderr, "fatal:");
    !(Contains(call.stderr, revision) || Contains(call.stderr, "fatal:") || call.err.Some?)
  }

  /** A query's answer: its value and error. */
  datatype Answer = Answer(value: string, err: Option<string>)

  /** The shaping shared by `Root`, `RemoteUrl`, `Branch` and
      `CurrentRevision`: "" with the error, or trimmed stdout. */
  function Shape(call: GitCall): (a: Answer)
    ensures call.err.Some? ==> a == Answer("", call.err)
    ensures call.err.None? ==> (
              && a.err.None?
              && NoEdgeSpace(a.value)
              && exists k :: TrimmedAt(call.stdout, a.value, k))
  {
    if call.err.Some? then Answer("", call.err) else Answer(TrimSpace(call.stdout), None)
  }

  function Query(env: GitEnv, cwd: string, c: Command, logdir: string): Answer {
    Shape(GitRun(env, cwd, Args(c), logdir))
  }

  /** `Root`: the trimmed output of `git rev-parse --show-toplevel`. */
  function Root(env: GitEnv, cwd: string, logdir: string): (a: Answer)
    ensures a.err.Some? ==> a.value == ""
    ensures a.err.None? ==> (
              && env.loggerError(logdir).None?
              && env.run(Invocation(cwd, ["git", "rev-parse", "--show-toplevel"])).err.None?
              && a.value == TrimSpace(env.run(Invocation(cwd, ["git", "rev-parse", "--show-toplevel"])).stdout))
    ensures a.err.None? <==>
              env.loggerError(logdir).None? && env.run(Invocation(cwd, ["git", "rev-parse", "--show-toplevel"])).err.None?
    // the error is the logger's, or else that run's
    ensures a.err == (if env.loggerError(logdir).Some? then env.loggerError(logdir)
                      else env.run(Invocation(cwd, ["git", "rev-parse", "--show-toplevel"])).err)
  {
    assert ["git"] + Args(ShowToplevel) == ["git", "rev-parse", "--show-toplevel"];
    Query(env, cwd, ShowToplevel, logdir)
  }

  /** `RemoteUrl`: the trimmed output of `git remote get-url origin`. */
  function RemoteUrl(env: GitEnv, cwd: string, logdir: string): (a: Answer)
    ensures a.err.Some? ==> a.value == ""
    ensures a.err.None? ==> (
              && env.loggerError(logdir).None?
              && env.run(Invocation(cwd, ["git", "remote", "get-url", "origin"])).err.None?
              && a.value == TrimSpace(env.run(Invocation(cwd, ["git", "remote", "get-url", "origin"])).stdout))
    ensures a.err.None? <==>
              env.loggerError(logdir).None? && env.run(Invocation(cwd, ["git", "remote", "get-url", "origin"])).err.None?
    // the error is the logger's, or else that run's
    ensures a.err == (if env.loggerError(logdir).Some? then env.loggerError(logdir)
                      else env.run(Invocation(cwd, ["git", "remote", "get-url", "origin"])).err)
  {
    assert ["git"] + Args(RemoteOriginUrl) == ["git", "remote", "get-url", "origin"];
    Query(env, cwd, RemoteOriginUrl, logdir)
  }

  /** `Branch`: the trimmed output of `git rev-parse --abbrev-ref HEAD`. */
  function Branch(env: GitEnv, cwd: string, logdir: string): (a: Answer)
    ensures a.err.Some? ==> a.value == ""
    ensures a.err.None? ==> (
              && env.loggerError(logdir).None?
              && env.run(Invocation(cwd, ["git", "rev-parse", "--abbrev-ref", "HEAD"])).err.None?
              && a.value == TrimSpace(env.run(Invocation(cwd, ["git", "rev-parse", "--abbrev-ref", "HEAD"])).stdout))
    ensures a.err.None? <==>
              env.loggerError(logdir).None? && env.run(Invocation(cwd, ["git", "rev-parse", "--abbrev-ref", "HEAD"])).err.None?
    // the error is the logger's, or else that run's
    ensures a.err == (if env.loggerError(logdir).Some? then env.loggerError(logdir)
                      else env.run(Invocation(cwd, ["git", "rev-parse", "--abbrev-ref", "HEAD"])).err)
  {
    assert ["git"] + Args(AbbrevRefHead) == ["git", "rev-parse", "--abbrev-ref", "HEAD"];
    Query(env, cwd, AbbrevRefHead, logdir)
  }

  /** `CurrentRevision`: the trimmed output of `git rev-parse HEAD`. */
  function CurrentRevision(env: GitEnv, cwd: string, logdir: string): (a: Answer)
    ensures a.err.Some? ==> a.value == ""
    ensures a.err.None? ==> (
              && env.loggerError(logdir).None?
              && env.run(Invocation(cwd, ["git", "rev-parse", "HEAD"])).err.None?
              && a.value == TrimSpace(env.run(Invocation(cwd, ["git", "rev-parse", "HEAD"])).stdout))
    ensures a.err.None? <==>
              env.loggerError(logdir).None? && env.run(Invocation(cwd, ["git", "rev-parse", "HEAD"])).err.None?
    // the error is the logger's, or else that run's
    ensures a.err == (if env.loggerError(logdir).Some? then env.loggerError(logdir)
                      else env.run(Invocation(cwd, ["git", "rev-parse", "HEAD"])).err)
  {
    assert ["git"] + Args(RevParseHead) == ["git", "rev-parse", "HEAD"];
    Query(env, cwd, RevParseHead, logdir)
  }
}
