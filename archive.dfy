/**
 * The debug archive of the log-export script: the names of the archive
 * directory and of the files inside it, and the steps `create` runs, in
 * order, with the directory removed at the end whatever happened before.
 *
 * Every step with a side effect (a directory made, a log exported, a
 * command run, a file written or copied, the tar made, the directory
 * removed) is an `Action`; whether it raises is the caller's oracle
 * `fails`, so the outcome of each step is an input of the model.
 */
module DebugArchive {
  import opened Wrappers
  import opened Fields
  import opened Services

  /** `posixpath.join(a, b)`: an absolute `b` replaces `a`; otherwise one `/` separates them. */
  function PathJoin(a: string, b: string): (r: string)
    ensures b != [] && b[0] == '/' ==> r == b
    ensures (b == [] || b[0] != '/') && (a == [] || a[|a| - 1] == '/') ==> r == a + b
    ensures (b == [] || b[0] != '/') && a != [] && a[|a| - 1] != '/' ==> r == a + "/" + b
    ensures (b == [] || b[0] != '/') ==> a <= r
  {
    if b != [] && b[0] == '/' then b
    else if a == [] || a[|a| - 1] == '/' then a + b
    else a + "/" + b
  }

  /** The joined path always ends with the second part. */
  lemma PathJoinSuffix(a: string, b: string)
    ensures |b| <= |PathJoin(a, b)| && PathJoin(a, b)[|PathJoin(a, b)| - |b|..] == b
  {
    var r := PathJoin(a, b);
    if !(b != [] && b[0] == '/') {
      var p := if a == [] || a[|a| - 1] == '/' then a else a + "/";
      assert r == p + b;
    }
  }

  /**
   * Under a fixed non-empty relative directory, joining is injective: two
   * names that give the same path are the same name, absolute or not.
   */
  lemma PathJoinInjective(a: string, b1: string, b2: string)
    requires a != [] && a[0] != '/'
    requires PathJoin(a, b1) == PathJoin(a, b2)
    ensures b1 == b2
  {
    var abs1, abs2 := b1 != [] && b1[0] == '/', b2 != [] && b2[0] == '/';
    var r := PathJoin(a, b1);
    if !abs1 && !abs2 {
      var sep := if a[|a| - 1] == '/' then "" else "/";
      assert r == (a + sep) + b1 && r == (a + sep) + b2;
      assert b1 == r[|a + sep|..] == b2;
    }
  }

  const ArchivePrefix := "clusterhq_flocker_logs_"

  /**
   * A `FlockerDebugArchive`: the suffix (host name and time) that makes
   * its names unique, and the working directory its relative names are
   * resolved against.  Its service manager and log exporter are not fields:
   * the listings and the export actions given to `create` stand for them.
   */
  datatype Archive = Archive(
    suffix: string,
    cwd: string)
  {
    /** The name of the archive directory. */
    function ArchiveName(): string {
      ArchivePrefix + suffix
    }

    /** The directory's absolute path: its name under the working directory. */
    function ArchivePath(): string {
      PathJoin(cwd, ArchiveName())
    }

    /** `_logfile_path(name)`: the file for `name` inside the archive directory. */
    function LogfilePath(name: string): string {
      PathJoin(ArchiveName(), name + "-" + suffix)
    }
  }

  /**
   * For a relative label and a suffix that does not end in `/`, the file
   * lies directly in the archive directory and carries the suffix.
   */
  lemma LogfilePathShape(a: Archive, name: string)
    requires name == [] || name[0] != '/'
    requires a.suffix == [] || a.suffix[|a.suffix| - 1] != '/'
    ensures a.LogfilePath(name) == ArchivePrefix + a.suffix + "/" + name + "-" + a.suffix
  {
    var n := name + "-" + a.suffix;
    assert n[0] != '/' by {
      if name == [] { assert n[0] == '-'; } else { assert n[0] == name[0]; }
    }
    var dir := a.ArchiveName();
    assert dir[|dir| - 1] != '/' by {
      if a.suffix == [] { assert dir[|dir| - 1] == '_'; } else { assert dir[|dir| - 1] == a.suffix[|a.suffix| - 1]; }
    }
  }

  /** `a + c == b + c` only when `a == b`. */
  lemma CancelRight(a: string, b: string, c: string)
    requires a + c == b + c
    ensures a == b
  {
    assert |a| == |b|;
    assert a == (a + c)[..|a|];
    assert b == (b + c)[..|b|];
  }

  /** Distinct labels give distinct files, for every label and every suffix. */
  lemma LogfilePathInjective(a: Archive, n1: string, n2: string)
    requires a.LogfilePath(n1) == a.LogfilePath(n2)
    ensures n1 == n2
  {
    var s := "-" + a.suffix;
    assert a.ArchiveName()[0] == 'c';
    assert n1 + "-" + a.suffix == n1 + s && n2 + "-" + a.suffix == n2 + s;
    PathJoinInjective(a.ArchiveName(), n1 + s, n2 + s);
    CancelRight(n1, n2, s);
  }

  /** One side effect of `create`. */
  datatype Action =
    | MakeDirs(path: string)
    | ExportFlocker(service: string, target: string)
    | ExportAll(target: string)
    | WriteFile(path: string, content: string)
    | RunCommand(argv: seq<string>, stdout: string)
    | CopyFile(source: string, target: string)
    | MakeArchive(base_name: string, archive_format: string, root_dir: string, base_dir: string)
    | RemoveTree(path: string)

  /** Why `create` raised: a step raised, or a listing line could not be unpacked. */
  datatype CreateError = StepFailed(action: Action) | MalformedServiceLine(line: string)

  /** The steps of the `try` block, and the listing line that stops them if any. */
  datatype Plan = Plan(steps: seq<Action>, malformed: Option<string>)

  /** One log export per Flocker service, in order, into the service's own file. */
  function Exports(a: Archive, ss: seq<Service>): (r: seq<Action>)
    ensures |r| == |ss|
    ensures forall i :: 0 <= i < |ss| ==> r[i] == ExportFlocker(ss[i].name, a.LogfilePath(ss[i].name))
    ensures forall i, j :: 0 <= i < |ss| && 0 <= j < |ss| && ss[i].name != ss[j].name ==> r[i].target != r[j].target
  {
    LogfilePathsDistinct(a);
    seq(|ss|, i requires 0 <= i < |ss| => ExportFlocker(ss[i].name, a.LogfilePath(ss[i].name)))
  }

  /** Every name has a file of its own. */
  lemma LogfilePathsDistinct(a: Archive)
    ensures forall n1, n2 :: n1 != n2 ==> a.LogfilePath(n1) != a.LogfilePath(n2)
  {
    forall n1, n2 | a.LogfilePath(n1) == a.LogfilePath(n2)
      ensures n1 == n2
    {
      LogfilePathInjective(a, n1, n2);
    }
  }

  /** The exports of a concatenation are the exports of its parts, in order. */
  lemma ExportsAppend(a: Archive, s: seq<Service>, t: seq<Service>)
    ensures Exports(a, s + t) == Exports(a, s) + Exports(a, t)
  {
    var l, r := Exports(a, s + t), Exports(a, s) + Exports(a, t);
    assert |l| == |r|;
    forall i | 0 <= i < |l| ensures l[i] == r[i] {
      if i < |s| {
        assert (s + t)[i] == s[i];
      } else {
        assert (s + t)[i] == t[i - |s|];
      }
    }
  }

  /** `' '.join(os.uname())`. */
  function JoinSpace(parts: seq<string>): string {
    if parts == [] then ""
    else if |parts| == 1 then parts[0]
    else parts[0] + " " + JoinSpace(parts[1..])
  }

  /**
   * The steps after the service-status file, in order: `docker version`,
   * `docker info`, the kernel version, the distribution version, the tar.
   */
  function Tail(a: Archive, uname: seq<string>): seq<Action> {
    [ RunCommand(["docker", "version"], a.LogfilePath("docker_version")),
      RunCommand(["docker", "info"], a.LogfilePath("docker_info")),
      WriteFile(a.LogfilePath("uname"), JoinSpace(uname)),
      CopyFile("/etc/os-release", a.LogfilePath("os-release")),
      MakeArchive(a.ArchiveName(), "tar", a.cwd, a.ArchiveName()) ]
  }

  /**
   * The `try` block of `create` as a plan: the exports of the Flocker
   * services, stopping at a malformed line of that listing; then syslog and
   * the service-status file, which holds the entries read before a
   * malformed line of the full listing, where the block stops; then the
   * Docker information, the kernel and distribution versions and the tar.
   */
  function CreatePlan(a: Archive, flocker: Listing, all: Listing, uname: seq<string>): Plan {
    var exports := Exports(a, flocker.services);
    if flocker.malformed.Some? then Plan(exports, flocker.malformed)
    else
      var status := [ExportAll(a.LogfilePath("syslog")), WriteFile(a.LogfilePath("service-status"), StatusText(all.services))];
      if all.malformed.Some? then Plan(exports + status, all.malformed)
      else Plan(exports + status + Tail(a, uname), None)
  }

  /** What running some steps did: the steps run, and the one that raised if any. */
  datatype Run = Run(done: seq<Action>, failed: Option<Action>)

  /** Running steps in order until one raises. */
  function Execute(steps: seq<Action>, fails: Action -> bool): (r: Run)
    ensures r.done <= steps
    ensures r.failed.None? <==> forall i :: 0 <= i < |steps| ==> !fails(steps[i])
    ensures r.failed.None? ==> r.done == steps
    ensures r.failed.Some? ==> r.done != [] && r.failed.value == r.done[|r.done| - 1] && fails(r.failed.value)
    ensures forall i :: 0 <= i < |r.done| - 1 ==> !fails(r.done[i])
  {
    if steps == [] then Run([], None)
    else if fails(steps[0]) then Run([steps[0]], Some(steps[0]))
    else
      var rest := Execute(steps[1..], fails);
      Run([steps[0]] + rest.done, rest.failed)
  }

  /** Steps that run through without raising, then one that raises. */
  lemma {:induction false} ExecuteStopsAt(steps: seq<Action>, n: nat, fails: Action -> bool)
    requires n < |steps| && fails(steps[n])
    requires forall i :: 0 <= i < n ==> !fails(steps[i])
    ensures Execute(steps, fails) == Run(steps[..n + 1], Some(steps[n]))
  {
    if n > 0 {
      ExecuteStopsAt(steps[1..], n - 1, fails);
      assert [steps[0]] + steps[1..][..n] == steps[..n + 1];
    }
  }

  /** The outcome of the `try` block of a plan: its steps run, and why it raised. */
  function BodyOutcome(plan: Plan, fails: Action -> bool): (seq<Action>, Option<CreateError>) {
    var run := Execute(plan.steps, fails);
    ( run.done,
      if run.failed.Some? then Some(StepFailed(run.failed.value))
      else if plan.malformed.Some? then Some(MalformedServiceLine(plan.malformed.value))
      else None )
  }

  /** The outcome of `create` for the listings, kernel name and failing steps given. */
  function CreatePlanFor(a: Archive, flockerLines: seq<string>, allLines: seq<string>, uname: seq<string>): Plan {
    CreatePlan(a, FlockerServices(AllServices(flockerLines)), AllServices(allLines), uname)
  }

  /**
   * Running one step of a plan after the steps before it ran through:
   * when it raises, the plan stops there.
   */
  method Perform(ghost steps: seq<Action>, done: seq<Action>, step: Action, fails: Action -> bool)
    returns (done': seq<Action>, failed: bool)
    requires done + [step] <= steps
    requires forall k :: 0 <= k < |done| ==> !fails(done[k])
    ensures done' == done + [step] && failed == fails(step)
    ensures forall k :: 0 <= k < |done'| ==> failed || !fails(done'[k])
    ensures failed ==> Execute(steps, fails) == Run(done', Some(step))
  {
    done' := done + [step];
    failed := fails(step);
    if failed {
      assert steps[..|done|] == done;
      ExecuteStopsAt(steps, |done|, fails);
    }
  }

  /** The loop of `create` that exports the log of each Flocker service in turn. */
  method RunExports(ghost steps: seq<Action>, a: Archive, services: seq<Service>, fails: Action -> bool)
    returns (done: seq<Action>, failed: bool)
    requires Exports(a, services) <= steps
    ensures failed ==> done != [] && Execute(steps, fails) == Run(done, Some(done[|done| - 1]))
    ensures !failed ==> done == Exports(a, services) && forall k :: 0 <= k < |done| ==> !fails(done[k])
  {
    ghost var exports := Exports(a, services);
    done := [];
    failed := false;
    var i := 0;
    while i < |services|
      invariant 0 <= i <= |services|
      invariant done == exports[..i]
      invariant forall k :: 0 <= k < |done| ==> !fails(done[k])
    {
      var s := services[i];
      var step := ExportFlocker(s.name, a.LogfilePath(s.name));
      assert exports[..i + 1] == done + [step];
      done, failed := Perform(steps, done, step, fails);
      if failed {
        return;
      }
      i := i + 1;
    }
    assert done == exports;
  }

  /** The Docker, kernel and distribution steps of `create`, then the tar. */
  method RunTail(ghost steps: seq<Action>, a: Archive, uname: seq<string>, done: seq<Action>, fails: Action -> bool)
    returns (done': seq<Action>, failed: bool)
    requires steps == done + Tail(a, uname)
    requires forall k :: 0 <= k < |done| ==> !fails(done[k])
    ensures failed ==> done' != [] && Execute(steps, fails) == Run(done', Some(done'[|done'| - 1]))
    ensures !failed ==> done' == steps && forall k :: 0 <= k < |done'| ==> !fails(done'[k])
  {
    var dockerVersion := RunCommand(["docker", "version"], a.LogfilePath("docker_version"));
    done', failed := Perform(steps, done, dockerVersion, fails);
    if failed {
      return;
    }
    var dockerInfo := RunCommand(["docker", "info"], a.LogfilePath("docker_info"));
    done', failed := Perform(steps, done', dockerInfo, fails);
    if failed {
      return;
    }
    var kernel := WriteFile(a.LogfilePath("uname"), JoinSpace(uname));
    done', failed := Perform(steps, done', kernel, fails);
    if failed {
      return;
    }
    var osRelease := CopyFile("/etc/os-release", a.LogfilePath("os-release"));
    done', failed := Perform(steps, done', osRelease, fails);
    if failed {
      return;
    }
    var tar := MakeArchive(a.ArchiveName(), "tar", a.cwd, a.ArchiveName());
    assert done' + [tar] == steps;
    done', failed := Perform(steps, done', tar, fails);
  }

  /**
   * The steps of `create` after the exports: syslog, the service-status
   * file with the entries of the full listing, and, when that listing is
   * well formed, the rest.
   */
  method RunAfterExports(ghost plan: Plan, a: Archive, all: Listing, uname: seq<string>, done: seq<Action>, fails: Action -> bool)
    returns (done': seq<Action>, err: Option<CreateError>)
    requires plan.malformed == all.malformed
    requires plan.steps == done + [ExportAll(a.LogfilePath("syslog")), WriteFile(a.LogfilePath("service-status"), StatusText(all.services))]
      + (if all.malformed.Some? then [] else Tail(a, uname))
    requires forall k :: 0 <= k < |done| ==> !fails(done[k])
    ensures (done', err) == BodyOutcome(plan, fails)
  {
    var failed: bool;
    var syslog := ExportAll(a.LogfilePath("syslog"));
    done', failed := Perform(plan.steps, done, syslog, fails);
    if failed {
      return done', Some(StepFailed(syslog));
    }
    var content := ServiceStatusContent(all.services);
    var status := WriteFile(a.LogfilePath("service-status"), content);
    done', failed := Perform(plan.steps, done', status, fails);
    if failed {
      return done', Some(StepFailed(status));
    }
    if all.malformed.Some? {
      assert plan.steps == done';
      return done', Some(MalformedServiceLine(all.malformed.value));
    }
    done', failed := RunTail(plan.steps, a, uname, done', fails);
    if failed {
      return done', Some(StepFailed(done'[|done'| - 1]));
    }
    err := None;
  }

  /**
   * The `try` block of `create`, step by step: each step is run and, when
   * it raises, the block stops there.
   */
  method RunBody(a: Archive, flockerLines: seq<string>, allLines: seq<string>, uname: seq<string>, fails: Action -> bool)
    returns (done: seq<Action>, err: Option<CreateError>)
    ensures (done, err) == BodyOutcome(CreatePlanFor(a, flockerLines, allLines, uname), fails)
  {
    ghost var plan := CreatePlanFor(a, flockerLines, allLines, uname);
    var flocker := FlockerServices(AllServices(flockerLines));
    var all := AllServices(allLines);
    var failed: bool;
    done, failed := RunExports(plan.steps, a, flocker.services, fails);
    if failed {
      return done, Some(StepFailed(done[|done| - 1]));
    }
    if flocker.malformed.Some? {
      return done, Some(MalformedServiceLine(flocker.malformed.value));
    }
    done, err := RunAfterExports(plan, a, all, uname, done, fails);
  }

  /**
   * `create`: make the archive directory, run the `try` block, then remove
   * the directory whether or not the block raised.  An exception of the
   * removal replaces any exception of the block; otherwise the block's
   * exception is raised, or the path of the tar file is returned.  When
   * making the directory raises, nothing else runs.
   */
  method Create(a: Archive, flockerLines: seq<string>, allLines: seq<string>, uname: seq<string>, fails: Action -> bool)
    returns (trace: seq<Action>, result: Result<string, CreateError>)
    ensures trace != [] && trace[0] == MakeDirs(a.ArchivePath())
    ensures fails(MakeDirs(a.ArchivePath())) ==>
      trace == [MakeDirs(a.ArchivePath())] && result == Failure(StepFailed(MakeDirs(a.ArchivePath())))
    ensures !fails(MakeDirs(a.ArchivePath())) ==>
      var body := BodyOutcome(CreatePlanFor(a, flockerLines, allLines, uname), fails);
      && trace == [MakeDirs(a.ArchivePath())] + body.0 + [RemoveTree(a.ArchivePath())]
      && result == (if fails(RemoveTree(a.ArchivePath())) then Failure(StepFailed(RemoveTree(a.ArchivePath())))
                    else if body.1.Some? then Failure(body.1.value)
                    else Success(a.ArchivePath() + ".tar"))
  {
    var mk := MakeDirs(a.ArchivePath());
    trace := [mk];
    if fails(mk) {
      return trace, Failure(StepFailed(mk));
    }
    var done, err := RunBody(a, flockerLines, allLines, uname, fails);
    var rm := RemoveTree(a.ArchivePath());
    trace := trace + done + [rm];
    if fails(rm) {
      result := Failure(StepFailed(rm));
    } else if err.Some? {
      result := Failure(err.value);
    } else {
      result := Success(a.ArchivePath() + ".tar");
    }
  }

  /** Steps none of which raises all run. */
  lemma ExecuteAll(steps: seq<Action>, fails: Action -> bool)
    requires forall x :: !fails(x)
    ensures BodyOutcome(Plan(steps, None), fails) == (steps, None)
  {
    assert Execute(steps, fails).failed.None?;
  }

  /**
   * When both listings are well formed and no step raises, the steps run in
   * the documented order (the Flocker exports, syslog, the service-status
   * file, then the steps of `Tail`) and the block raises nothing.
   */
  lemma CreateInOrder(a: Archive, flockerLines: seq<string>, allLines: seq<string>, uname: seq<string>, fails: Action -> bool)
    requires AllServices(flockerLines).malformed.None? && AllServices(allLines).malformed.None?
    requires forall x :: !fails(x)
    ensures BodyOutcome(CreatePlanFor(a, flockerLines, allLines, uname), fails) == (
      Exports(a, FilterFlocker(AllServices(flockerLines).services))
        + [ExportAll(a.LogfilePath("syslog")), WriteFile(a.LogfilePath("service-status"), StatusText(AllServices(allLines).services))]
        + Tail(a, uname),
      None)
  {
    var plan := CreatePlanFor(a, flockerLines, allLines, uname);
    assert plan.malformed.None?;
    ExecuteAll(plan.steps, fails);
  }

  /** The steps that run are always the plan's first steps, in the plan's order. */
  lemma BodyFollowsPlan(plan: Plan, fails: Action -> bool)
    ensures BodyOutcome(plan, fails).0 <= plan.steps
    ensures BodyOutcome(plan, fails).1.None? <==>
      plan.malformed.None? && forall i :: 0 <= i < |plan.steps| ==> !fails(plan.steps[i])
  {
  }

  /** The candidate files of `UpstartLogExporter.export_flocker` and their names in the tar. */
  function UpstartCandidates(service: string): seq<(string, string)> {
    [ ("/var/log/upstart/" + service + ".log", service + "-upstart.log"),
      ("/var/log/flocker/" + service + ".log", service + "-eliot.log") ]
  }

  /** The candidates that exist, in order. */
  function Existing(files: seq<(string, string)>, isFile: string -> bool): (r: seq<(string, string)>)
    ensures |r| <= |files|
    ensures forall f :: f in r <==> f in files && isFile(f.0)
    ensures IsSubsequence(r, files)
  {
    if files == [] then []
    else
      var rest := Existing(files[1..], isFile);
      if isFile(files[0].0) then
        assert ([files[0]] + rest)[1..] == rest;
        [files[0]] + rest
      else
        assert rest != [] ==> rest[0] != files[0];
        rest
  }

  /**
   * `UpstartLogExporter.export_flocker`: the gzip-compressed tar written
   * next to `target`, and the files added to it with their names in the tar.
   */
  method UpstartExportFlocker(service: string, target: string, isFile: string -> bool)
    returns (tarPath: string, members: seq<(string, string)>)
    ensures tarPath == target + ".tar.gz"
    ensures members == Existing(UpstartCandidates(service), isFile)
  {
    tarPath := target + ".tar.gz";
    var files := UpstartCandidates(service);
    members := [];
    var i := 0;
    while i < |files|
      invariant 0 <= i <= |files|
      invariant members + Existing(files[i..], isFile) == Existing(files, isFile)
    {
      assert files[i..][1..] == files[i + 1..];
      if isFile(files[i].0) {
        members := members + [files[i]];
      }
      i := i + 1;
    }
  }

  /**
   * The upstart log comes first and the eliot log second, each present
   * exactly when its file exists, under `<service>-upstart.log` and
   * `<service>-eliot.log`.
   */
  lemma UpstartMembers(service: string, isFile: string -> bool)
    ensures var up, eliot := "/var/log/upstart/" + service + ".log", "/var/log/flocker/" + service + ".log";
      Existing(UpstartCandidates(service), isFile) ==
        (if isFile(up) then [(up, service + "-upstart.log")] else [])
        + (if isFile(eliot) then [(eliot, service + "-eliot.log")] else [])
  {
    var files := UpstartCandidates(service);
    assert files[1..][1..] == [];
  }
}
