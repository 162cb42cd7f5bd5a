/** The init run: renders every bundled common file into the project's
    ViperCommon directory, registers each under the ViperCommon group, and
    saves the manifest. */
module Init {
  import opened Wrappers
  import opened Settings
  import opened Plan
  import opened Files
  import opened Effects

  /** Manifest group of the common files, also their directory name. */
  const CommonGroup: string := "ViperCommon"

  /** The inputs of an init run besides the settings document. `toolDir` is
      the directory the tool is installed in; `commonFiles` are the file
      names the walk of its Common directory yields, at any depth, in walk
      order; an empty `cliTargets` means no --targets option. */
  datatype InitRequest = InitRequest(
    projectRoot: string,
    toolDir: string,
    cliTargets: seq<string>,
    commonFiles: seq<string>)

  /** Where the bundled common templates are looked up: by bare name, at the
      top level of this directory. */
  function CommonTemplatesDir(toolDir: string): string {
    toolDir + "/Common"
  }

  function CommonDir(projectRoot: string, projectDir: string): string {
    ProjectFullDir(projectRoot, projectDir) + "/" + CommonGroup
  }

  function CommonWrite(dir: string, file: string, base: string): Effect {
    Write(dir + "/" + file, file, CommonContext(base))
  }

  function CommonRegister(dir: string, file: string, targets: seq<string>): Effect {
    Register(dir + "/" + file, CommonGroup, Selection(targets))
  }

  /** The common-file loop: look the name up among the templates, render and
      write the file, then register it. A name with no template at the top
      of `source` (a file the walk found in a sub-directory) stops the loop
      before anything is written for it; with no target list bound, the
      first registration fails, right after the first file has been
      written. */
  function RunCommon(files: seq<string>, dir: string, targets: Option<seq<string>>, base: string,
                     fs: FileSystem, source: string): (o: Outcome)
    ensures o.Done? <==>
              && (forall i :: 0 <= i < |files| ==> HasTemplate(fs, source, files[i]))
              && (targets.Some? || |files| == 0)
    ensures targets.None? && |files| > 0 ==>
              o == if HasTemplate(fs, source, files[0])
                   then Aborted([CommonWrite(dir, files[0], base)], TargetsUnbound)
                   else Aborted([], TemplateNotFound(files[0]))
    ensures o.Aborted? ==>
              || o.failure == TargetsUnbound
              || (o.failure.TemplateNotFound? && !HasTemplate(fs, source, o.failure.template))
    ensures NoSave(o.trace)
    ensures RegistersFollowWrites(o.trace)
    ensures targets.Some? ==> RegistersWith(o.trace, Selection(targets.value))
    ensures RegistersIn(o.trace, {CommonGroup})
    decreases |files|
  {
    if files == [] then Done([])
    else if !HasTemplate(fs, source, files[0]) then Aborted([], TemplateNotFound(files[0]))
    else
      var write := CommonWrite(dir, files[0], base);
      match targets
      case None => Aborted([write], TargetsUnbound)
      case Some(ts) =>
        assert forall i :: 1 <= i < |files| ==> files[1..][i - 1] == files[i];
        var rest := RunCommon(files[1..], dir, targets, base, fs, source);
        var effects := [write, CommonRegister(dir, files[0], ts)];
        ConcatTraces(effects, rest.trace, Selection(ts), {CommonGroup});
        Prepend(effects, rest)
  }

  /** A common name with no template stops the loop with exactly the effects
      of the names before it, as if the walk had ended there. */
  lemma {:induction false} RunCommonTemplateMissing(files: seq<string>, dir: string, targets: seq<string>,
                                                    base: string, fs: FileSystem, source: string, k: nat)
    requires k < |files|
    requires forall i :: 0 <= i < k ==> HasTemplate(fs, source, files[i])
    requires !HasTemplate(fs, source, files[k])
    ensures RunCommon(files[..k], dir, Some(targets), base, fs, source).Done?
    ensures RunCommon(files, dir, Some(targets), base, fs, source)
            == Aborted(RunCommon(files[..k], dir, Some(targets), base, fs, source).trace,
                       TemplateNotFound(files[k]))
    decreases k
  {
    var prefix := files[..k];
    assert forall i :: 0 <= i < k ==> prefix[i] == files[i];
    if k > 0 {
      var rest := files[1..];
      assert rest[k - 1] == files[k];
      assert forall i :: 0 <= i < k - 1 ==> rest[i] == files[i + 1];
      RunCommonTemplateMissing(rest, dir, targets, base, fs, source, k - 1);
      assert prefix[1..] == rest[..k - 1];
      assert prefix[0] == files[0];
    }
  }

  /** With a target list bound, the loop writes and registers every common
      file in walk order. */
  lemma {:induction false} RunCommonShape(files: seq<string>, dir: string, targets: seq<string>, base: string,
                                          fs: FileSystem, source: string)
    requires forall i :: 0 <= i < |files| ==> HasTemplate(fs, source, files[i])
    ensures RunCommon(files, dir, Some(targets), base, fs, source).Done?
    ensures |RunCommon(files, dir, Some(targets), base, fs, source).trace| == 2 * |files|
    ensures forall i :: 0 <= i < |files| ==>
              && RunCommon(files, dir, Some(targets), base, fs, source).trace[2 * i] == CommonWrite(dir, files[i], base)
              && RunCommon(files, dir, Some(targets), base, fs, source).trace[2 * i + 1] == CommonRegister(dir, files[i], targets)
    decreases |files|
  {
    if files != [] {
      var rest := files[1..];
      assert forall i :: 0 <= i < |rest| ==> rest[i] == files[i + 1];
      RunCommonShape(rest, dir, targets, base, fs, source);
      var t := RunCommon(files, dir, Some(targets), base, fs, source).trace;
      var r := RunCommon(rest, dir, Some(targets), base, fs, source).trace;
      assert t == [CommonWrite(dir, files[0], base), CommonRegister(dir, files[0], targets)] + r;
      forall i | 1 <= i < |files|
        ensures t[2 * i] == CommonWrite(dir, files[i], base)
        ensures t[2 * i + 1] == CommonRegister(dir, files[i], targets)
      {
        assert files[i] == rest[i - 1];
        assert t[2 * i] == r[2 * (i - 1)];
        assert t[2 * i + 1] == r[2 * (i - 1) + 1];
      }
    }
  }

  /** The init run: project_dir is read first, then the targets and base
      class are resolved, the common files processed, and the manifest
      saved. */
  function InitRun(cfg: Config, req: InitRequest, fs: FileSystem): (o: Outcome)
    ensures o.Done? ==> SavedOnceAtEnd(o.trace)
    ensures o.Aborted? ==> NoSave(o.trace)
    ensures RegistersFollowWrites(o.trace)
    ensures RegistersWith(o.trace, Selection(AddTargets(cfg, req.cliTargets)))
    ensures RegistersIn(o.trace, {CommonGroup})
  {
    match cfg.projectDir
    case None => Aborted([], MissingKey("project_dir"))
    case Some(projectDir) =>
      var dir := CommonDir(req.projectRoot, projectDir);
      var targets := InitTargets(cfg, req.cliTargets);
      var base := BaseViewController(cfg);
      match RunCommon(req.commonFiles, dir, targets, base, fs, CommonTemplatesDir(req.toolDir))
      case Done(t) =>
        AppendSave(t, Selection(AddTargets(cfg, req.cliTargets)), {CommonGroup});
        Done(t + [Save])
      case Aborted(t, f) => Aborted(t, f)
  }

  /** An init run fails exactly when project_dir is missing, when a common
      name has no template at the top of the Common directory, or when
      there is at least one common file and neither the document nor the
      command line gives a target list. */
  lemma InitRunFailsIff(cfg: Config, req: InitRequest, fs: FileSystem)
    ensures InitRun(cfg, req, fs).Aborted? <==>
              || cfg.projectDir.None?
              || (exists i :: 0 <= i < |req.commonFiles|
                              && !HasTemplate(fs, CommonTemplatesDir(req.toolDir), req.commonFiles[i]))
              || (|req.cliTargets| == 0 && cfg.targets.None? && |req.commonFiles| > 0)
  {
  }

  /** With no target list bound, the first common file is looked up and
      written, then the run stops before registering it and before saving;
      if its template is missing, the run stops before writing anything. */
  lemma InitRunUnboundTargets(cfg: Config, req: InitRequest, fs: FileSystem)
    requires cfg.projectDir.Some?
    requires |req.cliTargets| == 0 && cfg.targets.None?
    requires |req.commonFiles| > 0
    ensures HasTemplate(fs, CommonTemplatesDir(req.toolDir), req.commonFiles[0]) ==>
              InitRun(cfg, req, fs)
              == Aborted([CommonWrite(CommonDir(req.projectRoot, cfg.projectDir.value),
                                      req.commonFiles[0], BaseViewController(cfg))],
                         TargetsUnbound)
    ensures !HasTemplate(fs, CommonTemplatesDir(req.toolDir), req.commonFiles[0]) ==>
              InitRun(cfg, req, fs) == Aborted([], TemplateNotFound(req.commonFiles[0]))
  {
  }

  /** A successful init run writes and registers every common file in walk
      order under ViperCommon, with the same target list an add run would
      use, and saves once, last. */
  lemma InitRunSuccessTrace(cfg: Config, req: InitRequest, fs: FileSystem)
    requires InitRun(cfg, req, fs).Done?
    ensures cfg.projectDir.Some?
    ensures |InitRun(cfg, req, fs).trace| == 2 * |req.commonFiles| + 1
    ensures forall i :: 0 <= i < |req.commonFiles| ==>
              && InitRun(cfg, req, fs).trace[2 * i]
                 == CommonWrite(CommonDir(req.projectRoot, cfg.projectDir.value),
                                req.commonFiles[i], BaseViewController(cfg))
              && InitRun(cfg, req, fs).trace[2 * i + 1]
                 == CommonRegister(CommonDir(req.projectRoot, cfg.projectDir.value),
                                   req.commonFiles[i], AddTargets(cfg, req.cliTargets))
  {
    var dir := CommonDir(req.projectRoot, cfg.projectDir.value);
    var targets := InitTargets(cfg, req.cliTargets);
    var source := CommonTemplatesDir(req.toolDir);
    var t := RunCommon(req.commonFiles, dir, targets, BaseViewController(cfg), fs, source).trace;
    assert InitRun(cfg, req, fs).trace == t + [Save];
    if targets.None? {
      assert req.commonFiles == [];
    } else {
      InitAgreesWithAdd(cfg, req.cliTargets);
      RunCommonShape(req.commonFiles, dir, targets.value, BaseViewController(cfg), fs, source);
    }
  }

  /** With a target list bound, a common name with no template stops the run
      after the files before it were written and registered, in walk order,
      with nothing done for that name and no save. */
  lemma InitRunTemplateMissing(cfg: Config, req: InitRequest, fs: FileSystem, k: nat)
    requires cfg.projectDir.Some?
    requires |req.cliTargets| > 0 || cfg.targets.Some?
    requires k < |req.commonFiles|
    requires forall i :: 0 <= i < k ==> HasTemplate(fs, CommonTemplatesDir(req.toolDir), req.commonFiles[i])
    requires !HasTemplate(fs, CommonTemplatesDir(req.toolDir), req.commonFiles[k])
    ensures InitRun(cfg, req, fs).Aborted?
    ensures InitRun(cfg, req, fs).failure == TemplateNotFound(req.commonFiles[k])
    ensures |InitRun(cfg, req, fs).trace| == 2 * k
    ensures forall i :: 0 <= i < k ==>
              && InitRun(cfg, req, fs).trace[2 * i]
                 == CommonWrite(CommonDir(req.projectRoot, cfg.projectDir.value),
                                req.commonFiles[i], BaseViewController(cfg))
              && InitRun(cfg, req, fs).trace[2 * i + 1]
                 == CommonRegister(CommonDir(req.projectRoot, cfg.projectDir.value),
                                   req.commonFiles[i], AddTargets(cfg, req.cliTargets))
  {
    var dir := CommonDir(req.projectRoot, cfg.projectDir.value);
    var targets := AddTargets(cfg, req.cliTargets);
    var base := BaseViewController(cfg);
    var source := CommonTemplatesDir(req.toolDir);
    var prefix := req.commonFiles[..k];
    InitAgreesWithAdd(cfg, req.cliTargets);
    RunCommonTemplateMissing(req.commonFiles, dir, targets, base, fs, source, k);
    assert forall i :: 0 <= i < k ==> prefix[i] == req.commonFiles[i];
    RunCommonShape(prefix, dir, targets, base, fs, source);
  }

  /** A freshly generated settings document lets init run to the end when
      every common name has its template, and registers every common file
      with the project's own target. */
  lemma DefaultConfigInit(projectName: string, req: InitRequest, fs: FileSystem)
    requires |req.cliTargets| == 0
    requires forall i :: 0 <= i < |req.commonFiles| ==>
               HasTemplate(fs, CommonTemplatesDir(req.toolDir), req.commonFiles[i])
    ensures InitRun(DefaultConfig(projectName), req, fs).Done?
    ensures RegistersWith(InitRun(DefaultConfig(projectName), req, fs).trace, Only([projectName]))
  {
    DefaultConfigResolution(projectName, "");
  }
}
