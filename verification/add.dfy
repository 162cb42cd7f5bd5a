/** The add run: generates the five part files of one module, registers each
    in the project manifest, and saves the manifest once all five succeed. */
module Add {
  import opened Wrappers
  import opened Settings
  import opened Files
  import opened Plan
  import opened Effects

  /** The inputs of an add run besides the settings document. `projectRoot`
      is the resolved parent directory of the project, `toolDir` the directory
      the tool is installed in, `today` and `year` the formatted date. An
      empty `cliTargets` means no --targets option. */
  datatype AddRequest = AddRequest(
    projectRoot: string,
    toolDir: string,
    moduleName: string,
    cliTargets: seq<string>,
    storyboard: Option<string>,
    today: string,
    year: string)

  /** Values resolved before the first part is generated. */
  datatype Run = Run(
    cfg: Config,
    moduleName: string,
    today: string,
    year: string,
    storyboard: string,
    templatesDir: string,
    fullDir: string,
    targets: seq<string>)

  /** Resolution before the part loop; templates_dir is read before
      project_dir, and either missing stops the run with nothing done. */
  function Prepare(cfg: Config, req: AddRequest): (r: Result<Run, Failure>)
    ensures cfg.templatesDir.None? ==> r == Err(MissingKey("templates_dir"))
    ensures cfg.templatesDir.Some? && cfg.projectDir.None? ==> r == Err(MissingKey("project_dir"))
    ensures r.Ok? <==> cfg.templatesDir.Some? && cfg.projectDir.Some?
    ensures r.Ok? ==> && r.value.cfg == cfg
                      && r.value.moduleName == req.moduleName
                      && r.value.targets == AddTargets(cfg, req.cliTargets)
                      && r.value.storyboard == StoryboardName(req.storyboard)
                      && r.value.templatesDir == ResolveTemplatesDir(cfg.templatesDir.value, req.toolDir)
                      && r.value.fullDir == ProjectFullDir(req.projectRoot, cfg.projectDir.value)
  {
    var targets := AddTargets(cfg, req.cliTargets);
    var storyboard := StoryboardName(req.storyboard);
    if cfg.templatesDir.None? then Err(MissingKey("templates_dir"))
    else
      var templatesDir := ResolveTemplatesDir(cfg.templatesDir.value, req.toolDir);
      if cfg.projectDir.None? then Err(MissingKey("project_dir"))
      else
        var fullDir := ProjectFullDir(req.projectRoot, cfg.projectDir.value);
        Ok(Run(cfg, req.moduleName, req.today, req.year, storyboard, templatesDir, fullDir, targets))
  }

  /** The settings keys a part reads inside the loop are present. */
  predicate KeysPresent(p: Part, run: Run) {
    run.cfg.author.Some? && (p == Controller ==> run.cfg.controllersGroup.Some?)
  }

  function PartPath(p: Part, run: Run): string {
    OutputPath(run.fullDir, run.moduleName, p)
  }

  /** A part goes through: its template exists, the keys it reads are
      present, and its destination directory exists. */
  predicate Ready(p: Part, run: Run, fs: FileSystem) {
    && HasTemplate(fs, run.templatesDir, TemplateName(p))
    && KeysPresent(p, run)
    && CanCreate(fs, PartPath(p, run))
  }

  function PartWrite(p: Part, run: Run): Effect
    requires run.cfg.author.Some?
  {
    Write(PartPath(p, run), TemplateName(p),
          PartContext(run.moduleName, Name(p), run.today, run.year, run.storyboard, run.cfg.author.value))
  }

  function PartRegister(p: Part, run: Run): Effect
    requires KeysPresent(p, run)
  {
    Register(PartPath(p, run), GroupName(p, run.cfg.controllersGroup).value, Selection(run.targets))
  }

  /** The effects of a part that goes through. */
  function PartEffects(p: Part, run: Run): seq<Effect>
    requires KeysPresent(p, run)
  {
    [PartWrite(p, run), PartRegister(p, run)]
  }

  predicate AllKeysPresent(ps: seq<Part>, run: Run) {
    forall i :: 0 <= i < |ps| ==> KeysPresent(ps[i], run)
  }

  /** The writes of a sequence of parts that all go through, in order. */
  function PlanWrites(ps: seq<Part>, run: Run): (ws: seq<Effect>)
    requires AllKeysPresent(ps, run)
  {
    seq(|ps|, i requires 0 <= i < |ps| && KeysPresent(ps[i], run) => PartWrite(ps[i], run))
  }

  /** The registrations of a sequence of parts that all go through, in order. */
  function PlanRegisters(ps: seq<Part>, run: Run): (rs: seq<Effect>)
    requires AllKeysPresent(ps, run)
  {
    seq(|ps|, i requires 0 <= i < |ps| && KeysPresent(ps[i], run) => PartRegister(ps[i], run))
  }

  /** The effects of a sequence of parts that all go through: each part's
      write, then its registration. */
  function PlanEffects(ps: seq<Part>, run: Run): seq<Effect>
    requires AllKeysPresent(ps, run)
  {
    Pairs(PlanWrites(ps, run), PlanRegisters(ps, run))
  }

  /** The groups an add run may register under. */
  function ModuleGroups(cfg: Config): set<string> {
    {"Views", "Interactors", "Presenters", "Routers"}
    + (if cfg.controllersGroup.Some? then {cfg.controllersGroup.value} else {})
  }

  datatype Step = Proceed(effects: seq<Effect>) | Stop(effects: seq<Effect>, failure: Failure)

  /** One iteration of the part loop: look up the template, read the author,
      write the file, pick the group, register the file. */
  function PartStep(p: Part, run: Run, fs: FileSystem): (s: Step)
    ensures s.Proceed? <==> Ready(p, run, fs)
    ensures s.Proceed? ==> s.effects == PartEffects(p, run)
    ensures !HasTemplate(fs, run.templatesDir, TemplateName(p)) ==>
              s == Stop([], TemplateNotFound(TemplateName(p)))
    ensures HasTemplate(fs, run.templatesDir, TemplateName(p)) && run.cfg.author.None? ==>
              s == Stop([], MissingKey("author"))
    ensures HasTemplate(fs, run.templatesDir, TemplateName(p)) && run.cfg.author.Some?
              && !CanCreate(fs, PartPath(p, run)) ==>
              s == Stop([], DestinationMissing(PartPath(p, run)))
    ensures s.Stop? && s.effects != [] ==>
              && p == Controller && run.cfg.controllersGroup.None? && run.cfg.author.Some?
              && s == Stop([PartWrite(p, run)], MissingKey("uikit_controllers_group"))
    ensures s.Stop? && s.failure.MissingKey? ==>
              run.cfg.author.None? || run.cfg.controllersGroup.None?
  {
    var template := TemplateName(p);
    if !HasTemplate(fs, run.templatesDir, template) then Stop([], TemplateNotFound(template))
    else if run.cfg.author.None? then Stop([], MissingKey("author"))
    else
      var path := PartPath(p, run);
      if !CanCreate(fs, path) then Stop([], DestinationMissing(path))
      else
        var write := Write(path, template,
          PartContext(run.moduleName, Name(p), run.today, run.year, run.storyboard, run.cfg.author.value));
        match GroupName(p, run.cfg.controllersGroup)
        case None => Stop([write], MissingKey("uikit_controllers_group"))
        case Some(group) => Proceed([write, Register(path, group, Selection(run.targets))])
  }

  /** The part loop over `ps`, stopping at the first part that does not go
      through; the effects of the parts before it remain. */
  function RunParts(ps: seq<Part>, run: Run, fs: FileSystem): (o: Outcome)
    ensures o.Done? <==> forall i :: 0 <= i < |ps| ==> Ready(ps[i], run, fs)
    ensures o.Aborted? && o.failure.MissingKey? ==>
              run.cfg.author.None? || run.cfg.controllersGroup.None?
    decreases |ps|
  {
    if ps == [] then Done([])
    else
      match PartStep(ps[0], run, fs)
      case Stop(effects, failure) => Aborted(effects, failure)
      case Proceed(effects) =>
        TailIndex(ps);
        Prepend(effects, RunParts(ps[1..], run, fs))
  }

  /** A part's two effects: no save, the registration right after the
      write of the same file, with the resolved targets, in a module group. */
  lemma PartEffectsTrace(p: Part, run: Run)
    requires KeysPresent(p, run)
    ensures NoSave(PartEffects(p, run))
    ensures RegistersFollowWrites(PartEffects(p, run))
    ensures RegistersWith(PartEffects(p, run), Selection(run.targets))
    ensures RegistersIn(PartEffects(p, run), ModuleGroups(run.cfg))
  {
    assert p != Controller ==> GroupName(p, run.cfg.controllersGroup).value == Dir(p);
  }

  /** The loop never saves, registers each file right after writing it,
      always with the resolved targets, and only in the module groups. */
  lemma {:induction false} RunPartsTrace(ps: seq<Part>, run: Run, fs: FileSystem)
    ensures NoSave(RunParts(ps, run, fs).trace)
    ensures RegistersFollowWrites(RunParts(ps, run, fs).trace)
    ensures RegistersWith(RunParts(ps, run, fs).trace, Selection(run.targets))
    ensures RegistersIn(RunParts(ps, run, fs).trace, ModuleGroups(run.cfg))
    decreases |ps|
  {
    if ps != [] {
      RunPartsUnfold(ps, run, fs);
      var step := PartStep(ps[0], run, fs);
      if step.Proceed? {
        RunPartsTrace(ps[1..], run, fs);
        PartEffectsTrace(ps[0], run);
        ConcatTraces(step.effects, RunParts(ps[1..], run, fs).trace, Selection(run.targets), ModuleGroups(run.cfg));
      }
    }
  }

  /** The add run: resolution, the part loop, and the save once every part
      has gone through. */
  function AddRun(cfg: Config, req: AddRequest, fs: FileSystem): (o: Outcome)
    ensures o.Done? ==> SavedOnceAtEnd(o.trace)
    ensures o.Aborted? ==> NoSave(o.trace)
    ensures RegistersFollowWrites(o.trace)
    ensures RegistersWith(o.trace, Selection(AddTargets(cfg, req.cliTargets)))
    ensures RegistersIn(o.trace, ModuleGroups(cfg))
  {
    match Prepare(cfg, req)
    case Err(f) => Aborted([], f)
    case Ok(run) =>
      RunPartsTrace(Parts, run, fs);
      match RunParts(Parts, run, fs)
      case Done(t) =>
        AppendSave(t, Selection(run.targets), ModuleGroups(cfg));
        Done(t + [Save])
      case Aborted(t, f) => Aborted(t, f)
  }

  /** The planned effects of a non-empty sequence of parts: the first
      part's write and registration, then those of the rest. */
  lemma PlanEffectsCons(ps: seq<Part>, run: Run)
    requires ps != [] && AllKeysPresent(ps, run)
    ensures AllKeysPresent(ps[1..], run)
    ensures PlanEffects(ps, run) == PartEffects(ps[0], run) + PlanEffects(ps[1..], run)
  {
    var rest := ps[1..];
    assert forall j :: 0 <= j < |rest| ==> rest[j] == ps[j + 1];
    var ws := PlanWrites(ps, run);
    var rs := PlanRegisters(ps, run);
    assert ws[1..] == PlanWrites(rest, run);
    assert rs[1..] == PlanRegisters(rest, run);
  }

  /** When every part goes through, the loop performs exactly the planned
      effects. */
  lemma {:induction false} RunPartsAllReady(ps: seq<Part>, run: Run, fs: FileSystem)
    requires forall i :: 0 <= i < |ps| ==> Ready(ps[i], run, fs)
    ensures AllKeysPresent(ps, run) && RunParts(ps, run, fs) == Done(PlanEffects(ps, run))
    decreases |ps|
  {
    if ps != [] {
      TailIndex(ps);
      RunPartsAllReady(ps[1..], run, fs);
      PlanEffectsCons(ps, run);
    }
  }

  /** The planned effects of the first k parts: the first part's, then the
      next k - 1 parts'. */
  lemma PlanEffectsPrefix(ps: seq<Part>, run: Run, k: nat)
    requires 0 < k <= |ps|
    requires KeysPresent(ps[0], run)
    requires AllKeysPresent(ps[1..][..k - 1], run)
    ensures AllKeysPresent(ps[..k], run)
    ensures PlanEffects(ps[..k], run) == PartEffects(ps[0], run) + PlanEffects(ps[1..][..k - 1], run)
  {
    assert ps[..k][1..] == ps[1..][..k - 1];
    assert forall i :: 1 <= i < k ==> ps[..k][i] == ps[1..][..k - 1][i - 1];
    PlanEffectsCons(ps[..k], run);
  }

  /** A part that goes through puts its effects in front of the rest of the
      loop. */
  lemma StopsAfterReadyPart(ps: seq<Part>, run: Run, fs: FileSystem,
                            middle: seq<Effect>, tail: seq<Effect>, failure: Failure)
    requires ps != []
    requires Ready(ps[0], run, fs)
    requires RunParts(ps[1..], run, fs) == Aborted(middle + tail, failure)
    ensures RunParts(ps, run, fs) == Aborted((PartEffects(ps[0], run) + middle) + tail, failure)
  {
    var first := PartEffects(ps[0], run);
    assert PartStep(ps[0], run, fs) == Proceed(first);
    RunPartsUnfold(ps, run, fs);
    assert first + (middle + tail) == (first + middle) + tail;
  }

  /** The loop stops at the first part that does not go through: the effects
      of the parts before it, then whatever that part did before failing. */
  lemma {:induction false} RunPartsStopsAt(ps: seq<Part>, run: Run, fs: FileSystem, k: nat)
    requires k < |ps|
    requires forall i :: 0 <= i < k ==> Ready(ps[i], run, fs)
    requires !Ready(ps[k], run, fs)
    ensures AllKeysPresent(ps[..k], run)
    ensures RunParts(ps, run, fs)
            == Aborted(PlanEffects(ps[..k], run) + PartStep(ps[k], run, fs).effects,
                       PartStep(ps[k], run, fs).failure)
    decreases k
  {
    var step := PartStep(ps[k], run, fs);
    if k == 0 {
      assert ps[..0] == [];
      assert AllKeysPresent(ps[..0], run);
      RunPartsUnfold(ps, run, fs);
    } else {
      var rest := ps[1..];
      assert rest[k - 1] == ps[k];
      assert forall i :: 0 <= i < k - 1 ==> rest[i] == ps[i + 1];
      RunPartsStopsAt(rest, run, fs, k - 1);
      StopsAfterReadyPart(ps, run, fs, PlanEffects(rest[..k - 1], run), step.effects, step.failure);
      PlanEffectsPrefix(ps, run, k);
    }
  }

  /** The planned effects alternate: the write of the i-th part's file, then
      its registration, two effects per part. */
  lemma PlanEffectsAt(ps: seq<Part>, run: Run, i: nat)
    requires AllKeysPresent(ps, run)
    requires i < |ps|
    ensures |PlanEffects(ps, run)| == 2 * |ps|
    ensures PlanEffects(ps, run)[2 * i] == PartWrite(ps[i], run)
    ensures PlanEffects(ps, run)[2 * i + 1] == PartRegister(ps[i], run)
  {
    PairsIndex(PlanWrites(ps, run), PlanRegisters(ps, run));
  }

  /** An add run succeeds exactly when both directory keys are present and
      every one of the five parts goes through. */
  lemma AddRunSucceedsIff(cfg: Config, req: AddRequest, fs: FileSystem)
    ensures AddRun(cfg, req, fs).Done? <==>
              && Prepare(cfg, req).Ok?
              && forall i :: 0 <= i < |Parts| ==> Ready(Parts[i], Prepare(cfg, req).value, fs)
  {
  }

  /** A successful add run performs the planned effects of the five parts in
      plan order (by PlanEffectsAt, each file's write followed by its
      registration) and then saves once. */
  lemma AddRunSuccessTrace(cfg: Config, req: AddRequest, fs: FileSystem, run: Run)
    requires Prepare(cfg, req) == Ok(run)
    requires forall i :: 0 <= i < |Parts| ==> Ready(Parts[i], run, fs)
    ensures AllKeysPresent(Parts, run)
    ensures AddRun(cfg, req, fs) == Done(PlanEffects(Parts, run) + [Save])
    ensures |AddRun(cfg, req, fs).trace| == 11
  {
    RunPartsAllReady(Parts, run, fs);
    PairsIndex(PlanWrites(Parts, run), PlanRegisters(Parts, run));
  }

  /** A missing template for part k stops the run with the effects of the
      parts before k only: nothing for part k or later, and no save. */
  lemma AddRunTemplateMissing(cfg: Config, req: AddRequest, fs: FileSystem, run: Run, k: nat)
    requires Prepare(cfg, req) == Ok(run)
    requires k < |Parts|
    requires forall i :: 0 <= i < k ==> Ready(Parts[i], run, fs)
    requires !HasTemplate(fs, run.templatesDir, TemplateName(Parts[k]))
    ensures AllKeysPresent(Parts[..k], run)
    ensures AddRun(cfg, req, fs)
            == Aborted(PlanEffects(Parts[..k], run), TemplateNotFound(TemplateName(Parts[k])))
    ensures |AddRun(cfg, req, fs).trace| == 2 * k
  {
    RunPartsStopsAt(Parts, run, fs, k);
    PairsIndex(PlanWrites(Parts[..k], run), PlanRegisters(Parts[..k], run));
  }

  /** A missing destination directory for part k stops the run the same
      way, naming the file that could not be created. */
  lemma AddRunDestinationMissing(cfg: Config, req: AddRequest, fs: FileSystem, run: Run, k: nat)
    requires Prepare(cfg, req) == Ok(run)
    requires k < |Parts|
    requires forall i :: 0 <= i < k ==> Ready(Parts[i], run, fs)
    requires HasTemplate(fs, run.templatesDir, TemplateName(Parts[k]))
    requires cfg.author.Some?
    requires !CanCreate(fs, PartPath(Parts[k], run))
    ensures AllKeysPresent(Parts[..k], run)
    ensures AddRun(cfg, req, fs)
            == Aborted(PlanEffects(Parts[..k], run), DestinationMissing(PartPath(Parts[k], run)))
    ensures |AddRun(cfg, req, fs).trace| == 2 * k
  {
    RunPartsStopsAt(Parts, run, fs, k);
    PairsIndex(PlanWrites(Parts[..k], run), PlanRegisters(Parts[..k], run));
  }

  /** The author is read for the first part, right after its template is
      found: with that key missing, the run stops before writing anything,
      on the author unless the View template is missing first. */
  lemma AddRunAuthorMissing(cfg: Config, req: AddRequest, fs: FileSystem, run: Run)
    requires Prepare(cfg, req) == Ok(run)
    requires cfg.author.None?
    ensures HasTemplate(fs, run.templatesDir, TemplateName(View)) ==>
              AddRun(cfg, req, fs) == Aborted([], MissingKey("author"))
    ensures !HasTemplate(fs, run.templatesDir, TemplateName(View)) ==>
              AddRun(cfg, req, fs) == Aborted([], TemplateNotFound(TemplateName(View)))
  {
    assert Parts[0] == View;
    RunPartsUnfold(Parts, run, fs);
  }

  /** The controllers group is read only after the Controller file has been
      written: with that key missing, the run stops after writing the fifth
      file and before registering it or saving. */
  lemma AddRunControllersGroupMissing(cfg: Config, req: AddRequest, fs: FileSystem, run: Run)
    requires Prepare(cfg, req) == Ok(run)
    requires forall i :: 0 <= i < 4 ==> Ready(Parts[i], run, fs)
    requires HasTemplate(fs, run.templatesDir, TemplateName(Controller))
    requires cfg.author.Some? && cfg.controllersGroup.None?
    requires CanCreate(fs, PartPath(Controller, run))
    ensures AllKeysPresent(Parts[..4], run)
    ensures AddRun(cfg, req, fs)
            == Aborted(PlanEffects(Parts[..4], run) + [PartWrite(Controller, run)],
                       MissingKey("uikit_controllers_group"))
  {
    RunPartsStopsAt(Parts, run, fs, 4);
  }

  /** With the View and Interactor parts in place and the Presenter template
      missing, exactly the View and Interactor files are written and
      registered, and the failure names the Presenter template. */
  lemma MissingPresenterTemplate(cfg: Config, req: AddRequest, fs: FileSystem, run: Run)
    requires Prepare(cfg, req) == Ok(run)
    requires Ready(View, run, fs) && Ready(Interactor, run, fs)
    requires !HasTemplate(fs, run.templatesDir, "Presenter.tpl.swift")
    ensures AddRun(cfg, req, fs)
            == Aborted([PartWrite(View, run), PartRegister(View, run),
                        PartWrite(Interactor, run), PartRegister(Interactor, run)],
                       TemplateNotFound("Presenter.tpl.swift"))
  {
    assert Parts[2] == Presenter;
    assert TemplateName(Presenter) == "Presenter.tpl.swift";
    AddRunTemplateMissing(cfg, req, fs, run, 2);
    assert Parts[..2] == [View, Interactor];
    PlanEffectsOfTwo(View, Interactor, run);
  }

  /** The planned effects of two parts, spelled out. */
  lemma PlanEffectsOfTwo(a: Part, b: Part, run: Run)
    requires KeysPresent(a, run) && KeysPresent(b, run)
    ensures AllKeysPresent([a, b], run)
    ensures PlanEffects([a, b], run)
            == [PartWrite(a, run), PartRegister(a, run), PartWrite(b, run), PartRegister(b, run)]
  {
    PlanEffectsAt([a, b], run, 0);
    PlanEffectsAt([a, b], run, 1);
  }

  /** Target precedence as it reaches the manifest: every registration names
      the command-line targets when given, otherwise the document's targets
      when non-empty, otherwise every target. */
  lemma AddRunTargetPrecedence(cfg: Config, req: AddRequest, fs: FileSystem)
    ensures |req.cliTargets| > 0 ==>
              RegistersWith(AddRun(cfg, req, fs).trace, Only(req.cliTargets))
    ensures |req.cliTargets| == 0 && cfg.targets.Some? && |cfg.targets.value| > 0 ==>
              RegistersWith(AddRun(cfg, req, fs).trace, Only(cfg.targets.value))
    ensures |req.cliTargets| == 0 && (cfg.targets.None? || cfg.targets.value == []) ==>
              RegistersWith(AddRun(cfg, req, fs).trace, AllTargets)
  {
  }

  /** With every key present (as in the generated document) an add run can
      only stop for a missing template or directory, never a missing key. */
  lemma CompleteConfigNeedsNoKey(cfg: Config, req: AddRequest, fs: FileSystem)
    requires Complete(cfg)
    ensures AddRun(cfg, req, fs).Aborted? ==>
              AddRun(cfg, req, fs).failure.TemplateNotFound?
              || AddRun(cfg, req, fs).failure.DestinationMissing?
  {
  }

  /** One iteration of the part loop. */
  lemma RunPartsUnfold(ps: seq<Part>, run: Run, fs: FileSystem)
    requires ps != []
    ensures RunParts(ps, run, fs)
            == match PartStep(ps[0], run, fs)
               case Stop(effects, failure) => Aborted(effects, failure)
               case Proceed(effects) => Prepend(effects, RunParts(ps[1..], run, fs))
  {
  }

  /** One part as the generator handles it, with an early exit at each
      check; it computes exactly the step above. */
  method ExecutePart(p: Part, run: Run, fs: FileSystem) returns (s: Step)
    ensures s == PartStep(p, run, fs)
  {
    var template := TemplateName(p);
    if !HasTemplate(fs, run.templatesDir, template) {
      return Stop([], TemplateNotFound(template));
    }
    if run.cfg.author.None? {
      return Stop([], MissingKey("author"));
    }
    var path := OutputPath(run.fullDir, run.moduleName, p);
    if !CanCreate(fs, path) {
      return Stop([], DestinationMissing(path));
    }
    var write := Write(path, template,
      PartContext(run.moduleName, Name(p), run.today, run.year, run.storyboard, run.cfg.author.value));
    var group: string;
    if p == Controller {
      if run.cfg.controllersGroup.None? {
        return Stop([write], MissingKey("uikit_controllers_group"));
      }
      group := run.cfg.controllersGroup.value;
    } else {
      PluralIsDir(p);
      group := Name(p) + "s";
    }
    return Proceed([write, Register(path, group, Selection(run.targets))]);
  }

  /** The part loop, stopping at the first part that does not go through;
      it computes exactly the fold above. */
  method ExecuteParts(ps: seq<Part>, run: Run, fs: FileSystem) returns (o: Outcome)
    ensures o == RunParts(ps, run, fs)
  {
    var trace: seq<Effect> := [];
    var i := 0;
    while i < |ps|
      invariant 0 <= i <= |ps|
      invariant RunParts(ps, run, fs) == Prepend(trace, RunParts(ps[i..], run, fs))
    {
      assert ps[i..][0] == ps[i] && ps[i..][1..] == ps[i + 1..];
      RunPartsUnfold(ps[i..], run, fs);
      var step := ExecutePart(ps[i], run, fs);
      if step.Stop? {
        return Aborted(trace + step.effects, step.failure);
      }
      PrependTwice(trace, step.effects, RunParts(ps[i + 1..], run, fs));
      trace := trace + step.effects;
      i := i + 1;
    }
    assert ps[i..] == [];
    return Done(trace);
  }
}
