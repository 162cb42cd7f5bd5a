# swivigen decision logic, modelled in Dafny

swivigen generates the five source files of a VIPER module (View,
Interactor, Presenter, Router, Controller) for a Swift project in Xcode.
It registers each file in the project manifest (`project.pbxproj`) under
a group and a set of build targets. `swivigen init` writes the shared
"ViperCommon" files. `swivigen add` writes one module's five files.

This project models the deterministic logic of `swivigen/__init__.py` as
pure Dafny functions:

- **Settings resolution** (`settings.dfy`, module `Settings`). The YAML
  settings document is a `Config` record with one optional field per key.
  Pure functions resolve the target list, storyboard name, templates
  directory and base view controller. The record written by
  `--initfile` is `DefaultConfig`.
- **Scaffold plan** (`plan.dfy`, module `Plan`). The five parts in the
  order the add run visits them. Each part has a directory, a template
  name (`<Part>.tpl.swift`), an output path
  (`<projectDir>/<PartDir>/<Module><Part>.swift`) and a manifest group.
- **Effects** (`effects.dfy`, module `Effects`). A run is a trace of
  abstract effects: `Write(path, template, context)`,
  `Register(path, group, targets)` and `Save`. A run either ends as
  `Done(trace)` or stops as `Aborted(trace, failure)`. `Selection` models
  `__add_to_project`: an empty target list registers the file with every
  target, and a non-empty list is passed on unchanged.
- **Add run** (`add.dfy`, module `Add`). `AddRun` is a fold over the five
  parts. `ExecuteParts` is the part loop with early exits, and it is
  proved to compute the same outcome as the fold.
- **Init run** (`init.dfy`, module `Init`). A fold over the names the walk
  of the Common directory yields, followed by the save.
- `files.dfy` (module `Files`) describes what a run can see of the file
  system. `wrappers.dfy` defines `Option` and `Result`.

Failures happen in the order the code reads things. Every failure is an
`Aborted` outcome that keeps the effects already performed:

- A settings key that is read but missing (a `KeyError`) is
  `MissingKey(key)`.
- A missing template is `TemplateNotFound(name)`.
- A write into a directory that does not exist is
  `DestinationMissing(path)`.
- An init run that registers a file when no target list was ever bound
  gets `TargetsUnbound`.

The add run reads `uikit_controllers_group` only after it has written the
Controller file. If that key is missing and the first four parts go
through, and the Controller template and directory exist, the run stops
with the fifth file written but not registered. Otherwise an earlier
failure stops it first.

Registrations in an aborted trace only changed the manifest in memory.
No aborted trace contains `Save`, so those registrations never reach the
disk.

Inputs that stand in for I/O:
- `projectRoot`: the directory part of the real path of the project.
- `toolDir`: the tool's install directory.
- `today` and `year`: the formatted dates.
- `commonFiles`: the bare file names the walk of `<toolDir>/Common`
  yields, in walk order. This includes files in sub-directories.
- `FileSystem`: the template files and directories that exist.

An add run's template exists when `<templatesDir>/<name>` is one of the
files. An init run looks each common name up as `<toolDir>/Common/<name>`,
at the top level only. A file the walk found in a sub-directory therefore
has no template unless a file of the same name also sits at the top. A
file can be created when its directory (everything before the last `/`)
exists.

Three points about the code:
- An absent `targets` key does not default to the project name. `add`
  starts from `[]`, which means every target. With no `targets` key and
  no `--targets`, `init` never binds the variable. If there is a common
  file, it is written and its registration fails, unless its template is
  missing, which fails first.
- An abort calls `sys.exit(0)`. The model records the failure as a typed
  outcome and makes no claim about the exit status.
- Idempotent insertion into the manifest happens inside the manifest
  library and is not modelled.

## Model

| member | source | states |
|---|---|---|
| Effects.Selection | swivigen/__init__.py:11-17 | an empty target list registers the file with all targets and names none; a non-empty list is passed through exactly |
| Settings.DefaultConfig | swivigen/__init__.py:20-26 | the generated settings document holds every key the runs read |
| Settings.DefaultConfigResolution | swivigen/__init__.py:21-26 | the generated document resolves to the targets [projectName] for both runs, templates beside the tool, the base class UIViewController and the group VIPER_CONTROLLERS |
| Settings.AddTargets | swivigen/__init__.py:101-108 | a non-empty command-line list wins; otherwise the document's targets if the key exists; otherwise the empty list |
| Settings.InitTargets | swivigen/__init__.py:61-66 | the init target list is unbound exactly when the key is absent and no command-line list is given; when bound it equals the add run's list |
| Settings.InitAgreesWithAdd | swivigen/__init__.py:61-66 | where init binds a target list it is the add run's list; where init leaves it unbound, add uses the empty list (all targets) |
| Settings.StoryboardName | swivigen/__init__.py:110-113 | the storyboard is never empty; it is the caller's value when that is non-empty, and any value other than "Main" came from the caller |
| Settings.ResolveTemplatesDir | swivigen/__init__.py:119-122 | the `$TEMPLATES` sentinel becomes `<toolDir>/Templates`; any other value is unchanged; the result is never the sentinel |
| Settings.BaseViewController | swivigen/__init__.py:68-71 | the document's base class when the key exists, UIViewController otherwise |
| Plan.PlanCoversEachPartOnce | swivigen/__init__.py:131-138 | the plan has five entries, covers every part kind, and repeats none |
| Plan.TemplateNamesDistinct | swivigen/__init__.py:140 | different parts look up different templates |
| Plan.OutputPathsDistinct | swivigen/__init__.py:146 | different parts of one module never write the same file |
| Plan.OutputPathLocation | swivigen/__init__.py:146 | a part's file `<Module><Part>.swift` lands in `<projectDir>/<PartDir>` |
| Plan.GroupName | swivigen/__init__.py:161-164 | Controller uses the configured controllers group (missing when the key is absent); every other part uses a group equal to its directory name |
| Add.Prepare | swivigen/__init__.py:101-124 | templates_dir is read before project_dir, and a missing one stops the run with nothing done; otherwise the run uses the resolved targets, storyboard, templates directory and project directory |
| Add.PartStep | swivigen/__init__.py:139-165 | a part goes through exactly when its template exists, the author key is present, its directory exists and its group is known; a missing template, author or directory fails with nothing written, naming what was missing; only a missing controllers group fails after the write |
| Add.RunParts | swivigen/__init__.py:138-165 | the loop completes exactly when every part goes through; when it stops for a missing key, the author or the controllers group is absent |
| Add.RunPartsTrace | swivigen/__init__.py:138-165 | the loop's trace never saves, registers each file right after writing it, always with the resolved targets, and only in the module groups |
| Add.PartEffectsTrace | swivigen/__init__.py:146-165 | one part's write and registration name the same file, and the registration uses the resolved targets and a module group |
| Add.AddRun | swivigen/__init__.py:92-167 | a completed run saves once, as its last effect; an aborted run never saves; every registration follows its write and uses the resolved targets and a module group |
| Add.RunPartsAllReady | swivigen/__init__.py:138-165 | when every part goes through, the loop performs exactly the planned write and registration of each part |
| Add.RunPartsStopsAt | swivigen/__init__.py:138-165 | the loop stops at the first part that does not go through, after the effects of all earlier parts and only what that part did before failing |
| Add.PlanEffectsAt | swivigen/__init__.py:146-165 | the planned effects are two per part: position 2i is the write of part i's file and position 2i + 1 its registration |
| Add.AddRunSucceedsIff | swivigen/__init__.py:119-167 | an add run completes if and only if both directory keys are present and all five parts go through |
| Add.AddRunSuccessTrace | swivigen/__init__.py:138-167 | when all five parts go through (by `AddRunSucceedsIff`, exactly when the run completes), the run performs the planned write and registration of each part in plan order, then one save: eleven effects |
| Add.AddRunTemplateMissing | swivigen/__init__.py:139-144 | a missing template for part k leaves the effects of the parts before k only, with no save, and names that template |
| Add.AddRunDestinationMissing | swivigen/__init__.py:152-159 | a missing destination directory for part k leaves the effects of the parts before k only, with no save, and names the file |
| Add.AddRunAuthorMissing | swivigen/__init__.py:139-150 | without the author key the run writes nothing: it stops on the missing author, or on the View template if that is missing first |
| Add.AddRunControllersGroupMissing | swivigen/__init__.py:152-165 | without uikit_controllers_group the run writes all five files, registers four, and stops before registering the controller or saving |
| Add.MissingPresenterTemplate | swivigen/__init__.py:138-144 | with the Presenter template missing, only the View and Interactor files are written and registered, and the failure names Presenter.tpl.swift |
| Add.AddRunTargetPrecedence | swivigen/__init__.py:101-108 | every registration names the command-line targets if given, else the document's non-empty targets, else all targets |
| Add.CompleteConfigNeedsNoKey | swivigen/__init__.py:119-162 | with every key present, an add run can stop only for a missing template or a missing directory |
| Add.ExecuteParts | swivigen/__init__.py:138-165 | the loop with early exits computes exactly the fold `RunParts` |
| Init.RunCommon | swivigen/__init__.py:74-82 | the common-file loop completes exactly when every name has its template at the top of Common and, if there is any file, a target list is bound. With no list, the first name stops the run: at the lookup if its template is missing, otherwise after its write and before its registration. A stop is always an unbound target list or a name with no template. The loop never saves and registers only under ViperCommon |
| Init.RunCommonTemplateMissing | swivigen/__init__.py:74-82 | with a target list, a name with no template stops the loop with exactly the effects of the names before it |
| Init.RunCommonShape | swivigen/__init__.py:74-82 | with a target list and every template present, every common file is written and then registered, in walk order |
| Init.InitRun | swivigen/__init__.py:37-89 | a completed init run saves once, last; an aborted one never saves; every registration follows its write, uses the add run's target list and the ViperCommon group |
| Init.InitRunFailsIff | swivigen/__init__.py:55-82 | init fails if and only if project_dir is missing, or a common name has no template at the top of Common, or there is a common file and no target list is bound |
| Init.InitRunUnboundTargets | swivigen/__init__.py:61-82 | with no target list bound, the first common file is written and the run stops before registering it or saving; if its template is missing, the run stops before writing anything |
| Init.InitRunTemplateMissing | swivigen/__init__.py:73-82 | with a target list, a common name with no template stops init after the earlier files were written and registered in walk order, with nothing for that name and no save |
| Init.InitRunSuccessTrace | swivigen/__init__.py:73-89 | a completed init run writes and registers each common file in walk order with the add run's target list, then saves |
| Init.DefaultConfigInit | swivigen/__init__.py:20-26 | with the generated document, no command-line targets and every common template in place, init completes and registers every file with the project's own target |

## Left out

- YAML loading and dumping (lines 28-34, 48-49, 94-95) is file I/O. The
  loaded document is an input, and the model assumes it is a mapping
  whose values have the expected types. A null `targets` behaves like an
  empty list. A `targets` given as one string is not modelled.
- `os.path.realpath`, `os.path.dirname` and `__file__` (lines 39, 55, 120,
  124) are file-system queries. Their results are the inputs `projectRoot`
  and `toolDir`.
- Directory creation in init (lines 57-59, 84-87) is file-system I/O. It
  produces no effect in the trace. Common files are assumed writable,
  since their directory is created just before.
- The directory walk (lines 74-75) is file-system I/O. The names it
  yields are the input `commonFiles`, in walk order. The model does not
  relate them to `FileSystem`.
- Jinja2 template lookup and rendering (lines 41-44, 76-78, 126-129,
  140-150) belong to a foreign library. A template exists when its path is
  among the files of `FileSystem`. The rendered text is opaque. A write
  records the template name and the render context.
- The date formatting (lines 115-117) depends on the clock. The date
  strings are inputs.
- The manifest library (`XcodeProject.load`, `get_or_create_group`,
  `add_file`, `save`) is not part of this model. Its group memoisation,
  idempotent insertion and load failures are not modelled. A
  registration is recorded as an effect.
- Write failures other than a missing directory, such as permissions,
  are not modelled.
- The exit status of `sys.exit(0)` and the coloured messages are process
  and console output. An abort is a typed failure.
- Command-line wiring (lines 170-241) is plumbing: `main`, argparse, the
  greeting, the `viper.yml` default path, and the `.xcodeproj` suffix
  stripping for `--initfile`. An empty `cliTargets` stands for an omitted
  `--targets`.
- Plan.OutputPathLocation: states where the file lands only for module
  names without `/`. A name with `/` puts the file in a sub-directory of
  the part directory, and the model's `CanCreate` follows that.
- Plan.Parts: the visiting order View, Interactor, Presenter, Router,
  Controller assumes that `parts.keys()` (lines 131-138) iterates in
  insertion order. Python guarantees this from 3.7, and CPython 3.6 does
  it as an implementation detail. On older interpreters the order follows
  string hashing. That changes the trace order and which missing template
  is reported first.
