/** Resolution of the effective settings of one run from the YAML settings
    document and the command-line values. */
module Settings {
  import opened Wrappers

  /** The settings document after loading; a key the document does not
      contain is None. Field names follow the document keys: project_dir,
      templates_dir, uikit_controllers_group, author, targets,
      base_viewcontroller. */
  datatype Config = Config(
    projectDir: Option<string>,
    templatesDir: Option<string>,
    controllersGroup: Option<string>,
    author: Option<string>,
    targets: Option<seq<string>>,
    baseViewController: Option<string>)

  /** Value of templates_dir meaning "the templates bundled with the tool". */
  const TemplatesSentinel: string := "$TEMPLATES"

  const DefaultStoryboard: string := "Main"
  const DefaultBaseViewController: string := "UIViewController"
  const DefaultControllersGroup: string := "VIPER_CONTROLLERS"
  const DefaultAuthor: string := "MyCompany"

  /** Every key the add and init runs read is present. */
  predicate Complete(c: Config) {
    && c.projectDir.Some?
    && c.templatesDir.Some?
    && c.controllersGroup.Some?
    && c.author.Some?
    && c.targets.Some?
    && c.baseViewController.Some?
  }

  /** The document written by `init --initfile` for a project. */
  function DefaultConfig(projectName: string): (c: Config)
    ensures Complete(c)
  {
    Config(
      projectDir := Some(projectName),
      templatesDir := Some(TemplatesSentinel),
      controllersGroup := Some(DefaultControllersGroup),
      author := Some(DefaultAuthor),
      targets := Some([projectName]),
      baseViewController := Some(DefaultBaseViewController))
  }

  /** Target list of an add run: starts empty, is replaced by the document's
      list when the key exists, and by the command-line list when one is
      given (an empty command-line list counts as not given). */
  function AddTargets(c: Config, cliTargets: seq<string>): (r: seq<string>)
    ensures |cliTargets| > 0 ==> r == cliTargets
    ensures |cliTargets| == 0 && c.targets.Some? ==> r == c.targets.value
    ensures |cliTargets| == 0 && c.targets.None? ==> r == []
  {
    var fromDocument := if c.targets.Some? then c.targets.value else [];
    if |cliTargets| > 0 then cliTargets else fromDocument
  }

  /** Target list of an init run. The init run has no initial value, so with
      neither the document key nor a command-line list the variable is never
      bound: that is None here. */
  function InitTargets(c: Config, cliTargets: seq<string>): (r: Option<seq<string>>)
    ensures r.None? <==> |cliTargets| == 0 && c.targets.None?
    ensures r.Some? ==> r.value == AddTargets(c, cliTargets)
  {
    if |cliTargets| > 0 then Some(cliTargets)
    else if c.targets.Some? then Some(c.targets.value)
    else None
  }

  /** Storyboard name of an add run: the caller's non-empty value, or "Main". */
  function StoryboardName(storyboard: Option<string>): (r: string)
    ensures r != []
    ensures storyboard.Some? && storyboard.value != [] ==> r == storyboard.value
    ensures r != DefaultStoryboard ==> storyboard == Some(r)
  {
    if storyboard.Some? && storyboard.value != [] then storyboard.value
    else DefaultStoryboard
  }

  /** Templates directory of an add run: the sentinel becomes the Templates
      directory beside the tool; every other value is used unchanged. */
  function ResolveTemplatesDir(value: string, toolDir: string): (r: string)
    ensures value == TemplatesSentinel ==> r == toolDir + "/Templates"
    ensures value != TemplatesSentinel ==> r == value
    ensures r != TemplatesSentinel
  {
    if value == TemplatesSentinel then
      var r := toolDir + "/Templates";
      assert r[|toolDir|] == '/';
      assert forall j :: 0 <= j < |TemplatesSentinel| ==> TemplatesSentinel[j] != '/';
      r
    else value
  }

  /** Base class handed to the common templates by an init run. */
  function BaseViewController(c: Config): (r: string)
    ensures c.baseViewController.Some? ==> r == c.baseViewController.value
    ensures c.baseViewController.None? ==> r == DefaultBaseViewController
  {
    if c.baseViewController.Some? then c.baseViewController.value
    else DefaultBaseViewController
  }

  /** Where the init and add runs both bind a target list, they bind the same
      one; where the init run leaves it unbound, the add run uses the empty
      list, meaning every target. */
  lemma InitAgreesWithAdd(c: Config, cliTargets: seq<string>)
    ensures InitTargets(c, cliTargets).Some? ==> InitTargets(c, cliTargets).value == AddTargets(c, cliTargets)
    ensures InitTargets(c, cliTargets).None? ==> AddTargets(c, cliTargets) == []
  {
  }

  /** What a freshly generated document resolves to. */
  lemma DefaultConfigResolution(projectName: string, toolDir: string)
    ensures AddTargets(DefaultConfig(projectName), []) == [projectName]
    ensures InitTargets(DefaultConfig(projectName), []) == Some([projectName])
    ensures ResolveTemplatesDir(DefaultConfig(projectName).templatesDir.value, toolDir) == toolDir + "/Templates"
    ensures BaseViewController(DefaultConfig(projectName)) == DefaultBaseViewController
    ensures DefaultConfig(projectName).controllersGroup == Some(DefaultControllersGroup)
  {
  }
}
