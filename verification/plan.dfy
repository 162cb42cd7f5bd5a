/** The fixed five-part module scaffold: part kinds, their directories,
    template names, output paths and manifest groups. */
module Plan {
  import opened Wrappers
  import opened Files

  datatype Part = View | Interactor | Presenter | Router | Controller

  /** The parts in the order an add run visits them. */
  const Parts: seq<Part> := [View, Interactor, Presenter, Router, Controller]

  /** The part's key, also the stem of its template and file names. */
  function Name(p: Part): string {
    match p
    case View => "View"
    case Interactor => "Interactor"
    case Presenter => "Presenter"
    case Router => "Router"
    case Controller => "Controller"
  }

  /** The project sub-directory that receives the part's file. */
  function Dir(p: Part): string {
    match p
    case View => "Views"
    case Interactor => "Interactors"
    case Presenter => "Presenters"
    case Router => "Routers"
    case Controller => "ViewControllers"
  }

  function TemplateName(p: Part): string {
    Name(p) + ".tpl.swift"
  }

  /** Directory holding generated code: the project's parent directory joined
      with project_dir. */
  function ProjectFullDir(projectRoot: string, projectDir: string): string {
    projectRoot + "/" + projectDir
  }

  function FileName(moduleName: string, p: Part): string {
    moduleName + Name(p) + ".swift"
  }

  function OutputPath(fullDir: string, moduleName: string, p: Part): string {
    fullDir + "/" + Dir(p) + "/" + FileName(moduleName, p)
  }

  /** Manifest group a part's file is registered under: the configured
      controllers group for Controller (None when the key is missing), the
      plural of the part name otherwise. */
  function GroupName(p: Part, controllersGroup: Option<string>): (g: Option<string>)
    ensures g.None? <==> p == Controller && controllersGroup.None?
    ensures p == Controller ==> g == controllersGroup
    ensures p != Controller ==> g == Some(Dir(p))
  {
    if p == Controller then controllersGroup
    else
      PluralIsDir(p);
      Some(Name(p) + "s")
  }

  /** For every part but Controller the plural of the name is the directory. */
  lemma PluralIsDir(p: Part)
    requires p != Controller
    ensures Name(p) + "s" == Dir(p)
  {
    match p
    case View => assert "View" + "s" == "Views";
    case Interactor => assert "Interactor" + "s" == "Interactors";
    case Presenter => assert "Presenter" + "s" == "Presenters";
    case Router => assert "Router" + "s" == "Routers";
  }

  /** Every part occurs in the plan exactly once. */
  lemma PlanCoversEachPartOnce()
    ensures |Parts| == 5
    ensures forall p: Part :: p in Parts
    ensures forall i, j :: 0 <= i < j < |Parts| ==> Parts[i] != Parts[j]
  {
    forall p: Part ensures p in Parts {
      match p
      case View => assert Parts[0] == p;
      case Interactor => assert Parts[1] == p;
      case Presenter => assert Parts[2] == p;
      case Router => assert Parts[3] == p;
      case Controller => assert Parts[4] == p;
    }
  }

  /** Distinct parts use distinct templates. */
  lemma TemplateNamesDistinct(p: Part, q: Part)
    requires p != q
    ensures TemplateName(p) != TemplateName(q)
  {
    assert TemplateName(p)[..|Name(p)|] == Name(p);
    assert TemplateName(q)[..|Name(q)|] == Name(q);
  }

  /** Distinct parts of one module never write to the same file. */
  lemma OutputPathsDistinct(fullDir: string, moduleName: string, p: Part, q: Part)
    requires p != q
    ensures OutputPath(fullDir, moduleName, p) != OutputPath(fullDir, moduleName, q)
  {
    assert |Dir(p)| + |Name(p)| != |Dir(q)| + |Name(q)|;
  }

  /** A part's file lands in the part's directory, provided the module name
      has no '/'. */
  lemma OutputPathLocation(fullDir: string, moduleName: string, p: Part)
    requires NoSlash(moduleName)
    ensures DirName(OutputPath(fullDir, moduleName, p)) == fullDir + "/" + Dir(p)
  {
    var f := FileName(moduleName, p);
    assert NoSlash(f) by {
      assert forall j :: |moduleName| <= j < |f| ==> f[j] == (Name(p) + ".swift")[j - |moduleName|];
    }
    assert OutputPath(fullDir, moduleName, p) == (fullDir + "/" + Dir(p)) + "/" + f;
    DirNameOfJoin(fullDir + "/" + Dir(p), f);
  }

  /** Position i of a non-empty sequence of parts is position i - 1 of its
      tail. */
  lemma TailIndex(ps: seq<Part>)
    requires ps != []
    ensures forall i :: 1 <= i < |ps| ==> ps[1..][i - 1] == ps[i]
  {
  }
}
