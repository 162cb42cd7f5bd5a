/** The abstract effects a run performs, in order: writing a rendered file,
    registering a file in the project manifest, saving the manifest. */
module Effects {

  /** Build targets a registration names. */
  datatype Targets = AllTargets | Only(names: seq<string>)

  /** The target argument of a registration: a non-empty list is passed as
      is; an empty list registers the file with every target of the project,
      naming none. */
  function Selection(targets: seq<string>): (t: Targets)
    ensures t == AllTargets <==> |targets| == 0
    ensures t.Only? ==> t.names == targets && |t.names| > 0
  {
    if |targets| > 0 then Only(targets) else AllTargets
  }

  /** What a template is rendered with; the rendered text itself is opaque. */
  datatype Context =
    | PartContext(moduleName: string, fileType: string, creationDate: string,
                  creationYear: string, storyboardName: string, author: string)
    | CommonContext(baseViewController: string)

  datatype Effect =
    | Write(path: string, template: string, context: Context)
    | Register(path: string, group: string, targets: Targets)
    | Save

  /** Why a run stopped. MissingKey is a settings key read but absent;
      TargetsUnbound is an init run reaching a registration with no target
      list ever bound. */
  datatype Failure =
    | TemplateNotFound(template: string)
    | DestinationMissing(path: string)
    | MissingKey(key: string)
    | TargetsUnbound

  /** A run that went to its end, or one that stopped; either way the effects
      it performed up to that point. */
  datatype Outcome =
    | Done(trace: seq<Effect>)
    | Aborted(trace: seq<Effect>, failure: Failure)

  /** The outcome of a run that first performed `effects`. */
  function Prepend(effects: seq<Effect>, o: Outcome): (r: Outcome)
    ensures r.trace == effects + o.trace
    ensures r.Done? == o.Done?
    ensures r.Aborted? ==> r.failure == o.failure
  {
    match o
    case Done(t) => Done(effects + t)
    case Aborted(t, f) => Aborted(effects + t, f)
  }

  /** Performing `a` and then `b` in front of a run is performing `a + b`. */
  lemma PrependTwice(a: seq<Effect>, b: seq<Effect>, o: Outcome)
    ensures Prepend(a, Prepend(b, o)) == Prepend(a + b, o)
  {
    assert a + (b + o.trace) == (a + b) + o.trace;
  }

  /** Interleaves two equally long effect lists: ws[0], rs[0], ws[1], rs[1],
      and so on. */
  function Pairs(ws: seq<Effect>, rs: seq<Effect>): seq<Effect>
    requires |ws| == |rs|
    decreases |ws|
  {
    if ws == [] then [] else [ws[0], rs[0]] + Pairs(ws[1..], rs[1..])
  }

  /** Position 2i of an interleaving holds ws[i] and position 2i + 1 holds
      rs[i]. */
  lemma {:induction false} PairsIndex(ws: seq<Effect>, rs: seq<Effect>)
    requires |ws| == |rs|
    ensures |Pairs(ws, rs)| == 2 * |ws|
    ensures forall i :: 0 <= i < |ws| ==> Pairs(ws, rs)[2 * i] == ws[i] && Pairs(ws, rs)[2 * i + 1] == rs[i]
    decreases |ws|
  {
    if ws != [] {
      PairsIndex(ws[1..], rs[1..]);
      var t := Pairs(ws, rs);
      var tail := Pairs(ws[1..], rs[1..]);
      assert t == [ws[0], rs[0]] + tail;
      forall i | 1 <= i < |ws|
        ensures t[2 * i] == ws[i] && t[2 * i + 1] == rs[i]
      {
        assert t[2 * i] == tail[2 * (i - 1)];
        assert t[2 * i + 1] == tail[2 * (i - 1) + 1];
        assert ws[1..][i - 1] == ws[i];
        assert rs[1..][i - 1] == rs[i];
      }
    }
  }

  predicate NoSave(t: seq<Effect>) {
    forall i :: 0 <= i < |t| ==> !t[i].Save?
  }

  /** The manifest is saved exactly once, as the last effect. */
  predicate SavedOnceAtEnd(t: seq<Effect>) {
    |t| > 0 && t[|t| - 1] == Save && NoSave(t[..|t| - 1])
  }

  /** Every registration comes right after the write of the same file. */
  predicate RegistersFollowWrites(t: seq<Effect>) {
    forall i :: 0 <= i < |t| && t[i].Register? ==>
      0 < i && t[i - 1].Write? && t[i - 1].path == t[i].path
  }

  /** Every registration names the given target selection. */
  predicate RegistersWith(t: seq<Effect>, targets: Targets) {
    forall i :: 0 <= i < |t| && t[i].Register? ==> t[i].targets == targets
  }

  /** Every registration uses one of the given groups. */
  predicate RegistersIn(t: seq<Effect>, groups: set<string>) {
    forall i :: 0 <= i < |t| && t[i].Register? ==> t[i].group in groups
  }

  /** Appending the save to a trace that had none saves once, at the end,
      and leaves the registrations as they were. */
  lemma AppendSave(t: seq<Effect>, targets: Targets, groups: set<string>)
    requires NoSave(t)
    requires RegistersFollowWrites(t) && RegistersWith(t, targets) && RegistersIn(t, groups)
    ensures SavedOnceAtEnd(t + [Save])
    ensures RegistersFollowWrites(t + [Save])
    ensures RegistersWith(t + [Save], targets) && RegistersIn(t + [Save], groups)
  {
    assert (t + [Save])[..|t|] == t;
    assert forall i :: 0 <= i < |t| ==> (t + [Save])[i] == t[i];
  }

  /** The trace properties above survive concatenation, provided the second
      part does not start with a registration. */
  lemma ConcatTraces(a: seq<Effect>, b: seq<Effect>, targets: Targets, groups: set<string>)
    requires RegistersFollowWrites(a) && RegistersFollowWrites(b)
    requires NoSave(a) && NoSave(b)
    requires RegistersWith(a, targets) && RegistersWith(b, targets)
    requires RegistersIn(a, groups) && RegistersIn(b, groups)
    ensures RegistersFollowWrites(a + b) && NoSave(a + b)
    ensures RegistersWith(a + b, targets) && RegistersIn(a + b, groups)
  {
    var t := a + b;
    forall i | 0 <= i < |t| && t[i].Register?
      ensures 0 < i && t[i - 1].Write? && t[i - 1].path == t[i].path
    {
      if i >= |a| {
        assert t[i] == b[i - |a|];
        assert t[i - 1] == b[i - 1 - |a|];
      }
    }
  }
}
