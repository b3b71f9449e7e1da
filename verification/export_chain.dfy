/** The export pipeline as a chain of responsibility: each link does its work and then either
    answers (a failure, or a later link's final response) or hands the same context to the next
    link. A link with no next link turns a forward into EXPORT_FAILED. */
module ExportChain {
  import opened Common
  import opened ExportCleanup

  /** The shared context the links read: where the temporary files go, the snapshot database being
      exported and the users it is cut down to. */
  datatype ExportContext = ExportContext(tmpLocation: string, destinationDbFilePath: string, userIds: seq<string>)

  /** What the links act on: the directories and files on the device, the snapshot's tables, and a
      log of the links run, in order. */
  datatype World = World(dirs: set<string>, files: set<string>, snapshot: Tables, log: seq<string>)

  /** How a file-system call ends: it does its work, it returns false without doing it (the
      source ignores the result), or it throws an exception with a message. */
  datatype FileOp = Done | Refused | Threw(message: string)

  /** How the environment answers `mkdirs` for the temporary location and `delete` of the
      journal file. */
  datatype Faults = Faults(mkdirs: FileOp, journalDelete: FileOp)

  /** A link of an export chain. `Other` stands for a link outside this model (copying rows,
      writing the archive, removing temporary files, ...): it records itself, deletes the paths in
      `removes`, whether directories or files, and then forwards (`answer == None`) or answers. */
  datatype Step =
    | CreateTempLoc
    | CleanupExportedFile
    | Other(name: string, answer: Option<Response<string>>, danglingMessage: string, removes: set<string>)

  /** The TAG each link attaches to its failures. */
  function Tag(s: Step): string
  {
    match s
    case CreateTempLoc => "CreateTempLoc"
    case CleanupExportedFile => "CleanupExportedFile"
    case Other(name, _, _, _) => name
  }

  /** The paths a link deletes on its own account. */
  function Removes(s: Step): set<string>
  {
    if s.Other? then s.removes else {}
  }

  /** The paths the given links delete on their own account. */
  function Removals(steps: seq<Step>): set<string>
  {
    if steps == [] then {} else Removes(steps[0]) + Removals(steps[1..])
  }

  /** The failure a link returns when it would forward but has no next link. */
  function Dangling(s: Step): (r: Response<string>)
    ensures r.Failure? && r.code == ExportFailed && r.tag == Tag(s)
    ensures s == CreateTempLoc ==> r.message == "Export content failed"
    ensures s == CleanupExportedFile ==> r.message == "Export profile failed"
    ensures s.Other? ==> r.message == s.danglingMessage
  {
    match s
    case CreateTempLoc => Failure(ExportFailed, "Export content failed", Tag(s))
    case CleanupExportedFile => Failure(ExportFailed, "Export profile failed", Tag(s))
    case Other(_, _, message, _) => Failure(ExportFailed, message, Tag(s))
  }

  /** What one link's own work does: it answers or forwards, in either case with the new world. */
  datatype StepResult = Forward(world: World) | Answer(response: Response<string>, world: World)

  /** The tables `CleanupExportedFile` works on exist, whenever that link is part of the chain. */
  predicate Ready(steps: seq<Step>, w: World)
  {
    CleanupExportedFile in steps ==> Prunable(w.snapshot)
  }

  /** The body of one link's `execute`, up to the point where it would consult `nextLink`. */
  function StepExec(s: Step, ctx: ExportContext, faults: Faults, w: World): (r: StepResult)
    requires s == CleanupExportedFile ==> Prunable(w.snapshot)
    ensures r.world.log == w.log + [Tag(s)]
    ensures r.world.dirs >= w.dirs - Removes(s)
    ensures Prunable(w.snapshot) ==> Prunable(r.world.snapshot)
  {
    var logged := w.(log := w.log + [Tag(s)]);
    match s
    case CreateTempLoc =>
      (match faults.mkdirs
       case Threw(message) => Answer(Failure(ExportFailed, message, Tag(s)), logged)
       case Refused => Forward(logged)
       case Done => Forward(logged.(dirs := w.dirs + {ctx.tmpLocation})))
    case CleanupExportedFile =>
      var pruned := logged.(snapshot := Pruned(w.snapshot, ctx.userIds));
      (match faults.journalDelete
       case Threw(message) => Answer(Failure(ExportFailed, message, Tag(s)), pruned)
       case Refused => Forward(pruned)
       case Done => Forward(pruned.(files := w.files - {ctx.destinationDbFilePath + "-journal"})))
    case Other(_, answer, _, removes) =>
      var removed := logged.(dirs := w.dirs - removes, files := w.files - removes);
      if answer.Some? then Answer(answer.value, removed) else Forward(removed)
  }

  /** CreateTempLoc: a throwing `mkdirs` answers EXPORT_FAILED with its message; otherwise the
      link forwards, and the temporary directory exists afterwards when `mkdirs` did its work, or
      the directories are as they were when it returned false. */
  lemma CreateTempLocStep(ctx: ExportContext, faults: Faults, w: World)
    ensures var r := StepExec(CreateTempLoc, ctx, faults, w);
      && (r.Answer? <==> faults.mkdirs.Threw?)
      && (r.Answer? ==> r.response == Failure(ExportFailed, faults.mkdirs.message, "CreateTempLoc"))
      && (faults.mkdirs.Done? ==> ctx.tmpLocation in r.world.dirs)
      && (faults.mkdirs.Refused? ==> r.world.dirs == w.dirs)
      && r.world.files == w.files && r.world.snapshot == w.snapshot
  {
  }

  /** CleanupExportedFile: the snapshot is pruned whatever happens to the journal file; a throwing
      removal answers EXPORT_FAILED with its message, otherwise the link forwards, and the journal
      file is gone when the removal did its work, or the files are as they were when it returned
      false. */
  lemma CleanupStep(ctx: ExportContext, faults: Faults, w: World)
    requires Prunable(w.snapshot)
    ensures var r := StepExec(CleanupExportedFile, ctx, faults, w);
      && r.world.snapshot == Pruned(w.snapshot, ctx.userIds)
      && (r.Answer? <==> faults.journalDelete.Threw?)
      && (r.Answer? ==> r.response == Failure(ExportFailed, faults.journalDelete.message, "CleanupExportedFile"))
      && (faults.journalDelete.Done? ==> ctx.destinationDbFilePath + "-journal" !in r.world.files)
      && (faults.journalDelete.Refused? ==> r.world.files == w.files)
      && r.world.dirs == w.dirs
  {
  }

  /** Log bookkeeping: the tags the given links log, in order. */
  function Tags(steps: seq<Step>): (r: seq<string>)
    ensures |r| == |steps|
  {
    if steps == [] then [] else [Tag(steps[0])] + Tags(steps[1..])
  }

  /** How a run of the links ended before the dangling-chain rule applies: some link answered,
      or every link forwarded; `ran` counts the links executed, the answering one included. */
  datatype Trace = Answered(response: Response<string>, world: World, ran: nat) | Exhausted(world: World, ran: nat)

  /** The same ending, with `n` more links counted as run before it. */
  function Shifted(t: Trace, n: nat): (r: Trace)
    ensures r.world == t.world && r.ran == t.ran + n
  {
    match t
    case Answered(response, world, ran) => Answered(response, world, ran + n)
    case Exhausted(world, ran) => Exhausted(world, ran + n)
  }

  /** Runs the links in order, stopping at the first one that answers. */
  function Drive(steps: seq<Step>, ctx: ExportContext, faults: Faults, w: World): (r: Trace)
    requires Ready(steps, w)
    ensures r.ran <= |steps| && r.world.log == w.log + Tags(steps[..r.ran])
    ensures r.Exhausted? ==> r.ran == |steps|
    ensures r.Answered? ==> r.ran > 0
    decreases |steps|
  {
    if steps == [] then Exhausted(w, 0)
    else
      match StepExec(steps[0], ctx, faults, w)
      case Answer(resp, w1) =>
        TagsHead(steps, 0);
        Answered(resp, w1, 1)
      case Forward(w1) =>
        var rest := Drive(steps[1..], ctx, faults, w1);
        TagsHead(steps, rest.ran);
        Shifted(rest, 1)
  }

  /** The tags of the first `k + 1` steps: the first step's, then those of the `k` after it. */
  lemma TagsHead(steps: seq<Step>, k: nat)
    requires k < |steps|
    ensures Tags(steps[..k + 1]) == [Tag(steps[0])] + Tags(steps[1..][..k])
  {
    assert steps[..k + 1][1..] == steps[1..][..k];
  }

  /** The removals of the first `k + 1` steps: the first step's, then those of the `k` after it. */
  lemma RemovalsHead(steps: seq<Step>, k: nat)
    requires k < |steps|
    ensures Removals(steps[..k + 1]) == Removes(steps[0]) + Removals(steps[1..][..k])
  {
    assert steps[..k + 1][1..] == steps[1..][..k];
  }

  /** The driver deletes nothing of its own: a directory that existed before the run and is gone
      after it was removed by one of the links that ran. */
  lemma {:induction false} DriveRemovesOnlyListed(steps: seq<Step>, ctx: ExportContext, faults: Faults, w: World)
    requires Ready(steps, w)
    ensures w.dirs - Removals(steps[..Drive(steps, ctx, faults, w).ran]) <= Drive(steps, ctx, faults, w).world.dirs
    decreases |steps|
  {
    if steps != [] {
      DriveFirst(steps, ctx, faults, w);
      match StepExec(steps[0], ctx, faults, w)
      case Answer(_, w1) =>
        RemovalsHead(steps, 0);
      case Forward(w1) =>
        DriveRemovesOnlyListed(steps[1..], ctx, faults, w1);
        RemovalsHead(steps, Drive(steps[1..], ctx, faults, w1).ran);
    }
  }

  /** The first link's own work decides how a run goes on: an answer ends it after one link, and a
      forward leaves the rest to the remaining links, started from the world it produced. */
  lemma DriveFirst(steps: seq<Step>, ctx: ExportContext, faults: Faults, w: World)
    requires steps != [] && Ready(steps, w)
    ensures var first := StepExec(steps[0], ctx, faults, w);
      && (first.Answer? ==>
            Drive(steps, ctx, faults, w).world == first.world && Drive(steps, ctx, faults, w).ran == 1)
      && (first.Forward? ==>
            && Ready(steps[1..], first.world)
            && Drive(steps, ctx, faults, w) == Shifted(Drive(steps[1..], ctx, faults, first.world), 1))
  {
  }

  /** The links of a prefix remove no more than the whole chain. */
  lemma {:induction false} RemovalsPrefix(steps: seq<Step>, k: nat)
    requires k <= |steps|
    ensures Removals(steps[..k]) <= Removals(steps)
    decreases k
  {
    if k > 0 {
      RemovalsHead(steps, k - 1);
      RemovalsPrefix(steps[1..], k - 1);
    }
  }

  /** The response and final world of executing the chain from its first link. */
  function Run(steps: seq<Step>, ctx: ExportContext, faults: Faults, w: World): (r: (Response<string>, World))
    requires steps != [] && Ready(steps, w)
    ensures r.1.dirs >= w.dirs - Removals(steps)
  {
    DriveRemovesOnlyListed(steps, ctx, faults, w);
    RemovalsPrefix(steps, Drive(steps, ctx, faults, w).ran);
    match Drive(steps, ctx, faults, w)
    case Answered(resp, w1, _) => (resp, w1)
    case Exhausted(w1, _) => (Dangling(steps[|steps| - 1]), w1)
  }

  // ---------------------------------------------------------------------------------------------
  // Properties of the chain

  /** Once a link answers, the links after it are never run: appending links to a chain that
      answers changes neither its response nor its effects. */
  lemma {:induction false} ShortCircuit(steps: seq<Step>, more: seq<Step>, ctx: ExportContext, faults: Faults, w: World)
    requires Ready(steps + more, w)
    requires Ready(steps, w)
    requires Drive(steps, ctx, faults, w).Answered?
    ensures Drive(steps + more, ctx, faults, w) == Drive(steps, ctx, faults, w)
    decreases |steps|
  {
    assert steps != [];
    assert (steps + more)[0] == steps[0];
    match StepExec(steps[0], ctx, faults, w)
    case Answer(_, _) =>
    case Forward(w1) =>
      assert (steps + more)[1..] == steps[1..] + more;
      assert Drive(steps[1..], ctx, faults, w1).Answered?;
      ShortCircuit(steps[1..], more, ctx, faults, w1);
  }

  /** When every link of a chain forwards, the chain extended by more links behaves as those links
      started from the world it left: `then` composes chains left to right. */
  lemma {:induction false} PassThrough(steps: seq<Step>, more: seq<Step>, ctx: ExportContext, faults: Faults, w: World)
    requires Ready(steps + more, w)
    requires Ready(steps, w)
    requires Drive(steps, ctx, faults, w).Exhausted?
    ensures Ready(more, Drive(steps, ctx, faults, w).world)
    ensures Drive(steps + more, ctx, faults, w) ==
            Shifted(Drive(more, ctx, faults, Drive(steps, ctx, faults, w).world), |steps|)
    decreases |steps|
  {
    if steps == [] {
      assert steps + more == more;
    } else {
      var w1 := StepExec(steps[0], ctx, faults, w).world;
      assert StepExec(steps[0], ctx, faults, w).Forward?;
      assert (steps + more)[0] == steps[0];
      assert (steps + more)[1..] == steps[1..] + more;
      assert Drive(steps, ctx, faults, w) == Shifted(Drive(steps[1..], ctx, faults, w1), 1);
      PassThrough(steps[1..], more, ctx, faults, w1);
      assert Drive(steps + more, ctx, faults, w) == Shifted(Drive(steps[1..] + more, ctx, faults, w1), 1);
      var rest := Drive(more, ctx, faults, Drive(steps[1..], ctx, faults, w1).world);
      assert Shifted(Shifted(rest, |steps| - 1), 1) == Shifted(rest, |steps|);
    }
  }


  /** A chain whose links all forward fails with the last link's dangling-chain failure, after
      running every link once, in order. */
  lemma DanglingChain(steps: seq<Step>, ctx: ExportContext, faults: Faults, w: World)
    requires steps != [] && Ready(steps, w)
    requires Drive(steps, ctx, faults, w).Exhausted?
    ensures Run(steps, ctx, faults, w).0 == Dangling(steps[|steps| - 1])
    ensures Run(steps, ctx, faults, w).0.code == ExportFailed
    ensures Run(steps, ctx, faults, w).1.log == w.log + Tags(steps)
  {
    assert steps[..|steps|] == steps;
  }

  /** No rollback: once CreateTempLoc has made the temporary directory, it is still there when the
      chain ends, however the later links end, unless one of the later links that ran deletes it. */
  lemma TempLocationKept(steps: seq<Step>, ctx: ExportContext, faults: Faults, w: World)
    requires steps != [] && steps[0] == CreateTempLoc && Ready(steps, w)
    requires faults.mkdirs.Done?
    ensures ctx.tmpLocation in Run(steps, ctx, faults, w).1.dirs ||
            ctx.tmpLocation in Removals(steps[1..][..Drive(steps, ctx, faults, w).ran - 1])
  {
    CreateTempLocStep(ctx, faults, w);
    DriveFirst(steps, ctx, faults, w);
    DriveRemovesOnlyListed(steps[1..], ctx, faults, StepExec(CreateTempLoc, ctx, faults, w).world);
  }

  /** A chain starting with a failing CreateTempLoc answers that failure and runs nothing else. */
  lemma TempLocationFailureStops(steps: seq<Step>, ctx: ExportContext, faults: Faults, w: World)
    requires steps != [] && steps[0] == CreateTempLoc && Ready(steps, w)
    requires faults.mkdirs.Threw?
    ensures Run(steps, ctx, faults, w).0 == Failure(ExportFailed, faults.mkdirs.message, "CreateTempLoc")
    ensures Run(steps, ctx, faults, w).1.log == w.log + ["CreateTempLoc"]
  {
    CreateTempLocStep(ctx, faults, w);
  }

  /** A link of a chain: the step it performs and the link it hands on to. */
  class Link {
    const step: Step
    var nextLink: Link?

    constructor(step: Step)
      ensures this.step == step && nextLink == null
    {
      this.step := step;
      nextLink := null;
    }

    /** `then(link)`: stores the link and returns it, so `a.then(b).then(c)` builds a, b, c. */
    method Then(link: Link) returns (r: Link)
      modifies this`nextLink
      ensures nextLink == link && r == link
    {
      nextLink := link;
      r := link;
    }

    /** `execute`: this link's work, then the next link's `execute`, or the dangling-chain failure.
        `links` names the chain from this link on. */
    method Execute(ghost links: seq<Link>, ctx: ExportContext, faults: Faults, w: World)
      returns (resp: Response<string>, w': World)
      requires IsChain(links) && links[0] == this
      requires Ready(StepsOf(links), w)
      ensures (resp, w') == Run(StepsOf(links), ctx, faults, w)
      decreases |links|
    {
      var steps := StepsOf(links);
      assert steps[0] == step;
      match StepExec(step, ctx, faults, w)
      case Answer(r, w1) =>
        resp, w' := r, w1;
      case Forward(w1) =>
        if nextLink != null {
          assert |links| > 1 && links[1] == nextLink;
          assert IsChain(links[1..]);
          assert StepsOf(links[1..]) == steps[1..];
          resp, w' := nextLink.Execute(links[1..], ctx, faults, w1);
        } else {
          assert |links| == 1;
          resp, w' := Dangling(step), w1;
        }
    }
  }

  /** `links` is a chain: each link's next link is the following one and the last has none. */
  ghost predicate IsChain(links: seq<Link>)
    reads links
  {
    && links != []
    && (forall i :: 0 <= i < |links| - 1 ==> links[i].nextLink == links[i + 1])
    && links[|links| - 1].nextLink == null
  }

  /** Chain bookkeeping: the steps the given links perform, in order. */
  function StepsOf(links: seq<Link>): (r: seq<Step>)
    ensures |r| == |links|
    ensures forall i :: 0 <= i < |links| ==> r[i] == links[i].step
  {
    if links == [] then [] else [links[0].step] + StepsOf(links[1..])
  }

  /** Builds the chain for `steps` with `then`, a fresh link per step, from the last link back. */
  method Assemble(steps: seq<Step>) returns (head: Link, ghost links: seq<Link>)
    requires steps != []
    ensures IsChain(links) && links[0] == head && StepsOf(links) == steps
    ensures forall j :: 0 <= j < |links| ==> fresh(links[j])
  {
    head := new Link(steps[|steps| - 1]);
    links := [head];
    var i := |steps| - 1;
    while i > 0
      invariant 0 <= i < |steps|
      invariant links != [] && links[0] == head
      invariant IsChain(links) && StepsOf(links) == steps[i..]
      invariant forall j :: 0 <= j < |links| ==> fresh(links[j])
    {
      i := i - 1;
      assert StepsOf(links) == steps[i + 1..];
      head, links := Prepend(steps[i], head, links);
      assert StepsOf(links) == [steps[i]] + steps[i + 1..] == steps[i..];
    }
  }

  /** `new Link(step).then(head)`: a fresh link in front of the chain headed by `head`. */
  method Prepend(step: Step, head: Link, ghost links: seq<Link>) returns (link: Link, ghost chain: seq<Link>)
    requires IsChain(links) && links[0] == head
    ensures fresh(link) && chain == [link] + links
    ensures IsChain(chain) && StepsOf(chain) == [step] + StepsOf(links)
  {
    link := new Link(step);
    assert link !in links;
    var next := link.Then(head);
    assert IsChain(links);
    ChainCons(link, links);
    chain := [link] + links;
    assert chain[1..] == links;
  }

  /** A link whose next link heads a chain extends that chain at the front. */
  lemma ChainCons(link: Link, links: seq<Link>)
    requires IsChain(links) && link.nextLink == links[0]
    ensures IsChain([link] + links)
  {
    var chain := [link] + links;
    forall i | 0 <= i < |chain| - 1
      ensures chain[i].nextLink == chain[i + 1]
    {
      if i > 0 {
        assert chain[i] == links[i - 1] && chain[i + 1] == links[i];
      }
    }
  }
}
