// An accepted completion as a journalled transaction: its effects on the repository,
// the artifacts, the tracker and the branch head, the live run, and the recovery of a
// journal that a crash left behind.
module Acceptance {
  import opened Basics
  import opened FileTree
  import opened Delivery
  import opened Integration
  import opened EventLog

  // ---------------------------------------------------------------- the stores

  datatype Blob = Blob(content: string, executable: bool)

  type GitTree = map<Path, Blob>

  /** A commit is known by its parent, tree and subject; equal values are one commit. */
  datatype Commit = Commit(parent: Option<Commit>, tree: GitTree, subject: string)

  /** `content` is everything presentation does not change: the body without its trailing
      derived-task sections, the title, type, dependencies, parent and metadata. */
  datatype Task = Task(state: string, links: seq<string>, content: string, sections: seq<seq<string>>)

  datatype JobStatus = Pending | Running | Submitted | Rejected | Accepted | Failed | Stale | Cancelled

  datatype Job = Job(taskId: string, transitionId: string, status: JobStatus, commit: Option<Commit>)

  /** Everything an effect can touch; `ignored` are the paths git would not add. */
  datatype Site = Site(repo: Tree, ignored: set<Path>, artifacts: map<Path, Image>,
                       tasks: map<string, Task>, head: Commit)

  datatype Effect =
    | File(file: FileEffect)
    | Artifact(source: Path, target: Path, before: Option<string>, beforeMode: Option<nat>,
               after: Option<string>, existed: bool, link: string, taskId: string)
    | CommitChanges(message: string, paths: seq<Path>)
    | CreateTask(id: string, task: Task)
    | LinkDerived(parent: string, children: seq<string>)
    | MoveTask(taskId: string, toState: string)

  datatype Candidate = Candidate(id: string, manifest: map<Path, Image>, changes: seq<Change>)

  datatype Context = Context(
    candidate: Candidate, hidden: set<Path>, artifactPaths: set<Path>,
    previous: Option<string>, base: Option<Commit>, intended: Option<GitTree>,
    jobId: Option<string>, hasMetadata: bool)

  datatype JournalStatus = Prepared | Committed | Abandoned

  datatype Journal = Journal(taskId: Option<string>, transitionId: Option<string>, status: JournalStatus,
                             effects: seq<Effect>, events: seq<Event>, context: Context)

  datatype World = World(site: Site, storage: map<string, map<Path, Image>>, log: Log,
                         journals: map<string, Journal>, jobs: map<string, Job>)

  // ---------------------------------------------------------------- effects

  /** Git looks at the owner's bit. */
  predicate OwnerExecutable(mode: nat) {
    mode / 64 % 2 == 1
  }

  /** `_git_tree_mode` looks at all three. */
  predicate Executable(mode: nat) {
    mode / 64 % 2 == 1 || mode / 8 % 2 == 1 || mode % 2 == 1
  }

  function BlobOf(image: Image): Blob {
    Blob(image.content, OwnerExecutable(image.mode))
  }

  /** The tree of a commit restricted to the given paths. */
  function CommitTree(tree: GitTree, paths: set<Path>, files: map<Path, Image>): GitTree {
    map p | p in tree.Keys + paths && (p in paths ==> p in files) :: if p in paths then BlobOf(files[p]) else tree[p]
  }

  function Committable(paths: seq<Path>, ignored: set<Path>): set<Path> {
    set p | p in paths && p !in ignored
  }

  /** `git add` takes a path that is in the work tree or tracked. */
  predicate Addable(files: map<Path, Image>, tree: GitTree, paths: set<Path>) {
    forall p :: p in paths ==> p in files || p in tree
  }

  /** A clean work tree: nothing untracked but what git ignores, and every tracked file as committed. */
  predicate Clean(files: map<Path, Image>, tree: GitTree, ignored: set<Path>) {
    forall p :: p in files.Keys + tree.Keys && p !in ignored ==> p in files && p in tree && BlobOf(files[p]) == tree[p]
  }

  /** `git add` and `git commit` of the given paths. Nothing committable is success; nothing to commit is
      success in a clean work tree only. */
  function CommitPaths(s: Site, message: string, paths: seq<Path>): Option<Site> {
    var committable := Committable(paths, s.ignored);
    var tree := CommitTree(s.head.tree, committable, s.repo.files);
    if committable == {} then Some(s)
    else if !Addable(s.repo.files, s.head.tree, committable) then None
    else if tree == s.head.tree then (if Clean(s.repo.files, tree, s.ignored) then Some(s) else None)
    else if message == "" then None
    else Some(s.(head := Commit(Some(s.head), tree, message)))
  }

  /** `_intended_commit_tree`: the tree the journal records for its commit, injected into a private index.
      Git injects a blob only at a path the index has, so an untracked promoted file leaves no tree. */
  function IntendedTree(tree: GitTree, sealed: map<Path, Image>, effects: seq<Effect>): Option<GitTree> {
    if effects == [] then Some(tree)
    else
      var before := IntendedTree(tree, sealed, effects[..|effects| - 1]);
      if before.None? then None
      else
        match effects[|effects| - 1]
        case File(DeleteFile(target, _)) => Some(before.value - {target})
        case File(PromoteFile(target, _, _, _, afterMode, _)) =>
          if target !in sealed || target !in before.value then None
          else
            var executable := afterMode.Some? && Executable(afterMode.value);
            Some(before.value[target := Blob(sealed[target].content, executable)])
        case _ => before
  }

  function WithLink(task: Task, link: string): Task {
    if link in task.links then task else task.(links := task.links + [link])
  }

  function CopyArtifact(s: Site, sealed: map<Path, Image>, e: Effect): Option<Site>
    requires e.Artifact?
  {
    if e.source !in sealed then None
    else
      var tasks := if e.link != "" && e.taskId in s.tasks
                   then s.tasks[e.taskId := WithLink(s.tasks[e.taskId], e.link)] else s.tasks;
      Some(s.(artifacts := s.artifacts[e.target := sealed[e.source]], tasks := tasks))
  }

  /** `_apply_effect`: a refused effect is `None`. */
  function Apply(s: Site, sealed: map<Path, Image>, e: Effect): Option<Site> {
    match e
    case File(file) =>
      var repo := ApplyFile(s.repo, sealed, file);
      if repo.None? then None else Some(s.(repo := repo.value))
    case Artifact(_, _, _, _, _, _, _, _) => CopyArtifact(s, sealed, e)
    case CommitChanges(message, paths) => CommitPaths(s, message, paths)
    case CreateTask(id, task) =>
      if id in s.tasks then None else Some(s.(tasks := s.tasks[id := task]))
    case LinkDerived(parent, children) =>
      if parent !in s.tasks then None
      else
        var task := s.tasks[parent];
        Some(s.(tasks := s.tasks[parent := task.(sections := task.sections + [children])]))
    case MoveTask(id, toState) =>
      if id !in s.tasks then None else Some(s.(tasks := s.tasks[id := s.tasks[id].(state := toState)]))
  }

  /** `_transaction_commit_exists`: the head is the commit with the intended parent, tree and subject. */
  predicate CommitExists(s: Site, context: Context, message: string) {
    && context.intended.Some?
    && (context.base.Some? ==> s.head != context.base.value && s.head.parent == context.base)
    && s.head.tree == context.intended.value
    && (message != "" ==> s.head.subject == message)
  }

  /** `_recovery_effect_applied`. */
  predicate Applied(s: Site, sealed: map<Path, Image>, context: Context, e: Effect) {
    match e
    case File(DeleteFile(target, _)) => !Exists(s.repo, target)
    case File(PromoteFile(target, _, _, _, _, _)) =>
      target in sealed && Get(s.repo.files, target) == Some(sealed[target])
    case Artifact(source, target, _, _, _, _, _, _) =>
      source in sealed && Get(s.artifacts, target) == Some(sealed[source])
    case CommitChanges(message, _) => CommitExists(s, context, message)
    case CreateTask(id, task) => Get(s.tasks, id) == Some(task)
    case LinkDerived(_, _) => false
    case MoveTask(id, toState) => id in s.tasks && s.tasks[id].state == toState
  }

  // ---------------------------------------------------------------- conflicts

  /** Hashing a path that has become a directory raises out of the recovery loop. */
  datatype Verdict = Clear | Conflict | Raises

  /** Whether a file may be replaced: it must be the recorded image from before. */
  predicate Replaceable(present: Image, before: Option<string>, beforeMode: Option<nat>) {
    && before == Some(present.content)
    && (beforeMode.Some? ==> present.mode == beforeMode.value)
  }

  function PromotionVerdict(repo: Tree, sealed: map<Path, Image>, file: FileEffect): Verdict
    requires file.PromoteFile?
  {
    if file.target !in sealed || (file.after.Some? && sealed[file.target].content != file.after.value) then Conflict
    else if Get(repo.files, file.target) == Some(sealed[file.target]) then Clear
    else if file.target in repo.files then
      (if Replaceable(repo.files[file.target], file.before, file.beforeMode) then Clear else Conflict)
    else if file.target in repo.dirs then (if EmptyDir(repo, file.target) then Clear else Conflict)
    else if file.before.Some? || file.existed then Conflict
    else Clear
  }

  function DeletionVerdict(repo: Tree, file: FileEffect): Verdict
    requires file.DeleteFile?
  {
    if file.before.None? then Clear
    else if file.target in repo.files then
      (if repo.files[file.target].content == file.before.value then Clear else Conflict)
    else if file.target in repo.dirs then Raises
    else Clear
  }

  function ArtifactVerdict(s: Site, sealed: map<Path, Image>, e: Effect): Verdict
    requires e.Artifact?
  {
    if e.source !in sealed || (e.after.Some? && sealed[e.source].content != e.after.value) then Conflict
    else if Get(s.artifacts, e.target) == Some(sealed[e.source]) then Clear
    else if e.target in s.artifacts then
      (if Replaceable(s.artifacts[e.target], e.before, e.beforeMode) then Clear else Conflict)
    else if e.before.Some? || e.existed then Conflict
    else Clear
  }

  function EffectVerdict(s: Site, sealed: map<Path, Image>, context: Context, e: Effect): Verdict {
    match e
    case File(file) =>
      if file.DeleteFile? then DeletionVerdict(s.repo, file) else PromotionVerdict(s.repo, sealed, file)
    case Artifact(_, _, _, _, _, _, _, _) => ArtifactVerdict(s, sealed, e)
    case CommitChanges(message, _) =>
      if CommitExists(s, context, message) then Clear
      else if context.base.Some? && s.head != context.base.value then Conflict
      else Clear
    case CreateTask(id, task) => if id in s.tasks && s.tasks[id] != task then Conflict else Clear
    case LinkDerived(_, _) => Clear
    case MoveTask(id, toState) =>
      if context.previous.Some? &&
         (id !in s.tasks || (s.tasks[id].state != context.previous.value && s.tasks[id].state != toState)) then Conflict
      else Clear
  }

  /** `_recovery_has_conflict`: the verdict of the first effect that is not clear. */
  function FirstVerdict(s: Site, sealed: map<Path, Image>, context: Context, effects: seq<Effect>): (v: Verdict)
    ensures v == Clear <==> forall e :: e in effects ==> EffectVerdict(s, sealed, context, e) == Clear
  {
    if effects == [] then Clear
    else
      var first := EffectVerdict(s, sealed, context, effects[0]);
      if first != Clear then first else FirstVerdict(s, sealed, context, effects[1..])
  }

  // ---------------------------------------------------------------- running effects

  /** Live application, effect after effect. */
  function RunLive(s: Site, sealed: map<Path, Image>, effects: seq<Effect>): Option<Site> {
    if effects == [] then Some(s)
    else
      var before := RunLive(s, sealed, effects[..|effects| - 1]);
      if before.None? then None else Apply(before.value, sealed, effects[|effects| - 1])
  }

  /** One effect of a recovery: skipped when already applied, otherwise applied. */
  function Replay(s: Site, sealed: map<Path, Image>, context: Context, e: Effect): Option<Site> {
    if Applied(s, sealed, context, e) then Some(s) else Apply(s, sealed, e)
  }

  /** Recovery stops at the first refused effect; what was applied stays. */
  function RunReplay(s: Site, sealed: map<Path, Image>, context: Context, effects: seq<Effect>): (Site, bool) {
    if effects == [] then (s, true)
    else
      var (before, ok) := RunReplay(s, sealed, context, effects[..|effects| - 1]);
      if !ok then (before, false)
      else
        var after := Replay(before, sealed, context, effects[|effects| - 1]);
        if after.None? then (before, false) else (after.value, true)
  }

  // ---------------------------------------------------------------- settling

  /** `_expected_to_state`: the state of the first move of the journal's own task. */
  function ExpectedState(taskId: string, effects: seq<Effect>): string {
    if effects == [] then ""
    else if effects[0].MoveTask? && effects[0].taskId == taskId then effects[0].toState
    else ExpectedState(taskId, effects[1..])
  }

  predicate Integrated(files: map<Path, Image>, sealed: map<Path, Image>, context: Context) {
    && SameSurface(files, sealed, context.hidden, context.artifactPaths)
    && forall c :: c in context.candidate.changes ==> ChangeError(c, files, context.artifactPaths).None?
  }

  /** `_validate_final_state`. */
  predicate FinalValid(s: Site, sealed: map<Path, Image>, taskId: string, toState: string, context: Context) {
    && taskId in s.tasks && s.tasks[taskId].state == toState
    && Integrated(s.repo.files, sealed, context)
  }

  /** The first commit effect of a journal, if it has one. */
  function CommitMessage(effects: seq<Effect>): (message: Option<string>)
    ensures message.None? <==> forall e :: e in effects ==> !e.CommitChanges?
    ensures message.Some? ==> exists e :: e in effects && e.CommitChanges? && e.message == message.value
  {
    if effects == [] then None
    else if effects[0].CommitChanges? then
      assert effects[0] in effects;
      Some(effects[0].message)
    else CommitMessage(effects[1..])
  }

  /** `_settle_recovered_acceptance`: accept the job from the evidence saved in its journal. */
  function Settle(w: World, j: Journal): World {
    var context := j.context;
    if context.jobId.None? || !context.hasMetadata || context.jobId.value !in w.jobs then w
    else
      var job := w.jobs[context.jobId.value];
      var message := CommitMessage(j.effects);
      if job.status == Accepted || j.taskId != Some(job.taskId) || j.transitionId != Some(job.transitionId) then w
      else if message.Some? && !CommitExists(w.site, context, message.value) then w
      else
        var commit := if message.Some? then Some(w.site.head)
                      else if context.base.Some? then context.base else job.commit;
        w.(jobs := w.jobs[context.jobId.value := job.(status := Accepted, commit := commit)])
  }

  /** Records the loop skips: nothing to do, no task or transition, no move of the own task, or
      a candidate whose sealed storage no longer matches its manifest. */
  predicate Recoverable(w: World, j: Journal) {
    && j.effects != [] && j.taskId.Some? && j.transitionId.Some?
    && ExpectedState(j.taskId.value, j.effects) != ""
    && Get(w.storage, j.context.candidate.id) == Some(j.context.candidate.manifest)
  }

  /** A committed journal is only checked, never replayed. */
  function RecoverCommitted(w: World, j: Journal): World
    requires j.taskId.Some?
  {
    var sealed := j.context.candidate.manifest;
    if exists e :: e in j.effects && !e.LinkDerived? && !Applied(w.site, sealed, j.context, e) then w
    else if !FinalValid(w.site, sealed, j.taskId.value, ExpectedState(j.taskId.value, j.effects), j.context) then w
    else Settle(w, j)
  }

  /** Where a pass over one journal is cut by a crash. */
  datatype Cut = AfterEffects(effects: nat) | AfterRecords(records: nat) | AfterCommit | NoCut

  function UpTo<T>(s: seq<T>, n: nat): (r: seq<T>)
    ensures |r| <= |s| && r == s[..|r|]
  {
    if n < |s| then s[..n] else s
  }

  /** A journal that is not committed is rolled forward: effects, final check, events, journal, job. */
  function RollForward(w: World, id: string, cut: Cut): World
    requires id in w.journals && w.journals[id].taskId.Some?
  {
    var j := w.journals[id];
    var sealed := j.context.candidate.manifest;
    if cut.AfterEffects? then
      w.(site := RunReplay(w.site, sealed, j.context, UpTo(j.effects, cut.effects)).0)
    else
      var (site, ok) := RunReplay(w.site, sealed, j.context, j.effects);
      var w1 := w.(site := site);
      if !ok || !FinalValid(site, sealed, j.taskId.value, ExpectedState(j.taskId.value, j.effects), j.context) then w1
      else if cut.AfterRecords? then w1.(log := AppendCut(w.log, j.events, cut.records))
      else
        var w2 := w1.(log := AppendMany(w.log, j.events), journals := w.journals[id := j.(status := Committed)]);
        if cut.AfterCommit? then w2 else Settle(w2, j)
  }

  /** One iteration of the recovery loop, cut short by a crash or not; the flag is an escaped exception. */
  function RecoverRecord(w: World, id: string, cut: Cut): (World, bool)
    requires id in w.journals
    ensures RecoverRecord(w, id, cut).0.journals.Keys == w.journals.Keys
  {
    var j := w.journals[id];
    if !Recoverable(w, j) then (w, false)
    else
      var verdict := FirstVerdict(w.site, j.context.candidate.manifest, j.context, j.effects);
      if verdict != Clear then (w, verdict == Raises)
      else if j.status == Committed then (if cut == NoCut then RecoverCommitted(w, j) else w, false)
      else (RollForward(w, id, cut), false)
  }

  /** The recovery loop over the journals in listing order. */
  function RecoverAll(w: World, listing: seq<string>): (World, bool)
    requires forall id :: id in listing ==> id in w.journals
    ensures RecoverAll(w, listing).0.journals.Keys == w.journals.Keys
  {
    if listing == [] then (w, false)
    else
      var (before, raised) := RecoverAll(w, listing[..|listing| - 1]);
      if raised then (before, true) else RecoverRecord(before, listing[|listing| - 1], NoCut)
  }

  // ---------------------------------------------------------------- the live transaction

  /** The uninterrupted (or crashed) application of a freshly prepared journal. A refused effect or
      a failed final check abandons the journal and compensates, which is not part of this model. */
  function LiveRun(w: World, id: string, cut: Cut): Option<World>
    requires id in w.journals && w.journals[id].taskId.Some?
  {
    var j := w.journals[id];
    var sealed := j.context.candidate.manifest;
    if cut.AfterEffects? then
      var site := RunLive(w.site, sealed, UpTo(j.effects, cut.effects));
      if site.None? then None else Some(w.(site := site.value))
    else
      var site := RunLive(w.site, sealed, j.effects);
      if site.None? then None
      else if !FinalValid(site.value, sealed, j.taskId.value, ExpectedState(j.taskId.value, j.effects), j.context)
      then None
      else
        var w1 := w.(site := site.value);
        if cut.AfterRecords? then Some(w1.(log := AppendCut(w.log, j.events, cut.records)))
        else
          var w2 := w1.(log := AppendMany(w.log, j.events), journals := w.journals[id := j.(status := Committed)]);
          if cut.AfterCommit? then Some(w2) else Some(AcceptLive(w2, j))
  }

  /** The last write of a submission: the job is accepted at the current head. */
  function AcceptLive(w: World, j: Journal): World {
    if j.context.jobId.Some? && j.context.jobId.value in w.jobs then
      var job := w.jobs[j.context.jobId.value];
      w.(jobs := w.jobs[j.context.jobId.value := job.(status := Accepted, commit := Some(w.site.head))])
    else w
  }

  // ---------------------------------------------------------------- reading the passes off

  /** What a pass over a clear, unfinished journal does when all its effects go through. */
  lemma RollsForward(w: World, id: string, cut: Cut, site: Site)
    requires id in w.journals && Recoverable(w, w.journals[id]) && w.journals[id].status != Committed
    requires var j := w.journals[id];
             var sealed := j.context.candidate.manifest;
             && FirstVerdict(w.site, sealed, j.context, j.effects) == Clear
             && RunReplay(w.site, sealed, j.context, j.effects) == (site, true)
             && FinalValid(site, sealed, j.taskId.value, ExpectedState(j.taskId.value, j.effects), j.context)
    ensures var j := w.journals[id];
            var done := w.(site := site, log := AppendMany(w.log, j.events),
                journals := w.journals[id := j.(status := Committed)]);
            && (cut.AfterRecords? ==>
               RecoverRecord(w, id, cut).0 == w.(site := site, log := AppendCut(w.log, j.events, cut.records)))
            && (cut.AfterCommit? ==> RecoverRecord(w, id, cut).0 == done)
            && (cut.NoCut? ==> RecoverRecord(w, id, cut).0 == Settle(done, j))
  {
  }

  /** And what the live run does. */
  lemma RunsLive(w: World, id: string, cut: Cut, site: Site)
    requires id in w.journals && w.journals[id].taskId.Some?
    requires LiveRun(w, id, NoCut).Some?
    requires RunLive(w.site, w.journals[id].context.candidate.manifest, w.journals[id].effects) == Some(site)
    ensures var j := w.journals[id];
            var done := w.(site := site, log := AppendMany(w.log, j.events),
                journals := w.journals[id := j.(status := Committed)]);
            && FinalValid(site, j.context.candidate.manifest, j.taskId.value,
               ExpectedState(j.taskId.value, j.effects), j.context)
            && (cut.AfterRecords? ==>
               LiveRun(w, id, cut) == Some(w.(site := site, log := AppendCut(w.log, j.events, cut.records))))
            && (cut.AfterCommit? ==> LiveRun(w, id, cut) == Some(done))
            && (cut.NoCut? ==> LiveRun(w, id, cut) == Some(AcceptLive(done, j)))
  {
  }
}
