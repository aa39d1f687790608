// Whole histories: recoveries of any journals in any order, each possibly cut by a crash, with other
// actors changing the repository, the artifacts, the tasks and the branch in between.
module RecoveryRuns {
  import opened Basics
  import opened FileTree
  import opened Delivery
  import opened EventLog
  import opened Acceptance
  import opened RecoverySafety

  /** `Outside` is whatever another actor left. */
  datatype Turn = Recover(id: string, cut: Cut) | Outside(site: Site)

  function Take(w: World, t: Turn): World {
    match t
    case Recover(id, cut) => if id in w.journals then RecoverRecord(w, id, cut).0 else w
    case Outside(site) => w.(site := site)
  }

  function History(w: World, turns: seq<Turn>): World {
    if turns == [] then w else Take(History(w, turns[..|turns| - 1]), turns[|turns| - 1])
  }

  lemma {:induction false} HistoryKeepsJournals(w: World, turns: seq<Turn>)
    ensures History(w, turns).journals.Keys == w.journals.Keys
    ensures forall id :: id in w.journals ==>
              History(w, turns).journals[id] == w.journals[id].(status := History(w, turns).journals[id].status)
  {
    if turns != [] {
      var before, t := History(w, turns[..|turns| - 1]), turns[|turns| - 1];
      HistoryKeepsJournals(w, turns[..|turns| - 1]);
      if t.Recover? && t.id in before.journals {
        RecordKeepsJournals(before, t.id, t.cut);
      }
    }
  }

  // ---------------------------------------------------------------- the branch

  /** How many commits lead to this one. */
  function Depth(c: Commit): nat {
    if c.parent.None? then 1 else 1 + Depth(c.parent.value)
  }

  /** Other actors add to the branch, they do not take it back. */
  predicate Forward(w: World, turns: seq<Turn>) {
    turns != [] ==>
      && Forward(w, turns[..|turns| - 1])
      && var before, t := History(w, turns[..|turns| - 1]), turns[|turns| - 1];
         t.Outside? ==> Depth(t.site.head) >= Depth(before.site.head)
  }

  /** How often recovering this journal moved the branch. */
  function Moves(w: World, turns: seq<Turn>, id: string): nat {
    if turns == [] then 0
    else
      var before, t := History(w, turns[..|turns| - 1]), turns[|turns| - 1];
      Moves(w, turns[..|turns| - 1], id)
      + if t.Recover? && t.id == id && Take(before, t).site.head != before.site.head then 1 else 0
  }

  lemma {:induction false} ReplayGoesForward(s: Site, sealed: map<Path, Image>, context: Context, effects: seq<Effect>)
    ensures Depth(RunReplay(s, sealed, context, effects).0.head) >= Depth(s.head)
  {
    if effects != [] {
      ReplayGoesForward(s, sealed, context, effects[..|effects| - 1]);
    }
  }

  lemma RecordGoesForward(w: World, id: string, cut: Cut)
    requires id in w.journals
    ensures Depth(RecoverRecord(w, id, cut).0.site.head) >= Depth(w.site.head)
  {
    var j := w.journals[id];
    ReplayGoesForward(w.site, j.context.candidate.manifest, j.context,
                      if cut.AfterEffects? then UpTo(j.effects, cut.effects) else j.effects);
  }

  lemma {:induction false} MovedMeansPast(w: World, turns: seq<Turn>, id: string)
    requires Forward(w, turns)
    requires id in w.journals && OneCommit(w.journals[id].effects) && w.journals[id].context.base.Some?
    ensures Moves(w, turns, id) <= 1
    ensures Moves(w, turns, id) == 1 ==> Depth(History(w, turns).site.head) > Depth(w.journals[id].context.base.value)
  {
    if turns != [] {
      var init, t := turns[..|turns| - 1], turns[|turns| - 1];
      var before := History(w, init);
      MovedMeansPast(w, init, id);
      HistoryKeepsJournals(w, init);
      if t.Recover? && t.id in before.journals {
        RecordGoesForward(before, t.id, t.cut);
        if t.id == id {
          RecordAdvancesHeadOnce(before, id, t.cut);
        }
      }
    }
  }

  /** Whatever else happens, as long as nobody takes the branch back, one journal adds at most one commit
      over its whole history of recoveries. */
  lemma OneCommitPerJournalInAnyHistory(w: World, turns: seq<Turn>, id: string)
    requires Forward(w, turns)
    requires id in w.journals && OneCommit(w.journals[id].effects) && w.journals[id].context.base.Some?
    ensures Moves(w, turns, id) <= 1
  {
    MovedMeansPast(w, turns, id);
  }

  // ---------------------------------------------------------------- files

  predicate OnlyRecoveries(turns: seq<Turn>) {
    forall t :: t in turns ==> t.Recover?
  }

  /** A file that no journal recorded as the image it replaces, and an absent file that no journal was to
      create, outlive any number of recoveries of any journals. */
  lemma {:induction false} UnrecordedFilesSurvive(w: World, turns: seq<Turn>, p: Path)
    requires OnlyRecoveries(turns)
    requires forall id :: id in w.journals ==> DeletionsRecorded(w.journals[id].effects)
    requires forall id :: id in w.journals ==> !ExpectedBy(w.journals[id].effects, w.site.repo.files, p)
    ensures Get(History(w, turns).site.repo.files, p) == Get(w.site.repo.files, p)
  {
    if turns != [] {
      var init, t := turns[..|turns| - 1], turns[|turns| - 1];
      assert forall x :: x in init ==> x in turns;
      UnrecordedFilesSurvive(w, init, p);
      var before := History(w, init);
      HistoryKeepsJournals(w, init);
      assert t in turns;
      if t.id in before.journals {
        RecordChangesOnlyRecorded(before, t.id, t.cut, p);
        assert before.journals[t.id].effects == w.journals[t.id].effects;
        SameFileSameExpectation(w.journals[t.id].effects, before.site.repo.files, w.site.repo.files, p);
      }
    }
  }

  /** The same for artifacts. */
  lemma {:induction false} UnrecordedArtifactsSurvive(w: World, turns: seq<Turn>, p: Path)
    requires OnlyRecoveries(turns)
    requires forall id :: id in w.journals ==> !ShelvedBy(w.journals[id].effects, w.site.artifacts, p)
    ensures Get(History(w, turns).site.artifacts, p) == Get(w.site.artifacts, p)
  {
    if turns != [] {
      var init, t := turns[..|turns| - 1], turns[|turns| - 1];
      assert forall x :: x in init ==> x in turns;
      UnrecordedArtifactsSurvive(w, init, p);
      var before := History(w, init);
      HistoryKeepsJournals(w, init);
      assert t in turns;
      if t.id in before.journals {
        RecordChangesOnlyRecordedArtifacts(before, t.id, t.cut, p);
        assert before.journals[t.id].effects == w.journals[t.id].effects;
        SameArtifactSameExpectation(w.journals[t.id].effects, before.site.artifacts, w.site.artifacts, p);
      }
    }
  }

  lemma SameArtifactSameExpectation(effects: seq<Effect>, artifacts: map<Path, Image>, others: map<Path, Image>,
                                    p: Path)
    requires Get(artifacts, p) == Get(others, p)
    ensures ShelvedBy(effects, artifacts, p) <==> ShelvedBy(effects, others, p)
  {
    assert p in artifacts <==> p in others;
  }

  /** No history of recoveries loses a task, its content or a link of it. */
  lemma {:induction false} TasksSurvive(w: World, turns: seq<Turn>, taskId: string)
    requires OnlyRecoveries(turns)
    ensures TaskStays(w.site.tasks, History(w, turns).site.tasks, taskId)
  {
    if turns != [] {
      var init, t := turns[..|turns| - 1], turns[|turns| - 1];
      assert forall x :: x in init ==> x in turns;
      assert t in turns;
      TasksSurvive(w, init, taskId);
      if t.id in History(w, init).journals {
        RecordKeepsTasks(History(w, init), t.id, t.cut, taskId);
      }
    }
  }

  lemma SameFileSameExpectation(effects: seq<Effect>, files: map<Path, Image>, others: map<Path, Image>, p: Path)
    requires Get(files, p) == Get(others, p)
    ensures ExpectedBy(effects, files, p) <==> ExpectedBy(effects, others, p)
  {
    assert p in files <==> p in others;
  }

  // ---------------------------------------------------------------- jobs

  /** At this turn recovery accepted the job, on proof. */
  ghost predicate AcceptedHere(w: World, turns: seq<Turn>, k: nat, jobId: string)
    requires k < |turns|
  {
    && turns[k].Recover? && turns[k].id in w.journals
    && var after := History(w, turns[..k + 1]);
       && turns[k].id in after.journals && after.journals[turns[k].id].status == Committed
       && after.journals[turns[k].id].context.jobId == Some(jobId)
       && Proven(after, after.journals[turns[k].id])
  }

  lemma TurnKeepsJobs(w: World, t: Turn)
    ensures Take(w, t).jobs.Keys == w.jobs.Keys
  {
    if t.Recover? && t.id in w.journals {
      RecordKeepsJobs(w, t.id, t.cut);
    }
  }

  lemma RecordKeepsJobs(w: World, id: string, cut: Cut)
    requires id in w.journals
    ensures RecoverRecord(w, id, cut).0.jobs.Keys == w.jobs.Keys
  {
    SettleKeepsJobs(w, w.journals[id]);
  }

  lemma SettleKeepsJobs(w: World, j: Journal)
    ensures Settle(w, j).jobs.Keys == w.jobs.Keys
  {
  }

  lemma AcceptedNow(w: World, turns: seq<Turn>, n: nat, jobId: string)
    requires n < |turns|
    requires jobId in History(w, turns[..n]).jobs && History(w, turns[..n]).jobs[jobId].status != Accepted
    requires jobId in Take(History(w, turns[..n]), turns[n]).jobs
    requires Take(History(w, turns[..n]), turns[n]).jobs[jobId].status == Accepted
    ensures AcceptedHere(w, turns, n, jobId)
  {
    var before := History(w, turns[..n]);
    HistoryKeepsJournals(w, turns[..n]);
    assert turns[..n + 1][..n] == turns[..n];
    assert turns[n].Recover? && turns[n].id in before.journals;
    AcceptedOnlyWhenProven(before, turns[n].id, turns[n].cut, jobId);
  }

  /** A job that is accepted at the end of a history, and was not at its start, was accepted at some turn by
      the recovery of its own journal, on a committed journal and proof of task, surface and commit. */
  lemma {:induction false} AcceptedJobsWereProven(w: World, turns: seq<Turn>, jobId: string)
    requires jobId in w.jobs && w.jobs[jobId].status != Accepted
    ensures jobId in History(w, turns).jobs
    ensures History(w, turns).jobs[jobId].status == Accepted ==>
              exists k :: 0 <= k < |turns| && AcceptedHere(w, turns, k, jobId)
  {
    if turns != [] {
      var n := |turns| - 1;
      AcceptedJobsWereProven(w, turns[..n], jobId);
      TurnKeepsJobs(History(w, turns[..n]), turns[n]);
      if History(w, turns[..n]).jobs[jobId].status == Accepted {
        var k :| 0 <= k < n && AcceptedHere(w, turns[..n], k, jobId);
        assert turns[..n][..k + 1] == turns[..k + 1];
        assert AcceptedHere(w, turns, k, jobId);
      } else if History(w, turns).jobs[jobId].status == Accepted {
        AcceptedNow(w, turns, n, jobId);
      }
    }
  }
}
