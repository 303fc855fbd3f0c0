/** Creating a run is three statements; other threads may execute theirs in between. */
module RunCreation {
  import opened Protocol
  import opened Storage

  /** The next statement of one `storage_run_create` call; `found` is the id the second one selected. */
  datatype Stage =
    | InsertingRepo
    | FindingRepo
    | InsertingRun(found: int)
    | Created(id: int32)
    | Failed
  {
    predicate Ended() {
      Created? || Failed?
    }
  }

  /** A stage with a statement to execute. */
  type NextStage = stage: Stage | !stage.Ended() witness InsertingRepo

  /** The foreign key lets the insertion pass; ids travel as `int`. */
  predicate Inserts(t: Tables, stage: Stage, ok: bool) {
    stage.InsertingRun? && ok && RepoExists(t.repos, ToInt32(stage.found))
  }

  /** One statement, and what the caller makes of its result.  `ok` is false when SQLite refuses it. */
  function CreateStep(t: Tables, url: string, rev: string, stage: NextStage, ok: bool): (Tables, Stage)
  {
    if !ok then (t, Failed)
    else match stage
      case InsertingRepo => (InsertRepo(t, url), FindingRepo)
      case FindingRepo =>
        var found := FindRepo(t, url);
        (t, if ToInt32(found) < 0 then Failed else InsertingRun(found))
      case InsertingRun(found) =>
        if !Inserts(t, stage, ok) then (t, Failed)
        else
          var id := ToInt32(NextRunId(t));
          (InsertRun(t, ToInt32(found), rev), if id < 0 then Failed else Created(id))
  }

  /** What is known at each stage, whatever other threads have added meanwhile. */
  predicate StageOk(url: string, stage: Stage, t: Tables) {
    match stage
    case FindingRepo => HasUrl(t, url)
    case InsertingRun(found) => RepoIs(t.repos, found, url)
    case _ => true
  }

  /** A database that grew from an empty one by these statements. */
  ghost predicate Grown(t: Tables) {
    && ReposNumbered(t.repos)
    && (forall i :: 0 <= i < |t.runs| ==> t.runs[i].id == i + 1 && RepoExists(t.repos, t.runs[i].repoId))
  }

  /** Rows are only added; of a run only the status, the exit code and the output change. */
  predicate Extends(t: Tables, t': Tables) {
    && t.repos <= t'.repos && |t.runs| <= |t'.runs|
    && forall i :: 0 <= i < |t.runs| ==>
         && t'.runs[i].id == t.runs[i].id && t'.runs[i].repoId == t.runs[i].repoId && t'.runs[i].rev == t.runs[i].rev
         && (t.runs[i].status == STATUS_FINISHED ==> t'.runs[i].status == STATUS_FINISHED)
  }

  /** The row inserted is a new last one, for the repository whose id was found, read as an `int`. */
  predicate InsertedBy(t: Tables, t': Tables, rev: string, found: int) {
    && t'.repos == t.repos
    && t'.runs == t.runs + [RunRow(|t.runs| + 1, STATUS_CREATED, -1, [], ToInt32(found), rev)]
  }

  lemma NextIsLength(t: Tables)
    requires Grown(t)
    ensures NextRunId(t) == |t.runs| + 1
  {
  }

  lemma StageStaysOk(url: string, stage: Stage, t: Tables, t': Tables)
    requires StageOk(url, stage, t) && Extends(t, t')
    ensures StageOk(url, stage, t')
  {
    if stage.FindingRepo? {
      var k :| 0 <= k < |t.repos| && t.repos[k].url == url;
      assert t'.repos[k].url == url;
    }
  }

  /** Whatever the state of the database, a statement only adds rows. */
  lemma CreateStepExtends(t: Tables, url: string, rev: string, stage: NextStage, ok: bool)
    ensures Extends(t, CreateStep(t, url, rev, stage, ok).0)
  {
    hide ToInt32, RepoExists, HasUrl, FindRepo;
  }

  lemma NewRepoKeeps(t: Tables, url: string)
    requires Grown(t)
    ensures Grown(InsertRepo(t, url)) && HasUrl(InsertRepo(t, url), url)
  {
    var t' := InsertRepo(t, url);
    NewRepoNumbered(t, url);
    hide HasUrl;
    forall i | 0 <= i < |t.runs|
      ensures RepoExists(t'.repos, t.runs[i].repoId)
    {
      if t'.repos != t.repos {
        RepoExistsStill(t.repos, [RepoRow(NextRepoId(t), url)], t.runs[i].repoId);
      }
    }
  }

  /**
   Each statement of a creation extends a grown database into a grown one and keeps what the
   call knows; the row of the run is inserted by the last one, and nowhere else.
   */
  lemma CreateStepKeeps(t: Tables, url: string, rev: string, stage: NextStage, ok: bool)
    requires Grown(t) && StageOk(url, stage, t)
    ensures
      var (t', stage') := CreateStep(t, url, rev, stage, ok);
      && Grown(t') && Extends(t, t') && StageOk(url, stage', t')
      && (if Inserts(t, stage, ok) then InsertedBy(t, t', rev, stage.found) else t'.runs == t.runs)
      && (stage'.Created? <==> Inserts(t, stage, ok) && ToInt32(|t'.runs|) >= 0)
      && (stage'.Created? ==> stage'.id == ToInt32(|t'.runs|))
  {
    hide ToInt32, RepoExists, ReposNumbered, RepoIs, HasUrl;
    CreateStepExtends(t, url, rev, stage, ok);
    if ok {
      match stage
      case InsertingRepo => NewRepoKeeps(t, url);
      case FindingRepo => FoundRepo(t, url);
      case InsertingRun(found) =>
    }
  }

  lemma FinishExtends(t: Tables, id: int, output: ProcessOutput)
    ensures Extends(t, FinishRun(t, id, output))
    ensures Grown(t) ==> Grown(FinishRun(t, id, output))
  {
    hide ReposNumbered, RepoExists;
  }

  lemma ExtendsTransitive(t: Tables, t': Tables, t'': Tables)
    requires Extends(t, t') && Extends(t', t'')
    ensures Extends(t, t'')
  {
  }

  /** The three statements of one call with nothing in between. */
  function CreateAlone(t: Tables, url: string, rev: string, insertsRepo: bool, findsRepo: bool,
                       insertsRun: bool): (Tables, Stage) {
    var (t1, stage1) := CreateStep(t, url, rev, InsertingRepo, insertsRepo);
    if stage1.Ended() then (t1, stage1)
    else
      var (t2, stage2) := CreateStep(t1, url, rev, stage1, findsRepo);
      if stage2.Ended() then (t2, stage2) else CreateStep(t2, url, rev, stage2, insertsRun)
  }

  // ---- when a creation succeeds ----

  /** The url has a row whose id fits an `int`, or would get one. */
  predicate UrlFits(t: Tables, url: string) {
    || (exists i :: 0 <= i < |t.repos| && i < INT_MAX && t.repos[i].url == url)
    || (|t.repos| < INT_MAX && !HasUrl(t, url))
  }

  /** The tables with the repository there, and one more run under it. */
  predicate CreatedIn(t: Tables, t': Tables, url: string, rev: string) {
    && (if HasUrl(t, url) then t'.repos == t.repos else t'.repos == t.repos + [RepoRow(|t.repos| + 1, url)])
    && |t'.runs| == |t.runs| + 1 && t'.runs[..|t.runs|] == t.runs
    && var row := t'.runs[|t.runs|];
    && row == RunRow(|t.runs| + 1, STATUS_CREATED, -1, [], row.repoId, rev) && RepoIs(t'.repos, row.repoId, url)
  }

  /** Each statement that SQLite executes leads on to the next one, and the last one to the row's id. */
  lemma CreateStepSucceedsIff(t: Tables, url: string, rev: string, stage: NextStage, ok: bool)
    requires Grown(t) && StageOk(url, stage, t) && |t.repos| < WRAP && |t.runs| + 1 < WRAP
    ensures
      var stage' := CreateStep(t, url, rev, stage, ok).1;
      match stage
      case InsertingRepo => stage' == if ok then FindingRepo else Failed
      case FindingRepo =>
        && (stage'.InsertingRun? <==> ok && UrlFits(t, url)) && (stage'.InsertingRun? || stage'.Failed?)
        && (stage'.InsertingRun? ==> RepoIs(t.repos, stage'.found, url) && stage'.found <= INT_MAX)
      case InsertingRun(found) =>
        stage' == if ok && found <= INT_MAX && |t.runs| < INT_MAX then Created(|t.runs| + 1) else Failed
  {
    match stage
    case InsertingRepo =>
    case FindingRepo =>
      FoundRepo(t, url);
      hide FindRepo;
      FitsAsFound(t, url, FindRepo(t, url));
      ReadPositiveIff(FindRepo(t, url));
    case InsertingRun(found) =>
      hide ReposNumbered;
      FoundExistsIff(t.repos, found, url);
      hide RepoExists, HasUrl;
      ReadPositiveIff(|t.runs| + 1);
  }

  lemma ReadPositiveIff(id: int)
    requires 1 <= id < WRAP
    ensures if id <= INT_MAX then ToInt32(id) == id else ToInt32(id) < 0
  {
  }

  lemma FitsAsFound(t: Tables, url: string, found: int)
    requires ReposNumbered(t.repos) && HasUrl(t, url) && RepoIs(t.repos, found, url)
    ensures UrlFits(t, url) <==> found <= INT_MAX
  {
    assert t.repos[found - 1].url == url;
  }

  lemma FoundExistsIff(repos: seq<RepoRow>, found: int, url: string)
    requires ReposNumbered(repos) && |repos| <= WRAP && RepoIs(repos, found, url)
    ensures RepoExists(repos, ToInt32(found)) <==> found <= INT_MAX
  {
    assert repos[found - 1].id == found;
  }

  lemma InsertedUrlFits(t: Tables, url: string)
    requires ReposNumbered(t.repos)
    ensures UrlFits(InsertRepo(t, url), url) <==> UrlFits(t, url)
  {
    var t' := InsertRepo(t, url);
    if !HasUrl(t, url) {
      assert t'.repos[|t.repos|].url == url;
    }
  }

  /** A creation with nothing in between succeeds exactly when SQLite executes its statements and the ids fit. */
  lemma CreateAloneSucceedsIff(t: Tables, url: string, rev: string, insertsRepo: bool, findsRepo: bool,
                               insertsRun: bool)
    requires Grown(t) && |t.repos| + 1 < WRAP && |t.runs| + 1 < WRAP
    ensures
      var (t', stage) := CreateAlone(t, url, rev, insertsRepo, findsRepo, insertsRun);
      && (stage.Created? <==>
            insertsRepo && findsRepo && insertsRun && UrlFits(t, url) && |t.runs| < INT_MAX)
      && (stage.Created? ==> stage.id == |t.runs| + 1 && CreatedIn(t, t', url, rev))
  {
    CreateStepKeeps(t, url, rev, InsertingRepo, insertsRepo);
    CreateStepSucceedsIff(t, url, rev, InsertingRepo, insertsRepo);
    if insertsRepo {
      InsertedUrlFits(t, url);
      var t1 := InsertRepo(t, url);
      assert CreateStep(t, url, rev, InsertingRepo, true) == (t1, FindingRepo);
      InsertedOneRepo(t, url);
      hide InsertRepo;
      CreateStepKeeps(t1, url, rev, FindingRepo, findsRepo);
      CreateStepSucceedsIff(t1, url, rev, FindingRepo, findsRepo);
      var (t2, stage2) := CreateStep(t1, url, rev, FindingRepo, findsRepo);
      assert t2 == t1;
      hide CreateStep, Grown, UrlFits, StageOk, HasUrl;
      if stage2.InsertingRun? {
        LastStatement(t, t1, url, rev, stage2, insertsRun);
      }
    }
  }

  lemma InsertedOneRepo(t: Tables, url: string)
    requires ReposNumbered(t.repos)
    ensures
      var t' := InsertRepo(t, url);
      && t'.runs == t.runs
      && t'.repos == if HasUrl(t, url) then t.repos else t.repos + [RepoRow(|t.repos| + 1, url)]
  {
  }

  lemma LastStatement(t: Tables, t1: Tables, url: string, rev: string, stage: NextStage, ok: bool)
    requires Grown(t1) && t1.runs == t.runs && |t1.repos| < WRAP && |t.runs| + 1 < WRAP
    requires t1.repos == if HasUrl(t, url) then t.repos else t.repos + [RepoRow(|t.repos| + 1, url)]
    requires stage.InsertingRun? && stage.found <= INT_MAX && RepoIs(t1.repos, stage.found, url)
    ensures
      var (t', stage') := CreateStep(t1, url, rev, stage, ok);
      && (stage'.Created? <==> ok && |t.runs| < INT_MAX)
      && (stage'.Created? ==> stage'.id == |t.runs| + 1 && CreatedIn(t, t', url, rev))
  {
    CreateStepKeeps(t1, url, rev, stage, ok);
    CreateStepSucceedsIff(t1, url, rev, stage, ok);
    ReadPositiveIff(stage.found);
    hide CreateStep, Grown, HasUrl, RepoExists;
  }
}
