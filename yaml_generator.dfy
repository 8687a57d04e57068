/**
 * The pipeline records of the PPL generator: per-target jobs and their task
 * lists, the fixed `git_tag` stage, the shared `common` section, the
 * parameters of one pipeline, and the pass that raises the LabVIEW version
 * of every pipeline that needs a newer one.
 *
 * The module-level tables of the source (`mklink_tasks`,
 * `environmentVariables`, `git_tag_tasks`) are built by loops; each loop is a
 * method proved against the function that states the finished table, and the
 * rest of the model reads that function.
 */
module YamlGenerator {
  import opened Wrappers
  import opened Strings
  import opened Dicts
  import opened Constants
  import opened PipelineRecords
  import opened FileUtils
  import opened PipelineGenerationUtils
  import opened VersionPropagation

  // ---------------------------------------------------------------------------
  // Module-level tables.

  /** `mklink_tasks`: the junction task of every member name, in member order. */
  function MkLinkTable(): Dict<Task> {
    seq(|TargetMemberNames|, i requires 0 <= i < |TargetMemberNames| =>
      (TargetMemberNames[i], MkLinkTask(TargetMemberNames[i])))
  }

  /** The loop that fills `mklink_tasks`. */
  method BuildMkLinkTasks() returns (table: Dict<Task>)
    ensures table == MkLinkTable()
  {
    var all := MkLinkTable();
    MkLinkLookup("");
    table := [];
    for i := 0 to |TargetMemberNames|
      invariant table == all[..i]
    {
      var name := TargetMemberNames[i];
      InsertNextPair(all, i);
      table := Insert(table, name, MkLinkTask(name));
    }
  }

  /** `mklink_tasks[targetName]`: a junction task for a member name, `KeyError` for any other. */
  lemma {:induction false} MkLinkLookup(targetName: string)
    ensures Distinct(Keys(MkLinkTable()))
    ensures Get(MkLinkTable(), targetName) ==
      if TargetFromName(targetName).Ok? then Some(MkLinkTask(targetName)) else None
  {
    MemberNames(targetName);
    var table := MkLinkTable();
    assert Keys(table) == TargetMemberNames;
    if TargetFromName(targetName).Ok? {
      var i :| 0 <= i < |TargetMemberNames| && TargetMemberNames[i] == targetName;
      GetAt(MkLinkTable(), i);
    }
  }

  /** `environmentVariables[target]`. */
  function EnvironmentVariables(t: Target): Dict<Scalar> {
    var is64Bit := t in [Windows_64_Debug, Windows_64_Release];
    [ ("TARGET_NAME", Str(TargetName(t))),
      ("BUILD_TYPE", Str("BUILD")),
      ("TARGET_SYSTEM", Str(if TargetValue(t) < 4 then "Windows" else "cRIO")),
      ("IS_DEBUG_BUILD", Int(TargetValue(t) % 2)),
      ("BITNESS_FLAG", Str(if is64Bit then "--x64 -v" else "-v")),
      ("RELEASE_NOTES", Str("")) ]
  }

  /** The loop that fills `environmentVariables`, one entry per member. */
  method BuildEnvironmentVariables() returns (table: map<Target, Dict<Scalar>>)
    ensures forall t :: t in table && table[t] == EnvironmentVariables(t)
  {
    table := map[];
    for i := 0 to |TargetMembers|
      invariant forall t :: t in table <==> t in TargetMembers[..i]
      invariant forall t :: t in table ==> table[t] == EnvironmentVariables(t)
    {
      assert TargetMembers[..i + 1] == TargetMembers[..i] + [TargetMembers[i]];
      table := table[TargetMembers[i] := EnvironmentVariables(TargetMembers[i])];
    }
    forall t ensures t in table {
      TargetMembersEnumerate(t);
      assert TargetMembers[..|TargetMembers|] == TargetMembers;
    }
  }

  lemma {:induction false} EnvironmentKeysDistinct(t: Target)
    ensures Distinct(Keys(EnvironmentVariables(t)))
  {
    var ks := Keys(EnvironmentVariables(t));
    assert |ks| == 6;
    forall i, j | 0 <= i < j < 6 ensures ks[i] != ks[j] {
      if i == 2 && j == 5 {
        assert ks[i][0] != ks[j][0];
      } else {
        assert |ks[i]| != |ks[j]|;
      }
    }
  }

  /** What the variables tell a build script: the member's own name and Windows for the
    * `Windows_*` members, cRIO for the others. */
  lemma {:induction false} EnvironmentNamesTarget(t: Target)
    ensures Get(EnvironmentVariables(t), "TARGET_NAME") == Some(Str(TargetName(t)))
    ensures Get(EnvironmentVariables(t), "TARGET_SYSTEM") ==
      Some(Str(if StartsWith(TargetName(t), "Windows_") then "Windows" else "cRIO"))
  {
    var env := EnvironmentVariables(t);
    EnvironmentKeysDistinct(t);
    WindowsValues(t);
    GetAt(env, 0);
    GetAt(env, 2);
  }

  /** A debug flag of 1 for the `*_Debug` members and 0 otherwise. */
  lemma {:induction false} EnvironmentDebugFlag(t: Target)
    ensures Get(EnvironmentVariables(t), "IS_DEBUG_BUILD") ==
      Some(Int(if EndsWith(TargetName(t), "_Debug") then 1 else 0))
  {
    EnvironmentKeysDistinct(t);
    DebugValues(t);
    GetAt(EnvironmentVariables(t), 3);
  }

  /** The 64-bit flag for the `Windows_64_*` members only. */
  lemma {:induction false} EnvironmentBitnessFlag(t: Target)
    ensures Get(EnvironmentVariables(t), "BITNESS_FLAG") ==
      Some(Str(if StartsWith(TargetName(t), "Windows_64_") then "--x64 -v" else "-v"))
  {
    var env := EnvironmentVariables(t);
    EnvironmentKeysDistinct(t);
    GetAt(env, 4);
    var is64Bit := t in [Windows_64_Debug, Windows_64_Release];
    assert env[4] == ("BITNESS_FLAG", Str(if is64Bit then "--x64 -v" else "-v"));
    assert is64Bit <==> t in {Windows_64_Release, Windows_64_Debug};
    Windows64Values(t);
  }

  /** `get_fetch_built_ppl_task(target)`: the PPL built by the job of that name. */
  function FetchBuiltPPLTask(targetName: string): Task {
    FetchBuiltTask("build_ppls", targetName, false, "#{PPL_Name}", "artifacts/" + targetName)
  }

  /** `git_tag_tasks`: fetch the builder, fetch what every job built, list it, publish. */
  function GitTagTasks(): seq<Task> {
    [FetchBuilderTask, ExpandBuilderTask]
    + seq(|TargetMemberNames|, i requires 0 <= i < |TargetMemberNames| => FetchBuiltPPLTask(TargetMemberNames[i]))
    + [ExecTask("dir", ["*"]), ExecTask("py", ["-3", "-u", "PPL_Builder/publish_github.py"])]
  }

  /** The loop that fills `git_tag_tasks`. */
  method BuildGitTagTasks() returns (tasks: seq<Task>)
    ensures tasks == GitTagTasks()
  {
    tasks := [FetchBuilderTask, ExpandBuilderTask];
    for i := 0 to |TargetMemberNames|
      invariant tasks == [FetchBuilderTask, ExpandBuilderTask]
        + seq(i, k requires 0 <= k < i => FetchBuiltPPLTask(TargetMemberNames[k]))
    {
      tasks := tasks + [FetchBuiltPPLTask(TargetMemberNames[i])];
    }
    tasks := tasks + [ExecTask("dir", ["*"])];
    tasks := tasks + [ExecTask("py", ["-3", "-u", "PPL_Builder/publish_github.py"])];
  }

  /** `git_tag_stage`. */
  function GitTagStage(): Stage {
    TasksStage("git_tag", "success", "yes",
      [ ("GITHUB_RELEASE_TOKEN", "{{SECRET:[secrets.json][github_publishing_token]}}"),
        ("PPL_NAME", "#{PPL_Name}"),
        ("RELEASE_NOTES", "") ],
      ["powershell"], GitTagTasks())
  }

  // ---------------------------------------------------------------------------
  // Task lists and jobs.

  /** `PPLJobTasks_NoDeps`. */
  const NoDepsTasks: seq<Task> := [FetchBuilderTask, ExpandBuilderTask, LsTask, GcliBuildTask]

  const NoListsMessage: string :=
    "Attempted to generate a PPL Task List with dependencies without passing a list of Dependencies"

  /** One fetch per dependency, in order, for the target. */
  function FetchTasks(dependencies: seq<string>, targetName: string): seq<Task> {
    seq(|dependencies|, i requires 0 <= i < |dependencies| => GenerateFetchPPLJob(dependencies[i], targetName))
  }

  /** One installer task per URL, in order, into the LabVIEW of the version and target. */
  function VipkgTasks(urls: seq<string>, lvVersion: string, t: Target): seq<Task> {
    seq(|urls|, i requires 0 <= i < |urls| => VipkgInstallTask(urls[i], LabVIEWDir(lvVersion, t), false))
  }

  /** What `generatePPLJobTasksWithDeps` returns or raises. */
  function JobTasksWithDeps(dependencies: Option<seq<string>>, vipkgUrls: Option<seq<string>>,
                            targetName: string, lvVersion: string): Result<seq<Task>>
  {
    if dependencies.None? && vipkgUrls.None? then Err(ValueError(NoListsMessage))
    else
      var depTasks :=
        if dependencies.None? then Ok([])
        else
          match Get(MkLinkTable(), targetName)
          case None => Err(KeyError(targetName))
          case Some(link) =>
            Ok([CreatePplDirTask] + FetchTasks(dependencies.value, targetName) + [link, LsCurrentDirTask]);
      if depTasks.Err? then Err(depTasks.error)
      else
        var vipkgTasks :=
          if vipkgUrls.None? then Ok([])
          else
            match TargetFromName(targetName)
            case Err(e) => Err(e)
            case Ok(t) => Ok(VipkgTasks(vipkgUrls.value, lvVersion, t));
        if vipkgTasks.Err? then Err(vipkgTasks.error)
        else Ok([FetchBuilderTask, ExpandBuilderTask] + depTasks.value + vipkgTasks.value + [LsTask, GcliBuildTask])
  }

  /** `generatePPLJobTasksWithDeps(dependencies, vipkgUrls, targetName, lv_version)`. */
  method GeneratePPLJobTasksWithDeps(dependencies: Option<seq<string>>, vipkgUrls: Option<seq<string>>,
                                     targetName: string, lvVersion: string)
    returns (r: Result<seq<Task>>)
    ensures r == JobTasksWithDeps(dependencies, vipkgUrls, targetName, lvVersion)
  {
    if dependencies.None? && vipkgUrls.None? {
      return Err(ValueError(NoListsMessage));
    }
    var pplDepTasks: seq<Task> := [];
    if dependencies.Some? {
      var deps := dependencies.value;
      pplDepTasks := pplDepTasks + [CreatePplDirTask];
      for i := 0 to |deps|
        invariant pplDepTasks == [CreatePplDirTask] + FetchTasks(deps[..i], targetName)
      {
        pplDepTasks := pplDepTasks + [GenerateFetchPPLJob(deps[i], targetName)];
      }
      assert deps[..|deps|] == deps;
      var link := Get(MkLinkTable(), targetName);
      if link.None? {
        return Err(KeyError(targetName));
      }
      pplDepTasks := pplDepTasks + [link.value];
      pplDepTasks := pplDepTasks + [LsCurrentDirTask];
      assert pplDepTasks == [CreatePplDirTask] + FetchTasks(deps, targetName) + [link.value, LsCurrentDirTask];
    }
    var vipkgTasks: seq<Task> := [];
    if vipkgUrls.Some? {
      var target := TargetFromName(targetName);
      if target.Err? {
        return Err(target.error);
      }
      var urls := vipkgUrls.value;
      for i := 0 to |urls|
        invariant vipkgTasks == VipkgTasks(urls[..i], lvVersion, target.value)
      {
        vipkgTasks := vipkgTasks + [VipkgInstallTask(urls[i], LabVIEWDir(lvVersion, target.value), false)];
      }
      assert urls[..|urls|] == urls;
    }
    return Ok([FetchBuilderTask, ExpandBuilderTask] + pplDepTasks + vipkgTasks + [LsTask, GcliBuildTask]);
  }

  /** The call fails with `ValueError` exactly when neither list is given, and otherwise
    * with `KeyError` exactly when the target name is not a member name. */
  lemma {:induction false} JobTasksErrors(dependencies: Option<seq<string>>, vipkgUrls: Option<seq<string>>,
                       targetName: string, lvVersion: string)
    ensures var r := JobTasksWithDeps(dependencies, vipkgUrls, targetName, lvVersion);
      && (r.Err? && r.error.ValueError? <==> dependencies.None? && vipkgUrls.None?)
      && (r.Err? <==> (dependencies.None? && vipkgUrls.None?) || TargetFromName(targetName).Err?)
  {
    MkLinkLookup(targetName);
  }

  /** A task list starts with the builder tasks, ends with the listing and the build, and
    * holds the dependency block (when there are dependencies) and one installer per URL. */
  lemma {:induction false} JobTasksEnds(dependencies: Option<seq<string>>, vipkgUrls: Option<seq<string>>,
                                        targetName: string, lvVersion: string)
    requires JobTasksWithDeps(dependencies, vipkgUrls, targetName, lvVersion).Ok?
    ensures var tasks := JobTasksWithDeps(dependencies, vipkgUrls, targetName, lvVersion).value;
      && |tasks| == 4 + (if dependencies.Some? then |dependencies.value| + 3 else 0)
                      + (if vipkgUrls.Some? then |vipkgUrls.value| else 0)
      && tasks[..2] == [FetchBuilderTask, ExpandBuilderTask]
      && tasks[|tasks| - 2..] == [LsTask, GcliBuildTask]
  {
    JobTasksParts(dependencies, vipkgUrls, targetName, lvVersion);
    var tasks := JobTasksWithDeps(dependencies, vipkgUrls, targetName, lvVersion).value;
    var deps := DependencyBlock(dependencies, targetName);
    var vipkgs := VipkgBlock(vipkgUrls, lvVersion, targetName);
    assert |deps| == if dependencies.Some? then |dependencies.value| + 3 else 0;
    assert |vipkgs| == if vipkgUrls.Some? then |vipkgUrls.value| else 0;
    EndsOfConcat4([FetchBuilderTask, ExpandBuilderTask], deps, vipkgs, [LsTask, GcliBuildTask]);
  }

  /** The outer parts of a concatenation of four. */
  lemma {:induction false} EndsOfConcat4<T>(a: seq<T>, b: seq<T>, c: seq<T>, d: seq<T>)
    ensures |a + b + c + d| == |a| + |b| + |c| + |d|
    ensures (a + b + c + d)[..|a|] == a && (a + b + c + d)[|a| + |b| + |c|..] == d
  {
    EndsOfConcat(a, b, c);
    assert (a + b + c + d)[..|a|] == (a + b + c)[..|a|];
  }

  /** The outer parts of a concatenation. */
  lemma {:induction false} EndsOfConcat<T>(a: seq<T>, b: seq<T>, c: seq<T>)
    ensures (a + b + c)[..|a|] == a && (a + b + c)[|a| + |b|..] == c
  {
  }

  /** With dependencies, the block after the builder tasks is `create_ppl_dir`, one fetch
    * per dependency in order for this target, the target's junction, and the listing. */
  lemma {:induction false} JobTasksDependencyOrder(deps: seq<string>, vipkgUrls: Option<seq<string>>,
                                                   targetName: string, lvVersion: string)
    requires JobTasksWithDeps(Some(deps), vipkgUrls, targetName, lvVersion).Ok?
    ensures var tasks := JobTasksWithDeps(Some(deps), vipkgUrls, targetName, lvVersion).value;
      && |tasks| >= 5 + |deps|
      && tasks[2] == CreatePplDirTask
      && (forall i :: 0 <= i < |deps| ==> tasks[3 + i] == GenerateFetchPPLJob(deps[i], targetName))
      && tasks[3 + |deps|] == MkLinkTask(targetName)
      && tasks[4 + |deps|] == LsCurrentDirTask
  {
    JobTasksParts(Some(deps), vipkgUrls, targetName, lvVersion);
    var tasks := JobTasksWithDeps(Some(deps), vipkgUrls, targetName, lvVersion).value;
    var front := [FetchBuilderTask, ExpandBuilderTask];
    var block := DependencyBlock(Some(deps), targetName);
    var rest := VipkgBlock(vipkgUrls, lvVersion, targetName) + [LsTask, GcliBuildTask];
    assert tasks == front + block + rest;
    DependencyBlockLayout(deps, targetName);
    forall k | 0 <= k < |block| ensures tasks[2 + k] == block[k] {
      ElementOfMiddle(front, block, rest, k);
    }
    assert tasks[2] == block[0];
    assert tasks[3 + |deps|] == block[1 + |deps|];
    assert tasks[4 + |deps|] == block[2 + |deps|];
    forall i | 0 <= i < |deps| ensures tasks[3 + i] == GenerateFetchPPLJob(deps[i], targetName) {
      assert tasks[2 + (1 + i)] == block[1 + i];
    }
  }

  /** The dependency block element by element. */
  lemma {:induction false} DependencyBlockLayout(deps: seq<string>, targetName: string)
    ensures var block := DependencyBlock(Some(deps), targetName);
      && |block| == |deps| + 3
      && block[0] == CreatePplDirTask
      && (forall i :: 0 <= i < |deps| ==> block[1 + i] == GenerateFetchPPLJob(deps[i], targetName))
      && block[1 + |deps|] == MkLinkTask(targetName)
      && block[2 + |deps|] == LsCurrentDirTask
  {
    var fetches := FetchTasks(deps, targetName);
    var tail := [MkLinkTask(targetName), LsCurrentDirTask];
    forall i | 0 <= i < |deps| ensures DependencyBlock(Some(deps), targetName)[1 + i] == GenerateFetchPPLJob(deps[i], targetName) {
      ElementOfMiddle([CreatePplDirTask], fetches, tail, i);
    }
  }

  /** The installers follow the dependency block, one per URL in order, each into the
    * LabVIEW of the version and target. */
  lemma {:induction false} JobTasksVipkgOrder(dependencies: Option<seq<string>>, urls: seq<string>,
                                              targetName: string, lvVersion: string)
    requires JobTasksWithDeps(dependencies, Some(urls), targetName, lvVersion).Ok?
    ensures TargetFromName(targetName).Ok?
    ensures var tasks := JobTasksWithDeps(dependencies, Some(urls), targetName, lvVersion).value;
      var offset := 2 + if dependencies.Some? then |dependencies.value| + 3 else 0;
      && |tasks| == offset + |urls| + 2
      && forall i :: 0 <= i < |urls| ==>
           tasks[offset + i] == VipkgInstallTask(urls[i], LabVIEWDir(lvVersion, TargetFromName(targetName).value), false)
  {
    JobTasksParts(dependencies, Some(urls), targetName, lvVersion);
    var tasks := JobTasksWithDeps(dependencies, Some(urls), targetName, lvVersion).value;
    var front := [FetchBuilderTask, ExpandBuilderTask] + DependencyBlock(dependencies, targetName);
    var block := VipkgBlock(Some(urls), lvVersion, targetName);
    var t := TargetFromName(targetName).value;
    assert tasks == front + block + [LsTask, GcliBuildTask];
    assert |front| == 2 + if dependencies.Some? then |dependencies.value| + 3 else 0;
    forall i | 0 <= i < |urls|
      ensures tasks[|front| + i] == VipkgInstallTask(urls[i], LabVIEWDir(lvVersion, t), false)
    {
      ElementOfMiddle(front, block, [LsTask, GcliBuildTask], i);
    }
  }

  /** An index into the middle part of a concatenation. */
  lemma {:induction false} ElementOfMiddle<T>(a: seq<T>, b: seq<T>, c: seq<T>, k: nat)
    requires k < |b|
    ensures (a + b + c)[|a| + k] == b[k]
  {
  }

  /** The dependency block of a task list that did not fail. */
  function DependencyBlock(dependencies: Option<seq<string>>, targetName: string): seq<Task> {
    if dependencies.None? then []
    else [CreatePplDirTask] + FetchTasks(dependencies.value, targetName) + [MkLinkTask(targetName), LsCurrentDirTask]
  }

  /** The installer block of a task list that did not fail. */
  function VipkgBlock(vipkgUrls: Option<seq<string>>, lvVersion: string, targetName: string): seq<Task>
    requires vipkgUrls.Some? ==> TargetFromName(targetName).Ok?
  {
    if vipkgUrls.None? then [] else VipkgTasks(vipkgUrls.value, lvVersion, TargetFromName(targetName).value)
  }

  lemma {:induction false} JobTasksParts(dependencies: Option<seq<string>>, vipkgUrls: Option<seq<string>>,
                                         targetName: string, lvVersion: string)
    requires JobTasksWithDeps(dependencies, vipkgUrls, targetName, lvVersion).Ok?
    ensures vipkgUrls.Some? ==> TargetFromName(targetName).Ok?
    ensures JobTasksWithDeps(dependencies, vipkgUrls, targetName, lvVersion).value ==
      [FetchBuilderTask, ExpandBuilderTask] + DependencyBlock(dependencies, targetName)
        + VipkgBlock(vipkgUrls, lvVersion, targetName) + [LsTask, GcliBuildTask]
  {
    MkLinkLookup(targetName);
    JobTasksErrors(dependencies, vipkgUrls, targetName, lvVersion);
  }

  const PPLBuildArtifact: Artifact := BuildArtifact("PPLs/Current/#{PPL_Name}", "#{PPL_Name}")
  const NipkgBuildArtifact: Artifact := BuildArtifact("NIPKGs/*", "#{PPL_Name}")

  /** The job of one target: its tasks never fail, since the target is a member. */
  function PPLJob(packageRootName: string, lvVersion: string, dependencies: Option<seq<string>>,
                  vipkgUrls: Option<seq<string>>, t: Target): Job
  {
    var name := TargetName(t);
    TargetMembersEnumerate(t);
    JobTasksErrors(dependencies, vipkgUrls, name, lvVersion);
    Job(15, ProfileId(lvVersion, t), EnvironmentVariables(t),
        [PPLBuildArtifact, NipkgBuildArtifact, ExternalArtifact(packageRootName + "_" + name + "_nipkg", "cicwin", "NIPKGs/*.nipkg")],
        if dependencies.None? && vipkgUrls.None? then NoDepsTasks
        else JobTasksWithDeps(dependencies, vipkgUrls, name, lvVersion).value)
  }

  /** What `generatePPLJobList` returns: one job per member, keyed by the member's name. */
  function JobList(packageRootName: string, lvVersion: string, dependencies: Option<seq<string>>,
                   vipkgUrls: Option<seq<string>>): Dict<Job>
  {
    seq(|TargetMembers|, i requires 0 <= i < |TargetMembers| =>
      (TargetName(TargetMembers[i]), PPLJob(packageRootName, lvVersion, dependencies, vipkgUrls, TargetMembers[i])))
  }

  /** `generatePPLJobList(packageRootName, lv_version, dependencies, vipkgUrls)`. */
  method GeneratePPLJobList(packageRootName: string, lvVersion: string, dependencies: Option<seq<string>>,
                            vipkgUrls: Option<seq<string>>)
    returns (jobs: Dict<Job>)
    ensures jobs == JobList(packageRootName, lvVersion, dependencies, vipkgUrls)
  {
    var all := JobList(packageRootName, lvVersion, dependencies, vipkgUrls);
    JobOf(packageRootName, lvVersion, dependencies, vipkgUrls, Windows_32_Release);
    MemberNames("");
    jobs := [];
    for i := 0 to |TargetMembers|
      invariant jobs == all[..i]
    {
      var t := TargetMembers[i];
      var name := TargetName(t);
      var tasks := NoDepsTasks;
      if !(dependencies.None? && vipkgUrls.None?) {
        var r := GeneratePPLJobTasksWithDeps(dependencies, vipkgUrls, name, lvVersion);
        TargetMembersEnumerate(t);
        JobTasksErrors(dependencies, vipkgUrls, name, lvVersion);
        tasks := r.value;
      }
      var job := Job(15, ProfileId(lvVersion, t), EnvironmentVariables(t),
        [PPLBuildArtifact, NipkgBuildArtifact, ExternalArtifact(packageRootName + "_" + name + "_nipkg", "cicwin", "NIPKGs/*.nipkg")],
        tasks);
      assert all[i] == (name, job);
      InsertNextPair(all, i);
      jobs := Insert(jobs, name, job);
    }
  }

  /** The job of target `t` in a job list. */
  lemma {:induction false} JobOf(packageRootName: string, lvVersion: string, dependencies: Option<seq<string>>,
              vipkgUrls: Option<seq<string>>, t: Target)
    ensures var jobs := JobList(packageRootName, lvVersion, dependencies, vipkgUrls);
      && Keys(jobs) == TargetMemberNames
      && Get(jobs, TargetName(t)) == Some(PPLJob(packageRootName, lvVersion, dependencies, vipkgUrls, t))
  {
    var jobs := JobList(packageRootName, lvVersion, dependencies, vipkgUrls);
    MemberNames("");
    var ks := Keys(jobs);
    forall k | 0 <= k < |ks| ensures ks[k] == TargetMemberNames[k] {
      assert ks[k] == jobs[k].0;
    }
    assert ks == TargetMemberNames;
    TargetMembersEnumerate(t);
    var i :| 0 <= i < |TargetMembers| && TargetMembers[i] == t;
    GetAt(jobs, i);
  }

  /** Each job is a 15-minute job on the profile of its version and target, with the
    * variables of its target, publishing `<packageRootName>_<target>_nipkg`; its tasks are
    * the no-dependency list exactly when there is no dependency and no VI package. */
  lemma {:induction false} JobProperties(packageRootName: string, lvVersion: string, dependencies: Option<seq<string>>,
                      vipkgUrls: Option<seq<string>>, t: Target)
    ensures var job := PPLJob(packageRootName, lvVersion, dependencies, vipkgUrls, t);
      && job.timeout == 15
      && job.elasticProfileId == ProfileId(lvVersion, t)
      && job.environment == EnvironmentVariables(t)
      && |job.artifacts| == 3
      && job.artifacts[2] == ExternalArtifact(packageRootName + "_" + TargetName(t) + "_nipkg", "cicwin", "NIPKGs/*.nipkg")
      && (job.tasks == NoDepsTasks <==>
            dependencies.None? && (vipkgUrls.None? || vipkgUrls.value == []))
  {
    var name := TargetName(t);
    TargetMembersEnumerate(t);
    JobTasksErrors(dependencies, vipkgUrls, name, lvVersion);
    if !(dependencies.None? && vipkgUrls.None?) {
      JobTasksEnds(dependencies, vipkgUrls, name, lvVersion);
      var tasks := JobTasksWithDeps(dependencies, vipkgUrls, name, lvVersion).value;
      if dependencies.None? && vipkgUrls.value == [] {
        assert tasks == NoDepsTasks;
      }
    }
  }

  /** `generatePPLStage(...)`: the manual `build_ppls` stage holding the job list. */
  function GeneratePPLStage(packageRootName: string, lvVersion: string, dependencies: Option<seq<string>>,
                            vipkgUrls: Option<seq<string>>): Stage
  {
    JobsStage("build_ppls", "yes", "yes", "manual", JobList(packageRootName, lvVersion, dependencies, vipkgUrls))
  }

  /** The `git_tag` stage fetches, from the stage that builds them, what every job built:
    * one fetch per job of the build stage, naming that stage and that job. */
  lemma {:induction false} GitTagFetchesEveryJob(packageRootName: string, lvVersion: string, dependencies: Option<seq<string>>,
                              vipkgUrls: Option<seq<string>>)
    ensures var stage := GeneratePPLStage(packageRootName, lvVersion, dependencies, vipkgUrls);
      && (forall task :: task in GitTagTasks() && task.FetchBuiltTask? ==>
            task.stage == stage.name && task.job in Keys(stage.jobs) && task.destination == "artifacts/" + task.job)
      && (forall k :: k in Keys(stage.jobs) ==> FetchBuiltPPLTask(k) in GitTagTasks())
  {
    var stage := GeneratePPLStage(packageRootName, lvVersion, dependencies, vipkgUrls);
    var tasks := GitTagTasks();
    JobOf(packageRootName, lvVersion, dependencies, vipkgUrls, Windows_32_Release);
    assert Keys(stage.jobs) == TargetMemberNames;
    GitTagTasksLayout();
    forall task | task in tasks && task.FetchBuiltTask?
      ensures task.stage == stage.name && task.job in Keys(stage.jobs) && task.destination == "artifacts/" + task.job
    {
      var i :| 0 <= i < |tasks| && tasks[i] == task;
      assert tasks[i] == FetchBuiltPPLTask(TargetMemberNames[i - 2]);
    }
    forall k | k in Keys(stage.jobs) ensures FetchBuiltPPLTask(k) in tasks {
      var i :| 0 <= i < |TargetMemberNames| && TargetMemberNames[i] == k;
      assert tasks[2 + i] == FetchBuiltPPLTask(k);
    }
  }

  /** The fetches of built PPLs in `git_tag_tasks` are the entries 2 to 7, one per member. */
  lemma {:induction false} GitTagTasksLayout()
    ensures |GitTagTasks()| == 2 + |TargetMemberNames| + 2
    ensures forall i :: 0 <= i < |GitTagTasks()| && GitTagTasks()[i].FetchBuiltTask? ==>
      2 <= i < 2 + |TargetMemberNames|
    ensures forall i :: 0 <= i < |TargetMemberNames| ==> GitTagTasks()[2 + i] == FetchBuiltPPLTask(TargetMemberNames[i])
  {
    var tasks := GitTagTasks();
    var fetches := seq(|TargetMemberNames|, i requires 0 <= i < |TargetMemberNames| => FetchBuiltPPLTask(TargetMemberNames[i]));
    var tail := [ExecTask("dir", ["*"]), ExecTask("py", ["-3", "-u", "PPL_Builder/publish_github.py"])];
    assert tasks == [FetchBuilderTask, ExpandBuilderTask] + fetches + tail;
    forall i | 0 <= i < |TargetMemberNames| ensures tasks[2 + i] == fetches[i] {
      ElementOfMiddle([FetchBuilderTask, ExpandBuilderTask], fetches, tail, i);
    }
  }

  /** A pipeline that depends on `producer` fetches, in its job for `t`, exactly the
    * package id that `producer`'s own job for `t` publishes. */
  lemma {:induction false} FetchedIdIsPublishedId(consumerRoot: string, lvVersion: string, deps: seq<string>,
                               vipkgUrls: Option<seq<string>>, producer: string, producerVersion: string,
                               producerDeps: Option<seq<string>>, producerUrls: Option<seq<string>>,
                               t: Target, j: nat)
    requires j < |deps| && deps[j] == producer
    ensures var consumerJob := PPLJob(consumerRoot, lvVersion, Some(deps), vipkgUrls, t);
      var producerJob := PPLJob(GetPackageRootName(producer), producerVersion, producerDeps, producerUrls, t);
      && 3 + j < |consumerJob.tasks|
      && consumerJob.tasks[3 + j].FetchExternalTask?
      && consumerJob.tasks[3 + j].pipeline == producer
      && consumerJob.tasks[3 + j].job == TargetName(t)
      && consumerJob.tasks[3 + j].artifactId == producerJob.artifacts[2].id
  {
    var name := TargetName(t);
    TargetMembersEnumerate(t);
    JobTasksErrors(Some(deps), vipkgUrls, name, lvVersion);
    JobTasksDependencyOrder(deps, vipkgUrls, name, lvVersion);
  }

  // ---------------------------------------------------------------------------
  // The `common` section.

  const CommonFixedEntries: Dict<CommonEntry> :=
    [ ("via_plugin_version", ViaPluginVersion),
      ("dir_job", DirJob),
      ("via_job", ViaJob),
      ("PPL_Job", TaskList(NoDepsTasks)) ]

  /** What `getCommonSection()` returns: the fixed entries, then `mklink_task_<target>`
    * for every entry of `mklink_tasks`, in its order. */
  function CommonSection(): Dict<CommonEntry> {
    var links := MkLinkTable();
    CommonFixedEntries
    + seq(|links|, i requires 0 <= i < |links| => ("mklink_task_" + links[i].0, SingleTask(links[i].1)))
  }

  /** `getCommonSection()`. */
  method GetCommonSection() returns (common: Dict<CommonEntry>)
    ensures common == CommonSection()
  {
    var all := CommonSection();
    CommonSectionKeys();
    var links := MkLinkTable();
    common := CommonFixedEntries;
    assert common == all[..4];
    for i := 0 to |links|
      invariant common == all[..4 + i]
    {
      InsertNextPair(all, 4 + i);
      common := Insert(common, "mklink_task_" + links[i].0, SingleTask(links[i].1));
    }
    assert all[..4 + |links|] == all;
  }

  /** The keys of the common section: the four fixed ones, then one per member. */
  lemma {:induction false} CommonSectionKeys()
    ensures |CommonSection()| == 4 + |TargetMembers|
    ensures Keys(CommonSection()) ==
      ["via_plugin_version", "dir_job", "via_job", "PPL_Job"]
      + seq(|TargetMemberNames|, i requires 0 <= i < |TargetMemberNames| => "mklink_task_" + TargetMemberNames[i])
    ensures Distinct(Keys(CommonSection()))
  {
    CommonSectionLayout();
    CommonKeysDistinct();
    var ks := Keys(CommonSection());
    var expected := ["via_plugin_version", "dir_job", "via_job", "PPL_Job"]
      + seq(|TargetMemberNames|, i requires 0 <= i < |TargetMemberNames| => "mklink_task_" + TargetMemberNames[i]);
    forall i | 0 <= i < |ks| ensures ks[i] == expected[i] {
      if i < 4 {
        assert ks[i] == ks[..4][i];
      }
    }
  }

  lemma {:induction false} CommonKeysDistinct()
    ensures Distinct(Keys(CommonSection()))
  {
    CommonSectionLayout();
    var ks := Keys(CommonSection());
    MemberNames("");
    forall i, j | 0 <= i < j < |ks| ensures ks[i] != ks[j] {
      if i >= 4 {
        var a := TargetMemberNames[i - 4];
        var b := TargetMemberNames[j - 4];
        assert ks[i] == "mklink_task_" + a && ks[j] == "mklink_task_" + b;
        assert ks[i][12..] == a && ks[j][12..] == b;
      } else if j >= 4 {
        assert ks[j][0] == 'm';
        assert ks[i][0] != 'm';
      } else {
        assert ks[i][0] != ks[j][0] || |ks[i]| != |ks[j]|;
      }
    }
  }

  lemma {:induction false} CommonSectionLayout()
    ensures |CommonSection()| == 4 + |TargetMembers|
    ensures forall i :: 4 <= i < |CommonSection()| ==> Keys(CommonSection())[i] == "mklink_task_" + TargetMemberNames[i - 4]
    ensures Keys(CommonSection())[..4] == ["via_plugin_version", "dir_job", "via_job", "PPL_Job"]
  {
    var links := MkLinkTable();
    var tail := seq(|links|, i requires 0 <= i < |links| => ("mklink_task_" + links[i].0, SingleTask(links[i].1)));
    assert CommonSection() == CommonFixedEntries + tail;
    var ks := Keys(CommonSection());
    assert ks[..4] == ["via_plugin_version", "dir_job", "via_job", "PPL_Job"];
  }

  /** The common section lists the no-dependency task list and, under
    * `mklink_task_<target>`, the junction task of every member. */
  lemma {:induction false} CommonSectionLookup(t: Target)
    ensures Get(CommonSection(), "PPL_Job") == Some(TaskList(NoDepsTasks))
    ensures Get(CommonSection(), "mklink_task_" + TargetName(t)) == Some(SingleTask(MkLinkTask(TargetName(t))))
  {
    CommonSectionKeys();
    MemberNames("");
    TargetMembersEnumerate(t);
    var i :| 0 <= i < |TargetMembers| && TargetMembers[i] == t;
    var cs, links := CommonSection(), MkLinkTable();
    assert cs[3] == ("PPL_Job", TaskList(NoDepsTasks));
    assert TargetMemberNames[i] == TargetName(t);
    assert cs[4 + i] == ("mklink_task_" + links[i].0, SingleTask(links[i].1));
    GetAt(cs, 3);
    GetAt(cs, 4 + i);
  }

  // ---------------------------------------------------------------------------
  // One pipeline.

  /** `'"' + '" "'.join(names) + '"'`. */
  function QuotedList(names: seq<string>): string {
    "\"" + Join(names, "\" \"") + "\""
  }

  /** Every name wrapped in double quotes. */
  function Quoted(names: seq<string>): (r: seq<string>)
    ensures |r| == |names|
  {
    seq(|names|, i requires 0 <= i < |names| => "\"" + names[i] + "\"")
  }

  /** A non-empty quoted list is each name in double quotes, separated by single spaces. */
  lemma {:induction false} QuotedListJoinsQuotedNames(names: seq<string>)
    requires names != []
    ensures QuotedList(names) == Join(Quoted(names), " ")
    decreases |names|
  {
    if |names| > 1 {
      var rest := names[1..];
      QuotedListJoinsQuotedNames(rest);
      assert Quoted(names)[1..] == Quoted(rest);
      assert Join(rest, "\" \"") == Join(names, "\" \"")[|names[0]| + 3..] by {
        assert Join(names, "\" \"") == names[0] + "\" \"" + Join(rest, "\" \"");
      }
      calc {
        QuotedList(names);
        "\"" + (names[0] + "\" \"" + Join(rest, "\" \"")) + "\"";
        ("\"" + names[0] + "\"") + " " + ("\"" + Join(rest, "\" \"") + "\"");
        Quoted(names)[0] + " " + Join(Quoted(rest), " ");
        Join(Quoted(names), " ");
      }
    }
  }

  /** `LV_VERSION`: the minimum version when one is set, else the default. */
  function LVVersion(minVersion: Option<string>): string {
    if minVersion.Some? then minVersion.value else DefaultVersion
  }

  /** What `buildData` returns or raises for a pipeline key, its values, and the state of the
    * module-level materials cache. */
  function PipelineData(name: string, v: EntryValues, cache: map<string, Material>): Result<PipelineSpec> {
    match Materials(v.gitUrl, v.dependencies, cache)
    case Err(e) => Err(e)
    case Ok(generated) => PipelineRecord(name, v, DirectoryNameMatch(v.gitUrl).value, generated)
  }

  /** The rest of `buildData`, once the materials and the repository directory are known. */
  function PipelineRecord(name: string, v: EntryValues, gitDir: string, generated: Dict<Material>): Result<PipelineSpec> {
    if v.dependencies.Some? && v.dependencyPPLNames.None? then Err(TypeError)
    else
      var lvVersion := LVVersion(v.minLabVIEWVersion);
      Ok(PipelineSpec(
        "PPLs",
        PipelineParameters(v, gitDir),
        Union([("builder", BuilderMaterial)], generated),
        [GeneratePPLStage(GetPackageRootName(name), lvVersion, v.dependencies, v.vipkgUrls), GitTagStage()]))
  }

  /** The `parameters` of a pipeline. */
  function PipelineParameters(v: EntryValues, gitDir: string): Dict<string>
    requires v.dependencies.Some? ==> v.dependencyPPLNames.Some?
  {
    var quoted := if v.dependencies.Some? then QuotedList(v.dependencyPPLNames.value) else "";
    [ ("PPL_Name", v.pplName),
      ("PPL_LIB_PATH", v.libPath),
      ("GIT_DIR", gitDir),
      ("LV_VERSION", LVVersion(v.minLabVIEWVersion)),
      ("Dependency_PPL_Names", quoted) ]
  }

  /** A pipeline of the dictionary: the values of its entry, and a minimum version that
    * `updateMinimumVersions` may raise in place. */
  class PipelineDefinition {
    const name: string
    const artifactId: string
    const gitUrl: string
    const libPath: string
    const pplName: string
    const dependencies: Option<seq<string>>
    const dependencyPPLNames: Option<seq<string>>
    var minVersion: Option<string>
    const vipkgUrls: Option<seq<string>>

    /** `PipelineDefinition(pipelineName, values)`. */
    constructor (pipelineName: string, values: EntryValues)
      ensures name == pipelineName && Values() == values
    {
      name := pipelineName;
      artifactId := values.artifactId;
      gitUrl := values.gitUrl;
      libPath := values.libPath;
      pplName := values.pplName;
      dependencies := values.dependencies;
      dependencyPPLNames := values.dependencyPPLNames;
      minVersion := values.minLabVIEWVersion;
      vipkgUrls := values.vipkgUrls;
    }

    /** The entry's values, with the current minimum version. */
    function Values(): EntryValues
      reads this
    {
      EntryValues(artifactId, gitUrl, libPath, pplName, dependencies, dependencyPPLNames, minVersion, vipkgUrls)
    }

    /** `buildData`; `cache` is the module-level `dependencyMaterials`. */
    method BuildData(cache: MaterialCache) returns (r: Result<PipelineSpec>)
      modifies cache
      ensures r == PipelineData(name, Values(), old(cache.entries))
      ensures cache.entries == CacheAfterCall(gitUrl, dependencies, old(cache.entries))
    {
      var generated := GenerateMaterials(gitUrl, dependencies, cache);
      if generated.Err? {
        return Err(generated.error);
      }
      var materials := Union([("builder", BuilderMaterial)], generated.value);
      var dependencyQuotedList := "";
      if dependencies.Some? {
        if dependencyPPLNames.None? {
          return Err(TypeError);
        }
        dependencyQuotedList := "\"" + Join(dependencyPPLNames.value, "\" \"") + "\"";
      }
      var gitDirName := DirectoryFromGitRepo(gitUrl, None).value;
      var lvVersion := if minVersion.Some? then minVersion.value else "2019";
      var stage := GeneratePPLStage(GetPackageRootName(name), lvVersion, dependencies, vipkgUrls);
      return Ok(PipelineSpec(
        "PPLs",
        [ ("PPL_Name", pplName),
          ("PPL_LIB_PATH", libPath),
          ("GIT_DIR", gitDirName),
          ("LV_VERSION", lvVersion),
          ("Dependency_PPL_Names", dependencyQuotedList) ],
        materials,
        [stage, GitTagStage()]));
    }
  }

  /** `buildData` fails exactly when the git URL has no directory name (`AttributeError`) or
    * when dependencies come without their PPL names (`TypeError`). */
  lemma {:induction false} PipelineDataErrors(name: string, v: EntryValues, cache: map<string, Material>)
    ensures var r := PipelineData(name, v, cache);
      && (r.Err? <==> DirectoryNameMatch(v.gitUrl).None? || (v.dependencies.Some? && v.dependencyPPLNames.None?))
      && (DirectoryNameMatch(v.gitUrl).None? ==> r == Err(AttributeError))
      && (DirectoryNameMatch(v.gitUrl).Some? && v.dependencies.Some? && v.dependencyPPLNames.None? ==> r == Err(TypeError))
  {
  }

  /** The parameters of a pipeline: `LV_VERSION` is its minimum version or `2019`,
    * `Dependency_PPL_Names` the quoted names or empty, `GIT_DIR` the repository directory. */
  lemma {:induction false} PipelineDataParameters(name: string, v: EntryValues, cache: map<string, Material>)
    requires PipelineData(name, v, cache).Ok?
    ensures var params := PipelineData(name, v, cache).value.parameters;
      && Get(params, "LV_VERSION") == Some(if v.minLabVIEWVersion.Some? then v.minLabVIEWVersion.value else "2019")
      && Get(params, "Dependency_PPL_Names") ==
           Some(if v.dependencies.None? then "" else QuotedList(v.dependencyPPLNames.value))
      && Get(params, "GIT_DIR") == DirectoryNameMatch(v.gitUrl)
      && Get(params, "PPL_Name") == Some(v.pplName)
  {
    var gitDir := DirectoryNameMatch(v.gitUrl).value;
    ParameterLookup(v, gitDir);
  }

  lemma {:induction false} ParameterLookup(v: EntryValues, gitDir: string)
    requires v.dependencies.Some? ==> v.dependencyPPLNames.Some?
    ensures var params := PipelineParameters(v, gitDir);
      && Get(params, "LV_VERSION") == Some(LVVersion(v.minLabVIEWVersion))
      && Get(params, "Dependency_PPL_Names") ==
           Some(if v.dependencies.None? then "" else QuotedList(v.dependencyPPLNames.value))
      && Get(params, "GIT_DIR") == Some(gitDir)
      && Get(params, "PPL_Name") == Some(v.pplName)
  {
    var params := PipelineParameters(v, gitDir);
    var ks := Keys(params);
    assert |ks[0]| == 8 && |ks[1]| == 12 && |ks[2]| == 7 && |ks[3]| == 10 && |ks[4]| == 20;
    GetAt(params, 0);
    GetAt(params, 2);
    GetAt(params, 3);
    GetAt(params, 4);
  }

  /** The stages are the build stage and `git_tag`, in that order, and the build stage's
    * job for every target publishes the package id that consumers of this pipeline fetch. */
  lemma {:induction false} PipelineDataStages(name: string, v: EntryValues, cache: map<string, Material>, t: Target)
    requires PipelineData(name, v, cache).Ok?
    ensures var spec := PipelineData(name, v, cache).value;
      && spec.group == "PPLs"
      && |spec.stages| == 2
      && spec.stages[0].JobsStage? && spec.stages[0].name == "build_ppls"
      && spec.stages[1] == GitTagStage()
      && match Get(spec.stages[0].jobs, TargetName(t))
         case Some(job) => |job.artifacts| == 3 && job.artifacts[2].ExternalArtifact? && job.artifacts[2].id == PackageId(name, TargetName(t))
         case None => false
  {
    var spec := PipelineData(name, v, cache).value;
    var root := GetPackageRootName(name);
    var lvVersion := LVVersion(v.minLabVIEWVersion);
    StageJobPublishes(root, lvVersion, v.dependencies, v.vipkgUrls, t);
  }

  lemma {:induction false} StageJobPublishes(root: string, lvVersion: string, dependencies: Option<seq<string>>,
                                             vipkgUrls: Option<seq<string>>, t: Target)
    ensures var jobs := GeneratePPLStage(root, lvVersion, dependencies, vipkgUrls).jobs;
      match Get(jobs, TargetName(t))
      case Some(job) => |job.artifacts| == 3 && job.artifacts[2].ExternalArtifact? && job.artifacts[2].id == root + "_" + TargetName(t) + "_nipkg"
      case None => false
  {
    JobOf(root, lvVersion, dependencies, vipkgUrls, t);
    JobProperties(root, lvVersion, dependencies, vipkgUrls, t);
  }

  /** The materials start with `builder`, followed by the generated ones. */
  lemma {:induction false} PipelineDataMaterials(name: string, v: EntryValues, cache: map<string, Material>)
    requires PipelineData(name, v, cache).Ok?
    ensures var spec := PipelineData(name, v, cache).value;
      var generated := Materials(v.gitUrl, v.dependencies, cache).value;
      && |spec.materials| > 0
      && Keys(spec.materials)[0] == "builder"
      && forall k :: k in Keys(spec.materials) <==> k == "builder" || k in Keys(generated)
  {
    var generated := Materials(v.gitUrl, v.dependencies, cache).value;
    BuilderFirst(generated);
  }

  lemma {:induction false} BuilderFirst(generated: Dict<Material>)
    ensures var materials := Union([("builder", BuilderMaterial)], generated);
      && |materials| > 0
      && Keys(materials)[0] == "builder"
      && forall k :: k in Keys(materials) <==> k == "builder" || k in Keys(generated)
  {
    var builder := [("builder", BuilderMaterial)];
    UnionKeys(builder, generated);
    assert Keys(builder) == ["builder"];
    assert Keys(Union(builder, generated))[..1] == ["builder"];
  }

  /** `buildYamlObject(pipelineDictionary)`: format 10, the common section, the pipelines. */
  method BuildYamlObject(pipelines: Dict<PipelineDefinition>) returns (config: Configuration<PipelineDefinition>)
    ensures config == Configuration(10, Some(CommonSection()), pipelines)
  {
    var common := GetCommonSection();
    config := Configuration(10, Some(common), pipelines);
  }

  // ---------------------------------------------------------------------------
  // Minimum LabVIEW versions.

  /** The objects of a pipeline dictionary. */
  function Objects(pipelines: seq<(string, PipelineDefinition)>): set<PipelineDefinition> {
    set i | 0 <= i < |pipelines| :: pipelines[i].1
  }

  /** What the version rule reads of each entry: its key, dependencies and minimum version. */
  function Snapshot(pipelines: seq<(string, PipelineDefinition)>): (g: seq<Node>)
    reads Objects(pipelines)
    ensures |g| == |pipelines|
    ensures forall i :: 0 <= i < |pipelines| ==>
      g[i] == Node(pipelines[i].0, pipelines[i].1.dependencies, pipelines[i].1.minVersion)
  {
    seq(|pipelines|, i requires 0 <= i < |pipelines| reads Objects(pipelines) =>
      Node(pipelines[i].0, pipelines[i].1.dependencies, pipelines[i].1.minVersion))
  }

  /** `findNonDefaultLVPipelines(pipelineDictionary, defaultVersion)`: the keys, in order, of
    * the entries whose minimum version is set and differs from `defaultVersion`. */
  function FindNonDefault(pipelines: seq<(string, PipelineDefinition)>, defaultVersion: string): (keys: seq<string>)
    reads Objects(pipelines)
    ensures forall x :: x in keys <==>
      exists i :: 0 <= i < |pipelines| && pipelines[i].0 == x && pipelines[i].1.minVersion.Some?
        && pipelines[i].1.minVersion.value != defaultVersion
  {
    var g := Snapshot(pipelines);
    var keys := NonDefault(g, defaultVersion);
    forall x | x in keys
      ensures exists i :: (0 <= i < |pipelines| && pipelines[i].0 == x && pipelines[i].1.minVersion.Some? &&
                           pipelines[i].1.minVersion.value != defaultVersion)
    {
      var n :| n in g && n.name == x && n.minVersion.Some? && n.minVersion.value != defaultVersion;
      var i :| 0 <= i < |g| && g[i] == n;
    }
    forall i | 0 <= i < |pipelines| && pipelines[i].1.minVersion.Some? && pipelines[i].1.minVersion.value != defaultVersion
      ensures pipelines[i].0 in keys
    {
      assert g[i] in g;
    }
    keys
  }

  /** `updateMinimumVersions(pipelineDictionary)`: the same dictionary back, with every
    * entry in the closure of the non-default entries raised to `2021` in place. Each key
    * holds its own object, as the generator builds them. */
  method UpdateMinimumVersions(pipelines: seq<(string, PipelineDefinition)>)
    returns (r: seq<(string, PipelineDefinition)>)
    requires forall i, j :: 0 <= i < j < |pipelines| ==> pipelines[i].1 != pipelines[j].1
    modifies Objects(pipelines)
    ensures r == pipelines
    ensures Snapshot(pipelines) == Propagate(old(Snapshot(pipelines)))
  {
    var g := Snapshot(pipelines);
    var nonDefaultPipelineNames := FindNonDefault(pipelines, DefaultVersion);
    assert nonDefaultPipelineNames == NonDefault(g, DefaultVersion);
    if |nonDefaultPipelineNames| == 0 {
      PropagateWithoutSeeds(g);
      return pipelines;
    }
    var pipelinesToUpdate := CollectDependents(g, set x | x in nonDefaultPipelineNames);
    RaiseVersions(pipelines, pipelinesToUpdate);
    return pipelines;
  }

  /** The `while True` loop of `updateMinimumVersions`: add the keys that depend on the set
    * until a round adds none. */
  method CollectDependents(g: seq<Node>, seeds: set<string>) returns (pipelinesToUpdate: set<string>)
    ensures pipelinesToUpdate == Closure(g, seeds)
  {
    pipelinesToUpdate := seeds;
    while true
      invariant Closure(g, pipelinesToUpdate) == Closure(g, seeds)
      decreases |Names(g) - pipelinesToUpdate|
    {
      var newElements := NewElements(g, pipelinesToUpdate);
      var before := pipelinesToUpdate;
      pipelinesToUpdate := pipelinesToUpdate + set x | x in newElements;
      ClosureRound(g, before, pipelinesToUpdate);
      if |newElements| == 0 {
        break;
      }
    }
  }

  /** The final loop of `updateMinimumVersions`: every entry whose key is in `toUpdate`
    * gets the newer version; no other entry changes. */
  method RaiseVersions(pipelines: seq<(string, PipelineDefinition)>, toUpdate: set<string>)
    requires forall i, j :: 0 <= i < j < |pipelines| ==> pipelines[i].1 != pipelines[j].1
    requires toUpdate == PipelinesToUpdate(Snapshot(pipelines))
    modifies Objects(pipelines)
    ensures Snapshot(pipelines) == Propagate(old(Snapshot(pipelines)))
  {
    ghost var g := Snapshot(pipelines);
    for i := 0 to |pipelines|
      invariant forall j :: 0 <= j < |pipelines| ==>
        pipelines[j].1.minVersion == if j < i && g[j].name in toUpdate then Some(UpgradedVersion) else g[j].minVersion
    {
      if pipelines[i].0 in toUpdate {
        pipelines[i].1.minVersion := Some(UpgradedVersion);
      }
    }
    RaisedIsPropagated(g, Snapshot(pipelines), toUpdate);
  }

  /** Raising exactly the keys to update, and nothing else, gives `Propagate`. */
  lemma {:induction false} RaisedIsPropagated(g: seq<Node>, after: seq<Node>, toUpdate: set<string>)
    requires toUpdate == PipelinesToUpdate(g) && |after| == |g|
    requires forall j :: 0 <= j < |g| ==>
      after[j] == Node(g[j].name, g[j].dependencies,
                       if g[j].name in toUpdate then Some(UpgradedVersion) else g[j].minVersion)
    ensures after == Propagate(g)
  {
    var expected := Propagate(g);
    forall j | 0 <= j < |g| ensures after[j] == expected[j] {
    }
  }
}
