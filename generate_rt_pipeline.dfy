/**
 * The generator of the single cRIO real-time application pipeline: one `build`
 * stage with one `build_debug` job for the `cRIO_Debug` target, whose tasks make
 * the PPL directory, fetch every dependency's `cRIO_Debug` package, link the
 * `home` directory of the build type, and run the LabVIEW command-line build.
 * Its materials come from the same cache-sharing `generateMaterials`.
 */
module GenerateRTPipeline {
  import opened Wrappers
  import opened Strings
  import opened Dicts
  import opened Constants
  import opened PipelineRecords
  import opened FileUtils
  import opened PipelineGenerationUtils
  import opened VersionPropagation
  import opened YamlGenerator

  /** The directory, under `C:\LabVIEW Sources\PPLs`, that a cRIO build type's `home`
    * junction points at; `None` (printed by the f-string) for any other target. */
  function HomeLinkTarget(target: Target): string {
    if target == cRIO_Release then "cRIO-9045\\Release_32\\home"
    else if target == cRIO_Debug then "cRIO-9045\\Debug_32\\home"
    else "None"
  }

  const HomeLinkPath: string := "PPLs\\cRIO-9045\\home"

  /** `create_home_link_task(target)`: a PowerShell junction from `PPLs\cRIO-9045\home`. */
  function CreateHomeLinkTask(target: Target): (task: Task)
    ensures task.ExecTask? && task.command == "powershell" && |task.arguments| == 9
    ensures task.arguments[5] == "-Path" && task.arguments[6] == HomeLinkPath
    ensures task.arguments[7] == "-Target" &&
      task.arguments[8] == "\\\"C:\\LabVIEW Sources\\PPLs\\" + HomeLinkTarget(target) + "\\\""
  {
    ExecTask("powershell", ["-Command", "New-Item", "-Force", "-ItemType", "Junction", "-Path", HomeLinkPath,
                            "-Target", "\\\"C:\\LabVIEW Sources\\PPLs\\" + HomeLinkTarget(target) + "\\\""])
  }

  /** Only the two cRIO targets, the ones not named `Windows_*`, get a home directory;
    * every other target gets the literal `None`. */
  lemma {:induction false} HomeLinkOnlyForCRIO(target: Target)
    ensures HomeLinkTarget(target) != "None" <==> !StartsWith(TargetName(target), "Windows_")
  {
    WindowsValues(target);
    if target == cRIO_Release || target == cRIO_Debug {
      assert HomeLinkTarget(target)[0] == 'c';
    }
  }

  /** A cRIO target gets the home directory of its own build type: debug for the odd
    * (debug) target value, release otherwise. */
  lemma {:induction false} HomeLinkFollowsBuildType(target: Target)
    requires target == cRIO_Release || target == cRIO_Debug
    ensures HomeLinkTarget(target) ==
      "cRIO-9045\\" + (if TargetValue(target) % 2 == 1 then "Debug" else "Release") + "_32\\home"
  {
  }

  /** The LabVIEW command-line build of the application's build specification. */
  function CliBuildTask(gitDir: string): Task {
    ExecTask("LabVIEWCLI.exe",
             ["-OperationName", "ExecuteBuildSpec", "-Verbosity", "Detailed",
              "-ProjectPath", "\\\"C:\\LabVIEW Sources\\" + gitDir + "\\cRIO-9045-RT.lvproj\\\"",
              "-TargetName", "RT CompactRIO Target", "-BuildSpecName", "RT Main Application"])
  }

  const RTTargetName: string := "cRIO_Debug"

  /** The tasks of `build_debug`: `create_ppl_dir`, one fetch per dependency in order for
    * `cRIO_Debug`, the debug home junction, the build. */
  function RTTasks(dependencies: seq<string>, gitDir: string): (tasks: seq<Task>)
    ensures |tasks| == |dependencies| + 3
    ensures tasks[0] == CreatePplDirTask
    ensures forall i :: 0 <= i < |dependencies| ==>
      tasks[1 + i].FetchExternalTask? && tasks[1 + i].pipeline == dependencies[i] &&
      tasks[1 + i].job == RTTargetName && tasks[1 + i].artifactId == PackageId(dependencies[i], RTTargetName)
    ensures tasks[|dependencies| + 1] == CreateHomeLinkTask(cRIO_Debug)
    ensures tasks[|dependencies| + 2] == CliBuildTask(gitDir)
  {
    var pplDepTasks := seq(|dependencies|, i requires 0 <= i < |dependencies| => GenerateFetchPPLJob(dependencies[i], RTTargetName));
    [CreatePplDirTask] + pplDepTasks + [CreateHomeLinkTask(cRIO_Debug), CliBuildTask(gitDir)]
  }

  /** What `PipelineDefinition_RTapp` reads from its entry. */
  datatype RTEntry = RTEntry(
    name: string,
    gitUrl: string,
    dependencies: Option<seq<string>>,
    dependencyPPLNames: Option<seq<string>>,
    minVersion: Option<string>,
    vipkgUrls: Option<seq<string>>)

  /** The only job. */
  function RTJob(lvVersion: string, dependencies: seq<string>, gitDir: string): Job {
    Job(15, ProfileId(lvVersion, cRIO_Debug), [("IS_DEBUG_BUILD", Int(1)), ("BUILD_TYPE", Str("BUILD"))],
        [BuildArtifact("builds/cRIO-9045-RT", "#{APP_NAME}")], RTTasks(dependencies, gitDir))
  }

  /** What `buildData` returns or raises for an entry and the state of the module-level
    * materials cache: `AttributeError` for a URL without a directory name, `TypeError`
    * when the names or the dependencies are None (they are joined and iterated). */
  function RTPipelineData(e: RTEntry, cache: map<string, Material>): (r: Result<PipelineSpec>)
    ensures r.Err? <==> DirectoryNameMatch(e.gitUrl).None? || e.dependencies.None? || e.dependencyPPLNames.None?
    ensures DirectoryNameMatch(e.gitUrl).None? ==> r == Err(AttributeError)
  {
    match DirectoryFromGitRepo(e.gitUrl, None)
    case Err(err) => Err(err)
    case Ok(gitDirName) =>
      var materials := Materials(e.gitUrl, e.dependencies, cache).value;
      if e.dependencyPPLNames.None? || e.dependencies.None? then Err(TypeError)
      else
        var lvVersion := LVVersion(e.minVersion);
        Ok(PipelineSpec(
          "defaultGroup",
          [ ("GIT_DIR", gitDirName),
            ("LV_VERSION", lvVersion),
            ("Dependency_PPL_Names", QuotedList(e.dependencyPPLNames.value)),
            ("APP_NAME", "TC_cRIO_Application") ],
          materials,
          [JobsStage("build", "yes", "yes", "manual", [("build_debug", RTJob(lvVersion, e.dependencies.value, gitDirName))])]))
  }

  /** `PipelineDefinition_RTapp.buildData`; `cache` is the module-level `cachedMaterials`,
    * which `generateMaterials` updates even when the join then fails. */
  method BuildData(e: RTEntry, cache: MaterialCache) returns (r: Result<PipelineSpec>)
    modifies cache
    ensures r == RTPipelineData(e, old(cache.entries))
    ensures cache.entries == CacheAfterCall(e.gitUrl, e.dependencies, old(cache.entries))
  {
    var gitDir := DirectoryFromGitRepo(e.gitUrl, None);
    if gitDir.Err? {
      return Err(gitDir.error);
    }
    var gitDirName := gitDir.value;
    var materials := GenerateMaterials(e.gitUrl, e.dependencies, cache);
    if e.dependencyPPLNames.None? || e.dependencies.None? {
      return Err(TypeError);
    }
    var lvVersion := LVVersion(e.minVersion);
    return Ok(PipelineSpec(
      "defaultGroup",
      [ ("GIT_DIR", gitDirName),
        ("LV_VERSION", lvVersion),
        ("Dependency_PPL_Names", QuotedList(e.dependencyPPLNames.value)),
        ("APP_NAME", "TC_cRIO_Application") ],
      materials.value,
      [JobsStage("build", "yes", "yes", "manual", [("build_debug", RTJob(lvVersion, e.dependencies.value, gitDirName))])]));
  }

  /** The built pipeline: `LV_VERSION` is the minimum version or `2019`, the job runs on the
    * `cRIO_Debug` profile of that version, and its tasks are the RT task list. */
  lemma {:induction false} RTPipelineShape(e: RTEntry, cache: map<string, Material>)
    requires RTPipelineData(e, cache).Ok?
    ensures var spec := RTPipelineData(e, cache).value;
      var lvVersion := if e.minVersion.Some? then e.minVersion.value else "2019";
      && Get(spec.parameters, "LV_VERSION") == Some(lvVersion)
      && Get(spec.parameters, "GIT_DIR") == Some(DirectoryNameMatch(e.gitUrl).value)
      && |spec.stages| == 1 && spec.stages[0].JobsStage?
      && match Get(spec.stages[0].jobs, "build_debug")
         case Some(job) =>
           && job.elasticProfileId == ProfileId(lvVersion, cRIO_Debug)
           && job.tasks == RTTasks(e.dependencies.value, DirectoryNameMatch(e.gitUrl).value)
         case None => false
  {
    var spec := RTPipelineData(e, cache).value;
    assert Keys(spec.parameters)[0] == "GIT_DIR" && Keys(spec.parameters)[1] == "LV_VERSION";
    assert spec.parameters[1].0 != spec.parameters[0].0;
    assert spec.parameters[1..][0] == ("LV_VERSION", LVVersion(e.minVersion));
  }

  /** Every dependency's fetch in the RT job asks for the package that the dependency's
    * own PPL pipeline publishes from its `cRIO_Debug` job. */
  lemma {:induction false} RTFetchesPublishedPackage(dependencies: seq<string>, gitDir: string, j: nat,
                                                      producerVersion: string, producerDeps: Option<seq<string>>,
                                                      producerUrls: Option<seq<string>>)
    requires j < |dependencies|
    ensures var fetch := RTTasks(dependencies, gitDir)[1 + j];
      var producer := GeneratePPLStage(GetPackageRootName(dependencies[j]), producerVersion, producerDeps, producerUrls);
      match Get(producer.jobs, RTTargetName)
      case Some(job) =>
        fetch.FetchExternalTask? && fetch.pipeline == dependencies[j] && fetch.job == RTTargetName &&
        |job.artifacts| == 3 && job.artifacts[2].ExternalArtifact? && fetch.artifactId == job.artifacts[2].id
      case None => false
  {
    var root := GetPackageRootName(dependencies[j]);
    var fetch := RTTasks(dependencies, gitDir)[1 + j];
    assert fetch.artifactId == root + "_" + RTTargetName + "_nipkg";
    assert TargetName(cRIO_Debug) == RTTargetName;
    StageJobPublishes(root, producerVersion, producerDeps, producerUrls, cRIO_Debug);
  }

  /** The materials of an RT pipeline hold, for each dependency, the material that the
    * shared cache holds after the call, which a PPL pipeline built earlier with the same
    * dependency also received. */
  lemma {:induction false} RTMaterialsFromCache(e: RTEntry, cache: map<string, Material>, d: string)
    requires RTPipelineData(e, cache).Ok? && d in e.dependencies.value
    ensures Get(RTPipelineData(e, cache).value.materials, MaterialName(d)) ==
      Some(CacheAfterCall(e.gitUrl, e.dependencies, cache)[MaterialName(d)])
  {
    var topDir := DirectoryFromGitRepo(e.gitUrl, None).value;
    MaterialsAfterGetDependency([(topDir, RepositoryMaterial(e.gitUrl, topDir))], cache, e.dependencies.value, d);
  }

  /** `buildYamlObject(pipelineDictionary)`: format 10 and the pipelines, with no common
    * section. */
  function RTConfiguration(pipelines: Dict<PipelineSpec>): (config: Configuration<PipelineSpec>)
    ensures config.formatVersion == 10 && config.common.None? && config.pipelines == pipelines
  {
    Configuration(10, None, pipelines)
  }
}
