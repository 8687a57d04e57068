/**
 * The records the generators build and hand to the YAML dumper: tasks, jobs,
 * stages, materials and pipelines. The fixed task and template values that
 * come from `Constants` are constructors without fields.
 */
module PipelineRecords {
  import opened Wrappers
  import opened Dicts
  import opened Constants

  datatype Task =
    | FetchBuilderTask        // fetch_builder_task
    | ExpandBuilderTask       // expand_builder_task
    | LsTask                  // ls_task
    | LsCurrentDirTask        // ls_currentDir_task
    | GcliBuildTask           // gcli_build_task
    | CreatePplDirTask        // create_ppl_dir
      /** Junction `PPLs\Current` to `targetPathEnds[targetName]` (`get_mklink_task`). */
    | MkLinkTask(targetName: string)
      /** Fetch of an externally stored artifact of another pipeline (`generateFetchPPLJob`). */
    | FetchExternalTask(pipeline: string, stage: string, job: string, artifactId: string)
      /** The VI package installer plugin task. */
    | VipkgInstallTask(url: string, labviewDirectory: LabVIEWDir, verbose: bool)
      /** Fetch of a directory built by a job of this pipeline (`get_fetch_built_ppl_task`). */
    | FetchBuiltTask(stage: string, job: string, isFile: bool, source: string, destination: string)
      /** An `exec` task run if the previous ones passed. */
    | ExecTask(command: string, arguments: seq<string>)

  datatype Material =
    | BuilderMaterial         // builderMaterial
    | GitMaterial(git: string, destination: string, autoUpdate: bool, shallowClone: bool)
    | PipelineMaterial(pipeline: string, stage: string, ignoreForScheduling: bool)

  datatype Artifact =
    | BuildArtifact(source: string, destination: string)
    | ExternalArtifact(id: string, storeId: string, packagePath: string)

  datatype Scalar = Str(s: string) | Int(i: int)

  datatype Job = Job(
    timeout: nat,
    elasticProfileId: ProfileId,
    environment: Dict<Scalar>,
    artifacts: seq<Artifact>,
    tasks: seq<Task>)

  datatype Stage =
      /** A stage whose work is a map of named jobs. */
    | JobsStage(name: string, fetchMaterials: string, cleanWorkspace: string, approval: string, jobs: Dict<Job>)
      /** A stage with a single, unnamed job. */
    | TasksStage(name: string, approval: string, fetchMaterials: string, environment: Dict<string>,
                 resources: seq<string>, tasks: seq<Task>)

  /** What `buildData` returns for one pipeline. */
  datatype PipelineSpec = PipelineSpec(
    group: string,
    parameters: Dict<string>,
    materials: Dict<Material>,
    stages: seq<Stage>)

  /** A value of the shared `common` section. */
  datatype CommonEntry =
    | ViaPluginVersion        // via_plugin_version
    | DirJob                  // dir_job
    | ViaJob                  // via_job
    | TaskList(tasks: seq<Task>)
    | SingleTask(task: Task)

  /** The whole document: format version, optional common section, pipelines by name. */
  datatype Configuration<P> = Configuration(formatVersion: int, common: Option<Dict<CommonEntry>>, pipelines: Dict<P>)

  /** The values of one entry made by `generateEntryDictionary` (plus the optional
    * `vipkgUrls` key that `PipelineDefinition` reads with `get`). */
  datatype EntryValues = EntryValues(
    artifactId: string,
    gitUrl: string,
    libPath: string,
    pplName: string,
    dependencies: Option<seq<string>>,
    dependencyPPLNames: Option<seq<string>>,
    minLabVIEWVersion: Option<string>,
    vipkgUrls: Option<seq<string>>)
}
