# GoCD pipeline generation for LabVIEW packed libraries, in Dafny

This project models the scripts that write the GoCD configuration for building
LabVIEW packed project libraries (PPLs), and the small lock service the build
agents share. Each piece is proved against a specification.

- **The PPL generator** reads the repository list, one `<name>_REPO := <url>` line
  per library. It groups the libraries by repository. For each library it finds the
  `.lvlib` file, the optional `.mk` file (its dependencies) and the optional
  `.min_lv_version` file, and builds one entry per library. It then makes one
  `PipelineDefinition` per entry, sorts them by key, and raises the minimum LabVIEW
  version of every pipeline that depends, directly or through others, on one that
  needs a newer LabVIEW. It finishes with the format-10 configuration: a `common`
  section and the pipelines.
- **A PPL pipeline** has a `build_ppls` stage with one job per build target
  (Windows 32/64, cRIO; release/debug) and a `git_tag` stage. A job fetches the
  builder, then, when it has dependencies, fetches each dependency's package for the
  same target and links the target's PPL directory. It then installs its VI packages
  and runs the build. Every job publishes a package whose artifact id
  `<root>_<target>_nipkg` is exactly the id its dependents fetch.
- **Materials** are the pipeline's own git repository plus one pipeline material per
  dependency. The pipeline materials are taken from a cache that all pipelines share,
  so a dependency always gets the same material object.
- **The RT generator** writes the single cRIO real-time application pipeline. It has
  one `build_debug` job for `cRIO_Debug`, which fetches each dependency's `cRIO_Debug`
  package, links the debug `home` directory and runs the LabVIEW CLI build.
- **The lock service** holds one lock with a time and a random key. A lock older than
  the timeout may be taken over. Only the current key releases the lock.

Python values become datatypes: dicts are sequences of key/value pairs in insertion
order (`Dicts.Dict`), and exceptions are `Err` values of `Wrappers.Result`. State that
the scripts change in place is kept in place:

- the shared materials cache is the class `PipelineGenerationUtils.MaterialCache`;
- the pipeline objects whose minimum version is raised are the class
  `YamlGenerator.PipelineDefinition`;
- the two globals of the lock service are the class `MutexService.LockService`.

Each method that loops or changes state is proved equal to a specification function,
and the properties are proved about those functions.

## Model

| member | source | states |
|---|---|---|
| Dicts.Keys | scripts/Generate_PPL_Pipelines.py:40 | The keys of a dict, in insertion order, one per pair. |
| Dicts.Get | scripts/PipelineGenerationUtils.py:28 | `d.get(k)` finds a value exactly when `k` is a key. |
| Dicts.Insert | scripts/Generate_PPL_Pipelines.py:40 | `d[k] = v` keeps the key order and appends a new key at the end. |
| Dicts.InsertGet | scripts/Generate_PPL_Pipelines.py:40 | After `d[k] = v`, looking up `k` gives `v` and every other key gives what it gave before. |
| Dicts.InsertNew | scripts/Generate_PPL_Pipelines.py:40 | Storing under a new key appends the pair. |
| Dicts.UnionKeys | scripts/YamlGenerator.py:239-241 | The merge `a` then `b` keeps the keys of `a` first, in order, and its keys are those of `a` or `b`. |
| Dicts.UnionDistinct | scripts/YamlGenerator.py:239-241 | The merge `a` then `b` holds no key twice. |
| Dicts.UnionGet | scripts/YamlGenerator.py:239-241 | In the merge `a` then `b`, the value of `b` wins for a key of `b`; other keys keep the value of `a`. |
| Dicts.Flatten | scripts/Generate_PPL_Pipelines.py:137 | The merged dict holds no key twice and holds exactly the keys of the dicts merged. |
| Dicts.FlattenLaterWins | scripts/Generate_PPL_Pipelines.py:159 | When the merged dicts share a key, the last dict's value wins. |
| Dicts.SortByKey | scripts/Generate_PPL_Pipelines.py:170 | `dict(sorted(d.items()))` is ordered by key and is a permutation of the pairs. |
| Dicts.InsertByKey | scripts/Generate_PPL_Pipelines.py:170 | Inserting a pair with a new key into a sorted dict keeps it sorted, and adds exactly that pair. |
| Strings.TrimLeftDropsLeadingSpace | scripts/Generate_PPL_Pipelines.py:31 | `lstrip` removes exactly the leading whitespace: a suffix remains, and it starts with a non-space. |
| Strings.TrimRightDropsTrailingSpace | scripts/Generate_PPL_Pipelines.py:31 | `rstrip` removes exactly the trailing whitespace: a prefix remains, and it ends with a non-space. |
| Strings.StripDropsOuterSpace | scripts/Generate_PPL_Pipelines.py:31 | `strip` leaves the middle slice with whitespace only around it, and neither end of the result is whitespace. |
| Strings.StripKeepsTrimmed | scripts/NameTransformers.py:37 | A string with no outer whitespace is its own `strip`. |
| Strings.ReplaceChar | scripts/NameTransformers.py:5 | A one-character `replace` changes exactly the occurrences of that character. |
| Strings.SplitOn | scripts/NameTransformers.py:21 | `split(sep)` gives at least one part. |
| Strings.JoinSplitOn | scripts/NameTransformers.py:21 | `sep.join(s.split(sep)) == s`. |
| Strings.SplitOnPartsAvoidSep | scripts/NameTransformers.py:21 | No part of `s.split(sep)` contains `sep`. |
| Strings.SplitOnCharCount | scripts/NameTransformers.py:21 | Splitting on one character gives one more part than there are occurrences of it. |
| Strings.ReplaceAllStep | scripts/NameTransformers.py:21 | `replace` works left to right: a match at the front is replaced and the scan continues after it. |
| Strings.ReplaceAllOfChar | scripts/NameTransformers.py:22 | A multi-character `replace` with single characters is the one-character replace. |
| Strings.ReplaceAllAbsent | scripts/NameTransformers.py:27 | `replace` leaves a string with no occurrence of the pattern's first character unchanged. |
| Strings.ReplaceCharEach | scripts/NameTransformers.py:22 | The comprehension applies the replace to each part, in order. |
| Strings.ReplaceCharJoin | scripts/NameTransformers.py:21-22 | Replacing a character that is not in the separator commutes with `join`. |
| Strings.StrLessIrreflexive | scripts/Generate_PPL_Pipelines.py:170 | The key order of `sorted` is irreflexive. |
| Strings.StrLessTransitive | scripts/Generate_PPL_Pipelines.py:170 | The key order of `sorted` is transitive. |
| Strings.StrLessTotal | scripts/Generate_PPL_Pipelines.py:170 | Any two different keys are ordered one way or the other. |
| Strings.StrLessAsymmetric | scripts/Generate_PPL_Pipelines.py:170 | No two keys are ordered both ways. |
| Constants.WindowsValues | scripts/YamlGenerator.py:109 | A target's value is below 4 exactly for the `Windows_*` targets. |
| Constants.DebugValues | scripts/YamlGenerator.py:110 | A target's value is odd exactly for the `*_Debug` targets. |
| Constants.Windows64Values | scripts/YamlGenerator.py:105 | The two 64-bit Windows targets are the ones named `Windows_64_*`. |
| Constants.TargetFromName | scripts/YamlGenerator.py:74 | `Target[name]` gives the member of that name, or a `KeyError`. |
| Constants.TargetMembersEnumerate | scripts/YamlGenerator.py:103-104 | Every target is listed once, and `Target[name]` of its name gives it back. |
| Constants.MemberNames | scripts/YamlGenerator.py:48 | `_member_names_` follows the member list without repeats and holds exactly the names `Target[...]` accepts. |
| NameTransformers.ParseMkfileTargetToName | scripts/NameTransformers.py:4-6 | Every `+` becomes a space and nothing else changes. |
| NameTransformers.SanitizeForPipelineName | scripts/NameTransformers.py:9-16 | The name is cut to 255 characters, and each `+` or space in it becomes `-`. |
| NameTransformers.SanitizeIdempotent | scripts/NameTransformers.py:12 | Sanitising twice is sanitising once. |
| NameTransformers.SanitizeKeepsCleanName | scripts/NameTransformers.py:12 | A short name without `+` or spaces is kept unchanged. |
| NameTransformers.SanitizeTargetOrName | scripts/NameTransformers.py:4-16 | A make target and its library name sanitise to the same pipeline name. |
| NameTransformers.NamePatternAdmitsPunctuation | scripts/NameTransformers.py:14 | The class `[A-z0-9_.-]` as written accepts `lib^1`, which is not a valid pipeline name. |
| NameTransformers.SanitizedNameValid | scripts/NameTransformers.py:10-16 | The sanitised name holds only letters, digits, `_`, `.` and `-` exactly when the first 255 characters of the target hold only those, `+` or spaces. |
| NameTransformers.ParseDependencyList | scripts/NameTransformers.py:19-23 | The list of dependencies is never empty. |
| NameTransformers.EscapedSpacesRemoved | scripts/NameTransformers.py:21 | After `\ ` becomes `+`, the spaces left are exactly the unescaped ones. |
| NameTransformers.DependencyCount | scripts/NameTransformers.py:19-23 | There is one dependency more than there are unescaped spaces. |
| NameTransformers.DependencyListJoin | scripts/NameTransformers.py:19-23 | Joined by spaces, the dependencies give back the string with escaped spaces unescaped (and every `+` read as a space). |
| NameTransformers.CompileName | scripts/NameTransformers.py:33-34 | The pattern compiled from a name is no longer than the name; what it matches is stated by the lemmas below. |
| NameTransformers.CompileMatchesName | scripts/NameTransformers.py:33-34 | A name with no backslash and no newline matches the pattern compiled from it. |
| NameTransformers.CompileNameStep | scripts/NameTransformers.py:33-34 | A character other than a backslash compiles on its own: `.` to any character, anything else to itself. |
| NameTransformers.CompileLiteral | scripts/NameTransformers.py:33-34 | A word with no backslash and no dot compiles to its own characters, as literals. |
| NameTransformers.CompilePrefixMatches | scripts/NameTransformers.py:33-34 | A word with no backslash and no newline put in front of both the pattern source and the name keeps the match. |
| NameTransformers.EscapeSpacesStep | scripts/NameTransformers.py:27 | `replace(" ", r"\+")` writes a leading space as `\+` and keeps any other leading character. |
| NameTransformers.EscapeSpacesKeepsWord | scripts/NameTransformers.py:27 | Escaping spaces keeps a leading word that has no space. |
| NameTransformers.EscapedPrefix | scripts/NameTransformers.py:27 | A word with no space and no backslash starts the escaped name exactly when it starts the name. |
| NameTransformers.PlusPrefix | scripts/NameTransformers.py:27 | A word with no space and no `+` starts the name with `+` for spaces exactly when it starts the name. |
| NameTransformers.LvlibSkipsChar | scripts/NameTransformers.py:27 | `replace(".lvlib", "_Deps")` keeps a leading character other than `.`. |
| NameTransformers.DepVarNameLvlib | scripts/NameTransformers.py:27 | For a name starting with `.lvlib`, the variable name starts with `_Deps`, followed by that of the rest. |
| NameTransformers.DepVarNameSpace | scripts/NameTransformers.py:27 | For a name starting with a space, the variable name starts with `\+`, followed by that of the rest. |
| NameTransformers.DepVarNameOther | scripts/NameTransformers.py:27 | For a name starting with neither, the variable name keeps its first character, followed by that of the rest. |
| NameTransformers.DepVarNameSteps | scripts/NameTransformers.py:27 | The two chained `replace` calls equal one left-to-right pass: `.lvlib` to `_Deps`, a space to `\+`, any other character kept. |
| NameTransformers.MkVarNameStep | scripts/NameTransformers.py:27 | The make variable (spaces as `+`, `.lvlib` as `_Deps`) is built one step at a time. |
| NameTransformers.MkVarNameSteps | scripts/NameTransformers.py:27 | The make variable equals one left-to-right pass: `.lvlib` to `_Deps`, a space to `+`, any other character kept. |
| NameTransformers.LeftToRightMatches | scripts/NameTransformers.py:27-34 | For a name with no backslash and no newline, the pattern compiled from the left-to-right variable name matches the left-to-right make variable. |
| NameTransformers.DepVarNameMatchesMkVar | scripts/NameTransformers.py:27-34 | For a library name with no backslash and no newline, the pattern compiled from `depVarName` matches the make variable (spaces as `+`, `.lvlib` as `_Deps`) character for character. |
| NameTransformers.DefinitionLineMatches | scripts/NameTransformers.py:32-35 | A line `<name> := <value>` matches the definition pattern with the value as its group. |
| NameTransformers.FirstSomeSpec | scripts/NameTransformers.py:31-36 | The line loop returns the first line the matcher accepts, with its group, and returns nothing exactly when no line matches. |
| NameTransformers.FirstSomeAt | scripts/NameTransformers.py:31-36 | A line that matches after lines that do not is the one returned. |
| NameTransformers.FirstMatchSpec | scripts/NameTransformers.py:31-36 | With the definition pattern: the first matching line and its group, or nothing exactly when no line matches. |
| NameTransformers.FirstMatchAt | scripts/NameTransformers.py:31-36 | With the definition pattern, a match preceded only by non-matches is the one returned. |
| NameTransformers.ParseMkFile | scripts/NameTransformers.py:26-40 | The loop returns the dependency list of the first definition line, or None when there is none. |
| NameTransformers.MkFileFindsDefinition | scripts/NameTransformers.py:26-36 | A `.mk` file whose first line is `<make variable of the library> := <value>` gives the dependency list parsed from `<value>`. |
| NameTransformers.RequirementLines | scripts/NameTransformers.py:43-53 | Every line kept is a stripped line that is neither blank nor a comment. |
| NameTransformers.RequirementLinesMembers | scripts/NameTransformers.py:47-52 | A URL is kept exactly when it is the stripped form of some line that is neither blank nor a comment. |
| NameTransformers.RequirementLinesStep | scripts/NameTransformers.py:47-52 | The lines are taken in order, one at a time. |
| NameTransformers.ParseVipkgReqsFile | scripts/NameTransformers.py:43-53 | The loop returns the requirement lines in order, or None when there are none. |
| FileUtils.LastIndexOf | scripts/Generate_PPL_Pipelines.py:60 | The index of the last occurrence of a character, or None when it does not occur. |
| FileUtils.DirectoryNameMatch | scripts/Generate_PPL_Pipelines.py:60-62 | Group 1 of `^.*:.*/(.*)$` is the text after the last `/`, which has a `:` before it. |
| FileUtils.DirectoryOfUrl | scripts/Generate_PPL_Pipelines.py:60-62 | For `<host>:<path>/<name>` the directory is `<name>`. |
| FileUtils.DirectoryFromGitRepo | scripts/Generate_PPL_Pipelines.py:61-65 | An `AttributeError` exactly when the URL does not match; otherwise the name, under the output directory when one is given. |
| PipelineGenerationUtils.PackageRootNameRemovesSuffixes | scripts/PipelineGenerationUtils.py:5-6 | `getPackageRootName` removes every `.lvlibp` and keeps the rest in order. |
| PipelineGenerationUtils.PackageRootNameWithoutDot | scripts/PipelineGenerationUtils.py:5-6 | A name without a dot is its own root name. |
| PipelineGenerationUtils.GenerateFetchPPLJob | scripts/PipelineGenerationUtils.py:32-45 | The task fetches the dependency's `build_ppls` job for the target, with the artifact id `<root>_<target>_nipkg`. |
| PipelineGenerationUtils.MaterialCache.constructor | scripts/YamlGenerator.py:221 | The shared cache starts empty. |
| PipelineGenerationUtils.MaterialNameInjective | scripts/PipelineGenerationUtils.py:21 | Different dependencies get different material names. |
| PipelineGenerationUtils.CacheAfter | scripts/PipelineGenerationUtils.py:20-27 | After the loop the cache holds its old keys and one per dependency, and no other. |
| PipelineGenerationUtils.CacheAfterKeeps | scripts/PipelineGenerationUtils.py:22-27 | The loop never overwrites a cached material; a new dependency gets a fresh pipeline material. |
| PipelineGenerationUtils.MaterialsAfterGetDependency | scripts/PipelineGenerationUtils.py:28 | Every dependency's material in the result is the cached one. |
| PipelineGenerationUtils.MaterialsAfterGetOther | scripts/PipelineGenerationUtils.py:28 | A key that is no dependency's material name keeps its first value. |
| PipelineGenerationUtils.LoopStep | scripts/PipelineGenerationUtils.py:21-28 | One turn of the loop caches the dependency's material when missing and stores the cached one in the result. |
| PipelineGenerationUtils.AddDependencyMaterials | scripts/PipelineGenerationUtils.py:20-28 | The loop leaves the result and the cache as the specification functions say. |
| PipelineGenerationUtils.GenerateMaterials | scripts/PipelineGenerationUtils.py:9-29 | `generateMaterials` returns the specified materials and leaves the specified cache. |
| PipelineGenerationUtils.RepositoryMaterialPresent | scripts/PipelineGenerationUtils.py:10-18 | The repository's own git material is present, unless a dependency has the same name; without dependencies it is the only material and the cache is untouched. |
| PipelineGenerationUtils.DependencyMaterials | scripts/PipelineGenerationUtils.py:19-28 | Each dependency's material is in the new cache and in the result, and it is the old cached one when there was one. |
| PipelineGenerationUtils.CacheGrowsOnly | scripts/PipelineGenerationUtils.py:19-28 | A call only adds cache entries, and only for its own dependencies. |
| PipelineGenerationUtils.MaterialsSharedAcrossCalls | scripts/PipelineGenerationUtils.py:22-28 | Two pipelines that share a dependency get the same material for it. |
| VersionPropagation.NonDefault | scripts/YamlGenerator.py:287-291 | The keys listed are exactly those whose minimum version is set and is not the default. |
| VersionPropagation.NewElements | scripts/YamlGenerator.py:302-317 | One round adds exactly the keys not yet in the set whose dependencies meet the set. |
| VersionPropagation.ClosureRound | scripts/YamlGenerator.py:314-320 | A round that adds nothing ends the loop at the closure; one that adds keys keeps the closure and shrinks what is left. |
| VersionPropagation.RoundShrinksRemaining | scripts/YamlGenerator.py:314-320 | A round that adds keys leaves fewer keys outside the set, so the loop ends. |
| VersionPropagation.ClosureIsLeastClosedSuperset | scripts/YamlGenerator.py:314-320 | The loop's result contains the seeds, is closed under "depends on", and is inside every closed superset of the seeds. |
| VersionPropagation.ClosureOfClosed | scripts/YamlGenerator.py:314-320 | A closed set is its own closure. |
| VersionPropagation.NoNewElements | scripts/YamlGenerator.py:315-317 | A closed set gains nothing in a round. |
| VersionPropagation.Propagate | scripts/YamlGenerator.py:323-330 | Keys and dependencies are kept; exactly the keys in the closure get version 2021. |
| VersionPropagation.PropagateWithoutSeeds | scripts/YamlGenerator.py:296-298 | With no non-default pipeline nothing changes. |
| VersionPropagation.UpgradedExactly | scripts/YamlGenerator.py:323-330 | A version only changes by being raised to 2021. Non-default pipelines are raised, and so is any pipeline that depends on a pipeline to update. |
| VersionPropagation.SeedsAfterPropagate | scripts/YamlGenerator.py:294-330 | After the update, the non-default pipelines are exactly the ones updated. |
| VersionPropagation.UpdatedStaysClosed | scripts/YamlGenerator.py:294-330 | After the update, no pipeline outside the updated set depends on one inside it. |
| VersionPropagation.PropagateIdempotent | scripts/YamlGenerator.py:294-330 | Running the update a second time changes nothing. |
| YamlGenerator.BuildMkLinkTasks | scripts/YamlGenerator.py:47-49 | The loop builds the junction table, one task per target name, in member order. |
| YamlGenerator.MkLinkLookup | scripts/YamlGenerator.py:26-49 | The table has distinct keys, and `mklink_tasks[name]` is the target's junction task exactly for target names. |
| YamlGenerator.BuildEnvironmentVariables | scripts/YamlGenerator.py:102-113 | The loop fills the environment of every target. |
| YamlGenerator.EnvironmentKeysDistinct | scripts/YamlGenerator.py:106-113 | A target's environment holds each variable once. |
| YamlGenerator.EnvironmentNamesTarget | scripts/YamlGenerator.py:107-109 | `TARGET_NAME` is the target's name, and `TARGET_SYSTEM` is `Windows` exactly for `Windows_*` targets and `cRIO` otherwise. |
| YamlGenerator.EnvironmentDebugFlag | scripts/YamlGenerator.py:110 | `IS_DEBUG_BUILD` is 1 exactly for `*_Debug` targets. |
| YamlGenerator.EnvironmentBitnessFlag | scripts/YamlGenerator.py:105-111 | `BITNESS_FLAG` is `--x64 -v` exactly for `Windows_64_*` targets. |
| YamlGenerator.BuildGitTagTasks | scripts/YamlGenerator.py:176-190 | The loop builds the `git_tag` task list. |
| YamlGenerator.GeneratePPLJobTasksWithDeps | scripts/YamlGenerator.py:60-97 | The method returns the specified task list or error. |
| YamlGenerator.JobTasksErrors | scripts/YamlGenerator.py:60-74 | `ValueError` exactly when both lists are None; otherwise an error exactly when the target name is unknown. |
| YamlGenerator.JobTasksEnds | scripts/YamlGenerator.py:92-97 | The tasks start with the builder fetch and expansion and end with `ls` and the build. Their length is 4, plus the dependencies and 3 when dependencies are given, plus one per VI package. |
| YamlGenerator.JobTasksDependencyOrder | scripts/YamlGenerator.py:66-71 | With dependencies: `create_ppl_dir`, one fetch per dependency in order for the target, the target's junction, then the listing. |
| YamlGenerator.DependencyBlockLayout | scripts/YamlGenerator.py:66-71 | The dependency block, element by element. |
| YamlGenerator.JobTasksVipkgOrder | scripts/YamlGenerator.py:72-91 | One installer per URL, in order, into the LabVIEW of the version and target, right after the dependency block. |
| YamlGenerator.JobTasksParts | scripts/YamlGenerator.py:92-97 | The task list is the builder tasks, the dependency block, the installers and the closing tasks. |
| YamlGenerator.GeneratePPLJobList | scripts/YamlGenerator.py:116-146 | The loop returns the specified job list. |
| YamlGenerator.JobOf | scripts/YamlGenerator.py:116-146 | There is one job per target name, in member order, and each is that target's job. |
| YamlGenerator.JobProperties | scripts/YamlGenerator.py:120-145 | Timeout 15, the version's profile, the target's environment, and three artifacts, the third being `<root>_<target>_nipkg`. The job uses the shared no-dependency tasks exactly when it has no dependencies and no VI packages. |
| YamlGenerator.GitTagFetchesEveryJob | scripts/YamlGenerator.py:163-205 | Each `git_tag` fetch names a job of the `build_ppls` stage, with `artifacts/<job>` as destination, and every job is fetched. |
| YamlGenerator.GitTagTasksLayout | scripts/YamlGenerator.py:176-190 | The builder tasks, then one fetch per target name in order, then `dir` and the publish script. |
| YamlGenerator.FetchedIdIsPublishedId | scripts/YamlGenerator.py:120-132 | The id a job fetches for a dependency is the id the dependency's job for the same target publishes. |
| YamlGenerator.GetCommonSection | scripts/YamlGenerator.py:209-218 | The loop returns the specified common section. |
| YamlGenerator.CommonSectionKeys | scripts/YamlGenerator.py:209-218 | The four fixed keys come first, then `mklink_task_<target>` in member order, and no key repeats. |
| YamlGenerator.CommonKeysDistinct | scripts/YamlGenerator.py:209-218 | No key of the common section repeats. |
| YamlGenerator.CommonSectionLayout | scripts/YamlGenerator.py:209-218 | The four fixed keys come first, then one junction key per target. |
| YamlGenerator.CommonSectionLookup | scripts/YamlGenerator.py:209-218 | `PPL_Job` holds the no-dependency tasks, and each `mklink_task_<target>` holds that target's junction. |
| YamlGenerator.Quoted | scripts/YamlGenerator.py:243 | One quoted name per name. |
| YamlGenerator.QuotedListJoinsQuotedNames | scripts/YamlGenerator.py:243 | The quoted dependency list is the quoted names joined by spaces. |
| YamlGenerator.PipelineDefinition.constructor | scripts/YamlGenerator.py:227-236 | The object carries the key and the entry's values. |
| YamlGenerator.PipelineDefinition.BuildData | scripts/YamlGenerator.py:238-270 | `buildData` returns the specified record or error and updates the shared cache as `generateMaterials` does. |
| YamlGenerator.PipelineDataErrors | scripts/YamlGenerator.py:238-246 | `AttributeError` exactly for a URL without a directory name; `TypeError` exactly for dependencies without PPL names; no other failure. |
| YamlGenerator.PipelineDataParameters | scripts/YamlGenerator.py:242-259 | `LV_VERSION` is the minimum version or 2019, `Dependency_PPL_Names` is the quoted list (empty without dependencies), `GIT_DIR` is the directory and `PPL_Name` is the PPL name. |
| YamlGenerator.ParameterLookup | scripts/YamlGenerator.py:253-259 | Each parameter holds its value. |
| YamlGenerator.PipelineDataStages | scripts/YamlGenerator.py:251-269 | Group `PPLs`; the `build_ppls` stage, whose job for each target publishes `<root>_<target>_nipkg`, then the `git_tag` stage. |
| YamlGenerator.StageJobPublishes | scripts/YamlGenerator.py:149-160 | The stage's job for each target publishes `<root>_<target>_nipkg`. |
| YamlGenerator.PipelineDataMaterials | scripts/YamlGenerator.py:239-241 | `builder` is the first material; the others are the generated materials. |
| YamlGenerator.BuilderFirst | scripts/YamlGenerator.py:239 | The builder material merged with the generated ones starts with `builder` and holds exactly `builder` and the generated keys. |
| YamlGenerator.BuildYamlObject | scripts/YamlGenerator.py:278-284 | Format version 10, the common section, and the pipelines. |
| YamlGenerator.Snapshot | scripts/YamlGenerator.py:294-331 | What the version rule reads: each key with its object's dependencies and minimum version. |
| YamlGenerator.FindNonDefault | scripts/YamlGenerator.py:287-291 | The keys listed are exactly those whose object's minimum version is set and is not the default. |
| YamlGenerator.UpdateMinimumVersions | scripts/YamlGenerator.py:294-331 | The same dictionary comes back, and the objects' versions become the propagated versions of the old ones. |
| YamlGenerator.CollectDependents | scripts/YamlGenerator.py:314-320 | The `while True` loop ends with the closure of the seeds. |
| YamlGenerator.RaiseVersions | scripts/YamlGenerator.py:323-330 | Exactly the objects whose key is to be updated get version 2021. |
| GeneratePPLPipelines.GetLibraryName | scripts/Generate_PPL_Pipelines.py:47-49 | The same mapping as the make-target name: `+` read as a space. |
| GeneratePPLPipelines.GetSanitizedName | scripts/Generate_PPL_Pipelines.py:51-58 | The same sanitising as the pipeline-name transformer. |
| GeneratePPLPipelines.SanitizeEach | scripts/Generate_PPL_Pipelines.py:128 | `map(getSanitizedName, ...)`, element by element. |
| GeneratePPLPipelines.RepoValue | scripts/Generate_PPL_Pipelines.py:25 | `\s?:=\s?(.*)$` matches only text starting with `:=`, possibly after one whitespace, and its group has no newline. |
| GeneratePPLPipelines.FindRepo | scripts/Generate_PPL_Pipelines.py:25 | A position found by the lazy `(.*?)` is where `_REPO` and a valid rest begin. |
| GeneratePPLPipelines.FindRepoFound | scripts/Generate_PPL_Pipelines.py:25 | The lazy group stops at the first such position, with no newline before it. |
| GeneratePPLPipelines.FindRepoMissing | scripts/Generate_PPL_Pipelines.py:25 | No result means no such position is reachable without crossing a newline. |
| GeneratePPLPipelines.FindRepoReaches | scripts/Generate_PPL_Pipelines.py:25 | The first reachable position is the one found. |
| GeneratePPLPipelines.RepoLineMatchSpec | scripts/Generate_PPL_Pipelines.py:25 | The line matches exactly when some reachable position starts `_REPO` and a valid rest; group 1 is the text before the first such position and group 2 is the value. |
| GeneratePPLPipelines.RepoDefinitionMatches | scripts/Generate_PPL_Pipelines.py:25 | `<name>_REPO := <url>` gives the groups `<name>` and `<url>`. |
| GeneratePPLPipelines.RepoValueOfDefinition | scripts/Generate_PPL_Pipelines.py:25 | ` := <url>` gives the group `<url>`. |
| GeneratePPLPipelines.NoRepoInName | scripts/Generate_PPL_Pipelines.py:25 | A name without `:` hides no earlier match. |
| GeneratePPLPipelines.Repos | scripts/Generate_PPL_Pipelines.py:26-41 | The `repos` dict holds each key once. |
| GeneratePPLPipelines.ReposStep | scripts/Generate_PPL_Pipelines.py:28-40 | Each line adds its entry with `d[k] = v`, in order. |
| GeneratePPLPipelines.GetLibrariesAndUrls | scripts/Generate_PPL_Pipelines.py:21-45 | `RuntimeError` for a missing path; otherwise the dict the loop fills. |
| GeneratePPLPipelines.ManifestDefinitionLine | scripts/Generate_PPL_Pipelines.py:31-40 | A definition line gives the sanitised name as key, the URL (prefixed with `git@github.com:` for `oist/`), and `<name with + as space>.lvlib`. |
| GeneratePPLPipelines.ReposLastLineWins | scripts/Generate_PPL_Pipelines.py:28-40 | A later line for the same key replaces the earlier value, and a comment line changes nothing. |
| GeneratePPLPipelines.ReposKeys | scripts/Generate_PPL_Pipelines.py:28-40 | A key is in `repos` exactly when some line gives it. |
| GeneratePPLPipelines.GenerateEntryDictionary | scripts/Generate_PPL_Pipelines.py:67-78 | One entry under the pipeline name, with artifact id `<name>_nipkg` and no VI packages. |
| GeneratePPLPipelines.EntryLibPathJoin | scripts/Generate_PPL_Pipelines.py:110 | The library path is the path found, with `/` for the separator, under the checkout directory and one `/`; it is the path found alone when that directory name is empty. |
| GeneratePPLPipelines.LibraryEntryOutcome | scripts/Generate_PPL_Pipelines.py:106-129 | The entry fails exactly for a missing library file, a disallowed minimum version, or a `.mk` file without a definition line, with those messages. Otherwise its key, names, version and dependencies are those read, and its library path is the joined path. |
| GeneratePPLPipelines.HandleUrl | scripts/Generate_PPL_Pipelines.py:99-130 | The loop returns the specified entries or the first error. |
| GeneratePPLPipelines.EntriesOfPrefixError | scripts/Generate_PPL_Pipelines.py:106-129 | The first library that fails ends the loop with its error. |
| GeneratePPLPipelines.GeneratedEntryBuilds | scripts/Generate_PPL_Pipelines.py:124-129 | A generated entry never has dependencies without names, so its `buildData` fails only on its git URL. |
| GeneratePPLPipelines.EntriesOfOk | scripts/Generate_PPL_Pipelines.py:106-130 | `handleUrl` succeeds exactly when every library's entry does. |
| GeneratePPLPipelines.EntriesOfLast | scripts/Generate_PPL_Pipelines.py:106-130 | Success over a list is success over its prefix and its last library. |
| GeneratePPLPipelines.EntriesOfValues | scripts/Generate_PPL_Pipelines.py:106-130 | On success, one entry per library, in order, each that library's entry. |
| GeneratePPLPipelines.LibrariesOfUrl | scripts/Generate_PPL_Pipelines.py:146 | The file names listed are exactly those of the entries with that URL. |
| GeneratePPLPipelines.GroupByUrl | scripts/Generate_PPL_Pipelines.py:143-147 | One key per unique URL, each with the file names of its entries. |
| GeneratePPLPipelines.GroupingListsOwnUrl | scripts/Generate_PPL_Pipelines.py:143-147 | Every library is listed under its own URL, and only there. |
| GeneratePPLPipelines.FlattenSingletons | scripts/Generate_PPL_Pipelines.py:165-170 | Merging one-pair dicts with distinct keys lists the pairs in order. |
| GeneratePPLPipelines.SortedDefinitions | scripts/Generate_PPL_Pipelines.py:165-170 | Sorting keeps the keys, and each key's object carries that key and its values. |
| GeneratePPLPipelines.BuildPipelineDict | scripts/Generate_PPL_Pipelines.py:158-170 | Sorted by key, with the keys of the flattened results, each key with its own new object holding its values. |
| GeneratePPLPipelines.EntryNodes | scripts/Generate_PPL_Pipelines.py:159 | One node per key, in order. |
| GeneratePPLPipelines.GenerateConfiguration | scripts/Generate_PPL_Pipelines.py:158-175 | Format 10 with the common section, with the pipelines sorted and keyed by entry. Each object holds its key and the values of the merged entry for that key (the later entry wins), except that its minimum version is the one after propagation. |
| GenerateRTPipeline.CreateHomeLinkTask | scripts/Generate_RT_Pipeline.py:11-34 | A PowerShell junction from `PPLs\cRIO-9045\home` to the build type's directory. |
| GenerateRTPipeline.HomeLinkOnlyForCRIO | scripts/Generate_RT_Pipeline.py:12-16 | The junction has a real target exactly for the cRIO targets (`None` otherwise). |
| GenerateRTPipeline.HomeLinkFollowsBuildType | scripts/Generate_RT_Pipeline.py:12-16 | For a cRIO target, the target directory is the build type's: `Debug_32` for debug and `Release_32` for release. |
| GenerateRTPipeline.RTTasks | scripts/Generate_RT_Pipeline.py:57-60 | `create_ppl_dir`, one `cRIO_Debug` fetch per dependency in order, the debug home junction, then the build. |
| GenerateRTPipeline.RTPipelineData | scripts/Generate_RT_Pipeline.py:52-132 | Fails exactly for a URL without a directory name (`AttributeError`) or for missing dependencies or names. |
| GenerateRTPipeline.BuildData | scripts/Generate_RT_Pipeline.py:52-132 | `buildData` returns the specified record or error and updates the shared cache as `generateMaterials` does. |
| GenerateRTPipeline.RTPipelineShape | scripts/Generate_RT_Pipeline.py:62-132 | `LV_VERSION` is the minimum version or 2019 and `GIT_DIR` is the directory. There is one stage, whose `build_debug` job has the `cRIO_Debug` profile and the specified tasks. |
| GenerateRTPipeline.RTFetchesPublishedPackage | scripts/Generate_RT_Pipeline.py:57-60 | Each fetch asks for the id that the dependency's PPL pipeline publishes from its `cRIO_Debug` job. |
| GenerateRTPipeline.RTMaterialsFromCache | scripts/Generate_RT_Pipeline.py:55 | Each dependency's material is the one in the shared cache after the call. |
| GenerateRTPipeline.RTConfiguration | scripts/Generate_RT_Pipeline.py:140-142 | Format 10, no common section, and the pipelines. |
| MutexService.LockStep | mutex-image/main.py:13-25 | The lock is granted exactly when it is free or expired; the new time and key are recorded and the key returned; otherwise nothing changes and 0 is returned. |
| MutexService.UnlockStep | mutex-image/main.py:36-43 | Released exactly when the key is the current one, which clears the lock; otherwise nothing changes. |
| MutexService.StepsKeepConsistent | mutex-image/main.py:13-43 | Time and key are always set and cleared together. |
| MutexService.HeldLockExcludes | mutex-image/main.py:17-25 | A lock taken at `t` refuses every request before `t + timeout`, unchanged. |
| MutexService.ExpiredLockTakenOver | mutex-image/main.py:21-24 | An expired lock goes to the next request, with the new time and key. |
| MutexService.OnlyHolderReleases | mutex-image/main.py:36-43 | Only the holder's key releases the lock, after which anyone gets it at once. |
| MutexService.NothingToRelease | mutex-image/main.py:36-43 | With no lock held, nothing is released. |
| MutexService.LockResponse | mutex-image/main.py:28-33 | 202 with the key on success, 409 otherwise. |
| MutexService.HeldLockAtZeroReportedMissing | mutex-image/main.py:53-54 | As written, a lock taken at clock reading 0 is reported as absent when the wrong key is sent. |
| MutexService.UnlockResponse | mutex-image/main.py:46-55 | 202 exactly on release, 409 exactly when no lock is held, 401 exactly for a held lock and another key. |
| MutexService.UnlockAnswers | mutex-image/main.py:46-55 | The three answers tell apart release, no lock, and a lock held under another key. |
| MutexService.LockService.constructor | mutex-image/main.py:6-11 | The service starts with no lock and the given timeout. |
| MutexService.LockService.Lock | mutex-image/main.py:13-25 | `_lock_req` changes the globals as the lock step says. |
| MutexService.LockService.Unlock | mutex-image/main.py:36-43 | `_unlock_req` changes the globals as the unlock step says. |
| MutexService.LockService.LockRequest | mutex-image/main.py:28-33 | `PUT /lock` answers as specified and keeps the globals consistent. |
| MutexService.LockService.UnlockRequest | mutex-image/main.py:46-55 | `PUT /unlock` answers with the corrected test and keeps the globals consistent. |

## Left out

- The `Constants` module is not part of this model. The six targets, their order and
  their values 0 to 5 follow its uses: a value below 4 means Windows, an odd value
  means debug, and there are six packages per library. The tables `profileId`,
  `labviewDir` and `targetPathEnds` are kept symbolic. The fixed tasks and materials
  are constructors without fields.
- A `KeyError` from `profileId[lv_version]` or `labviewDir[lv_version]` for a version
  missing from those tables is not modelled. Versions are checked against
  `allowedVersionStrings` before they are used.
- File and process I/O is not modelled. A file is given as its lines or its content.
  What `find_file` returned for a library is an input (`LibraryFiles`); the directory
  walk of `scripts/FileUtils.py:3-8` is not modelled.
- Cloning is not modelled: `cloneRepo` and `updateRepo` in `scripts/GitTools.py` run
  `git` in a subprocess, and their errors are not modelled.
- `os.path.join` is modelled for a relative second part: an empty first part gives the
  second part alone, and the separator is added only when the first part does not end
  in one. An absolute second part, which would replace the first, and the drive
  letters of Windows paths are not modelled.
- `directoryFromGitRepo` is imported from `FileUtils` by `scripts/YamlGenerator.py`,
  `scripts/PipelineGenerationUtils.py` and `scripts/Generate_RT_Pipeline.py`, but
  `scripts/FileUtils.py` defines only `find_file`. The module `FileUtils` here takes it
  to be the definition at `scripts/Generate_PPL_Pipelines.py:60-65`. `Path(output_dir) / dest`
  is modelled as joining with `/`.
- `print` calls are not modelled: progress lines and the warnings for an invalid
  pipeline name or an unparsable `.mk` file. The YAML dump, `to_yaml` and writing the
  output file are not modelled either.
- The main block of `scripts/Generate_PPL_Pipelines.py` runs `handleUrl` in a process
  pool, over a set of URLs whose iteration order is not fixed. The model takes the
  per-URL results as a given sequence. The timing and the two unused dicts of lines
  162-163 are left out.
- The main block of `scripts/Generate_RT_Pipeline.py` (lines 145-183) is not modelled:
  it clones, reads one `.mk` file and writes the file. It passes `timeout=20` to a
  `cloneRepo` that takes no such parameter.
- `generate_ppl_pipelines.dfy` models `parseMkFile` of `scripts/Generate_PPL_Pipelines.py:80-95`
  by `NameTransformers.MkFileDependencies`, since it is the same code as
  `scripts/NameTransformers.py:26-40`.
- Regular expressions are modelled only for the patterns used. `\s` and `strip()`
  use Python's whitespace set for `str`. In the pattern made from a library name,
  `\x` is the literal `x` and `.` is any character but a newline. Every other
  character, including regex operators such as `*`, `?`, `(` or a bare `+`, is read
  as a literal. A `\` at the end of a name is a literal backslash, where `re` would
  raise. Library names reach this code with spaces, not `+`, so this matters only
  for names with other regex operators.
- YamlGenerator.UpdateMinimumVersions: requires that no two keys share an object. The
  generator builds one new object per key; aliasing between keys is not modelled.
- GenerateRTPipeline.HomeLinkFollowsBuildType: stated for the two cRIO targets only;
  for the Windows targets `GenerateRTPipeline.HomeLinkOnlyForCRIO` says the path holds
  `None`.
- The HTTP layer of the lock service is not modelled (Flask, routing, turning the
  `mutexKey` argument into an int, the `-1` default, the port). Concurrent requests
  are not modelled: the model handles one request at a time.
- MutexService.LockStep: the clock reading, the random key from `randint(0, 999999)`
  and the `LOCK_TIMEOUT` environment value are parameters. The clock reading is an
  integer rather than a float of seconds.

## Findings

| source | as written | input that shows it | evidently intended | confidence | as-written member | corrected member |
|---|---|---|---|---|---|---|
| scripts/NameTransformers.py:14 | The check `^[A-z0-9_.-]*$` uses the range `A-z`, which also covers `[ \ ] ^` and the backquote. | `lib^1`: no warning is printed, although the comment above the check allows only letters, digits, `-`, `_` and `.`. | `[A-Za-z0-9_.-]`, as the comment above the check says; the same pattern is at scripts/Generate_PPL_Pipelines.py:56. | high; not executed | NameTransformers.NamePatternAdmitsPunctuation | NameTransformers.SanitizedNameValid |
| mutex-image/main.py:53 | `if not lock_time` treats a lock taken at clock reading 0 as no lock. | Lock at clock reading 0, then unlock with another key: the answer is 409 "no current lock" instead of 401. | `if lock_time is None`. | low (a clock reading of exactly 0 does not happen in practice); not executed | MutexService.HeldLockAtZeroReportedMissing | MutexService.UnlockResponse |
