/**
 * Package names, fetch tasks and the materials of a pipeline. Dependency
 * materials live in a cache dictionary owned by the caller: the first pipeline
 * that names a dependency creates its material, every later one reuses it.
 */
module PipelineGenerationUtils {
  import opened Wrappers
  import opened Strings
  import opened Dicts
  import opened Constants
  import opened PipelineRecords
  import opened FileUtils

  /** `getPackageRootName`: `pipelineName.replace(".lvlibp", "")`. */
  function GetPackageRootName(pipelineName: string): string {
    ReplaceAll(pipelineName, ".lvlibp", "")
  }

  /** Every `.lvlibp` is removed and the text between them is kept, in order. */
  lemma {:induction false} PackageRootNameRemovesSuffixes(pipelineName: string)
    ensures var pieces := SplitOn(pipelineName, ".lvlibp");
      && Join(pieces, ".lvlibp") == pipelineName
      && GetPackageRootName(pipelineName) == Join(pieces, "")
      && forall i :: 0 <= i < |pieces| ==> !Occurs(".lvlibp", pieces[i])
  {
    JoinSplitOn(pipelineName, ".lvlibp");
    SplitOnPartsAvoidSep(pipelineName, ".lvlibp");
  }

  /** A name without a `.` is its own root name. */
  lemma {:induction false} PackageRootNameWithoutDot(pipelineName: string)
    requires '.' !in pipelineName
    ensures GetPackageRootName(pipelineName) == pipelineName
  {
    ReplaceAllAbsent(pipelineName, ".lvlibp", "");
  }

  /** The external artifact id of a pipeline's package for one target. */
  function PackageId(pipelineName: string, targetName: string): string {
    GetPackageRootName(pipelineName) + "_" + targetName + "_nipkg"
  }

  /** `generateFetchPPLJob`: fetch, from the `build_ppls` stage of the dependency's
    * pipeline, the package its job for the target publishes. */
  function GenerateFetchPPLJob(dependency: string, targetName: string): (t: Task)
    ensures t.FetchExternalTask? && t.pipeline == dependency && t.stage == "build_ppls"
    ensures t.job == targetName && t.artifactId == PackageId(dependency, targetName)
  {
    var dependencyRootName := GetPackageRootName(dependency);
    FetchExternalTask(dependency, "build_ppls", targetName, dependencyRootName + "_" + targetName + "_nipkg")
  }

  // ---------------------------------------------------------------------------
  // `generateMaterials` and its cache.

  /** The caller-owned `cachedMaterials` dictionary. */
  class MaterialCache {
    var entries: map<string, Material>

    constructor ()
      ensures entries == map[]
    {
      entries := map[];
    }
  }

  function MaterialName(dependency: string): string {
    dependency + "_pipelineMaterial"
  }

  lemma {:induction false} MaterialNameInjective(a: string, b: string)
    requires MaterialName(a) == MaterialName(b)
    ensures a == b
  {
    assert a == MaterialName(a)[..|a|];
  }

  /** The material made for a dependency the cache does not hold yet. */
  function NewDependencyMaterial(dependency: string): Material {
    PipelineMaterial(dependency, "build_ppls", false)
  }

  /** The material of the pipeline's own repository. */
  function RepositoryMaterial(gitUrl: string, topDir: string): Material {
    GitMaterial(gitUrl, topDir, false, false)
  }

  /** The cache after the loop has visited `deps`. */
  function CacheAfter(cache: map<string, Material>, deps: seq<string>): (r: map<string, Material>)
    ensures forall k :: k in r <==> k in cache || exists d :: d in deps && k == MaterialName(d)
    decreases |deps|
  {
    if deps == [] then cache
    else
      var prefix := deps[..|deps| - 1];
      var c := CacheAfter(cache, prefix);
      var last := deps[|deps| - 1];
      assert forall d :: d in deps <==> d in prefix || d == last;
      if MaterialName(last) in c then c else c[MaterialName(last) := NewDependencyMaterial(last)]
  }

  /** The local `materials` dict after the loop has visited `deps`. */
  function MaterialsAfter(init: Dict<Material>, cache: map<string, Material>, deps: seq<string>): Dict<Material>
    decreases |deps|
  {
    if deps == [] then init
    else
      var name := MaterialName(deps[|deps| - 1]);
      assert deps[|deps| - 1] in deps;
      Insert(MaterialsAfter(init, cache, deps[..|deps| - 1]), name, CacheAfter(cache, deps)[name])
  }

  /** The cache only grows: an entry once there keeps its value, and a dependency's
    * material is created from the first dependency of that name. */
  lemma {:induction false} CacheAfterKeeps(cache: map<string, Material>, deps: seq<string>)
    ensures forall k :: k in cache ==> CacheAfter(cache, deps)[k] == cache[k]
    ensures forall d :: d in deps && MaterialName(d) !in cache ==>
      CacheAfter(cache, deps)[MaterialName(d)] == NewDependencyMaterial(d)
    decreases |deps|
  {
    if deps != [] {
      var prefix := deps[..|deps| - 1];
      var last := deps[|deps| - 1];
      CacheAfterKeeps(cache, prefix);
      forall d | d in deps && MaterialName(d) !in cache
        ensures CacheAfter(cache, deps)[MaterialName(d)] == NewDependencyMaterial(d)
      {
        if d != last {
          assert d in prefix;
        } else if MaterialName(last) in CacheAfter(cache, prefix) {
          var d' :| d' in prefix && MaterialName(last) == MaterialName(d');
          MaterialNameInjective(last, d');
        }
      }
    }
  }

  lemma {:induction false} CacheAfterLastKeeps(cache: map<string, Material>, deps: seq<string>, k: string)
    requires deps != [] && k in CacheAfter(cache, deps[..|deps| - 1])
    ensures CacheAfter(cache, deps)[k] == CacheAfter(cache, deps[..|deps| - 1])[k]
  {
    var c := CacheAfter(cache, deps[..|deps| - 1]);
    assert [deps[|deps| - 1]][..0] == [];
    assert CacheAfter(cache, deps) == CacheAfter(c, [deps[|deps| - 1]]);
    CacheAfterKeeps(c, [deps[|deps| - 1]]);
  }

  /** A dependency's material in the result is the one in the cache. */
  lemma {:induction false} MaterialsAfterGetDependency(init: Dict<Material>, cache: map<string, Material>, deps: seq<string>, d: string)
    requires d in deps
    ensures Get(MaterialsAfter(init, cache, deps), MaterialName(d)) == Some(CacheAfter(cache, deps)[MaterialName(d)])
    decreases |deps|
  {
    var prefix := deps[..|deps| - 1];
    var last := deps[|deps| - 1];
    var name := MaterialName(last);
    var k := MaterialName(d);
    var m := MaterialsAfter(init, cache, prefix);
    var v := CacheAfter(cache, deps)[name];
    assert MaterialsAfter(init, cache, deps) == Insert(m, name, v);
    InsertGet(m, name, v, k);
    if k != name {
      assert d in prefix by {
        assert deps == prefix + [last];
      }
      MaterialsAfterGetDependency(init, cache, prefix, d);
      CacheAfterLastKeeps(cache, deps, k);
    }
  }

  /** A key that is no dependency's material name keeps its initial value. */
  lemma {:induction false} MaterialsAfterGetOther(init: Dict<Material>, cache: map<string, Material>, deps: seq<string>, k: string)
    requires forall d :: d in deps ==> k != MaterialName(d)
    ensures Get(MaterialsAfter(init, cache, deps), k) == Get(init, k)
    decreases |deps|
  {
    if deps != [] {
      var prefix := deps[..|deps| - 1];
      var last := deps[|deps| - 1];
      var name := MaterialName(last);
      var m := MaterialsAfter(init, cache, prefix);
      var v := CacheAfter(cache, deps)[name];
      assert MaterialsAfter(init, cache, deps) == Insert(m, name, v);
      assert last in deps;
      InsertGet(m, name, v, k);
      assert forall d :: d in prefix ==> d in deps;
      MaterialsAfterGetOther(init, cache, prefix, k);
    }
  }

  /** What `generateMaterials` returns for a cache state. */
  function Materials(gitUrl: string, dependencies: Option<seq<string>>, cache: map<string, Material>): Result<Dict<Material>> {
    match DirectoryFromGitRepo(gitUrl, None)
    case Err(e) => Err(e)
    case Ok(topDir) =>
      var init := [(topDir, RepositoryMaterial(gitUrl, topDir))];
      if dependencies.None? then Ok(init) else Ok(MaterialsAfter(init, cache, dependencies.value))
  }

  /** The cache after `generateMaterials`. */
  function CacheAfterCall(gitUrl: string, dependencies: Option<seq<string>>, cache: map<string, Material>): map<string, Material> {
    if DirectoryFromGitRepo(gitUrl, None).Err? || dependencies.None? then cache
    else CacheAfter(cache, dependencies.value)
  }

  /** One turn of the loop: the cache gains the dependency's material unless it has it, and
    * the result takes the cached one. */
  lemma {:induction false} LoopStep(init: Dict<Material>, cache: map<string, Material>, deps: seq<string>, i: nat)
    requires i < |deps|
    ensures var c := CacheAfter(cache, deps[..i]);
      var name := MaterialName(deps[i]);
      var c' := if name in c then c else c[name := NewDependencyMaterial(deps[i])];
      && CacheAfter(cache, deps[..i + 1]) == c'
      && MaterialsAfter(init, cache, deps[..i + 1]) == Insert(MaterialsAfter(init, cache, deps[..i]), name, c'[name])
  {
    assert deps[..i + 1][..i] == deps[..i];
  }

  /** The loop of `generateMaterials` over the dependencies. */
  method AddDependencyMaterials(init: Dict<Material>, deps: seq<string>, cache: MaterialCache)
    returns (materials: Dict<Material>)
    modifies cache
    ensures materials == MaterialsAfter(init, old(cache.entries), deps)
    ensures cache.entries == CacheAfter(old(cache.entries), deps)
  {
    materials := init;
    for i := 0 to |deps|
      invariant cache.entries == CacheAfter(old(cache.entries), deps[..i])
      invariant materials == MaterialsAfter(init, old(cache.entries), deps[..i])
    {
      LoopStep(init, old(cache.entries), deps, i);
      var materialName := deps[i] + "_pipelineMaterial";
      if materialName !in cache.entries {
        cache.entries := cache.entries[materialName := PipelineMaterial(deps[i], "build_ppls", false)];
      }
      materials := Insert(materials, materialName, cache.entries[materialName]);
    }
    assert deps[..|deps|] == deps;
  }

  /** `generateMaterials(gitUrl, dependencies, cachedMaterials)`. */
  method GenerateMaterials(gitUrl: string, dependencies: Option<seq<string>>, cache: MaterialCache)
    returns (r: Result<Dict<Material>>)
    modifies cache
    ensures r == Materials(gitUrl, dependencies, old(cache.entries))
    ensures cache.entries == CacheAfterCall(gitUrl, dependencies, old(cache.entries))
  {
    var top := DirectoryFromGitRepo(gitUrl, None);
    if top.Err? {
      return Err(top.error);
    }
    var topDir := top.value;
    var init := [(topDir, RepositoryMaterial(gitUrl, topDir))];
    var materials := init;
    if dependencies.Some? {
      materials := AddDependencyMaterials(init, dependencies.value, cache);
    }
    return Ok(materials);
  }

  // ---------------------------------------------------------------------------
  // What a call promises, stated on the specification functions.

  /** The repository's own git material is always there, and with no dependencies it is
    * the only entry and the cache is left alone. */
  lemma {:induction false} RepositoryMaterialPresent(gitUrl: string, dependencies: Option<seq<string>>, cache: map<string, Material>)
    requires Materials(gitUrl, dependencies, cache).Ok?
    ensures var topDir := DirectoryFromGitRepo(gitUrl, None).value;
      var materials := Materials(gitUrl, dependencies, cache).value;
      (dependencies.None? || forall d :: d in dependencies.value ==> topDir != MaterialName(d)) ==>
        Get(materials, topDir) == Some(GitMaterial(gitUrl, topDir, false, false))
    ensures dependencies.None? ==>
      Materials(gitUrl, dependencies, cache).value ==
        [(DirectoryFromGitRepo(gitUrl, None).value, RepositoryMaterial(gitUrl, DirectoryFromGitRepo(gitUrl, None).value))]
      && CacheAfterCall(gitUrl, dependencies, cache) == cache
  {
    var topDir := DirectoryFromGitRepo(gitUrl, None).value;
    var init := [(topDir, RepositoryMaterial(gitUrl, topDir))];
    assert Get(init, topDir) == Some(GitMaterial(gitUrl, topDir, false, false));
    if dependencies.Some? && forall d :: d in dependencies.value ==> topDir != MaterialName(d) {
      MaterialsAfterGetOther([(topDir, RepositoryMaterial(gitUrl, topDir))], cache, dependencies.value, topDir);
    }
  }

  /** Each dependency's material is in both the result and the cache, with the same value;
    * an entry already cached is reused, a new one is `{pipeline: d, stage: build_ppls}`. */
  lemma {:induction false} DependencyMaterials(gitUrl: string, deps: seq<string>, cache: map<string, Material>, d: string)
    requires Materials(gitUrl, Some(deps), cache).Ok? && d in deps
    ensures var after := CacheAfterCall(gitUrl, Some(deps), cache);
      && MaterialName(d) in after
      && Get(Materials(gitUrl, Some(deps), cache).value, MaterialName(d)) == Some(after[MaterialName(d)])
      && after[MaterialName(d)] ==
           if MaterialName(d) in cache then cache[MaterialName(d)] else NewDependencyMaterial(d)
  {
    var topDir := DirectoryFromGitRepo(gitUrl, None).value;
    MaterialsAfterGetDependency([(topDir, RepositoryMaterial(gitUrl, topDir))], cache, deps, d);
    CacheAfterKeeps(cache, deps);
  }

  /** The cache only grows, only with material names of the given dependencies, and
    * never overwrites an entry. */
  lemma {:induction false} CacheGrowsOnly(gitUrl: string, dependencies: Option<seq<string>>, cache: map<string, Material>)
    ensures var after := CacheAfterCall(gitUrl, dependencies, cache);
      && (forall k :: k in cache ==> k in after && after[k] == cache[k])
      && (forall k :: k in after && k !in cache ==> dependencies.Some? && exists d :: d in dependencies.value && k == MaterialName(d))
  {
    if DirectoryFromGitRepo(gitUrl, None).Ok? && dependencies.Some? {
      CacheAfterKeeps(cache, dependencies.value);
    }
  }

  /** Two pipelines that depend on the same library, generated one after the other with
    * the same cache, get the same material for it. */
  lemma {:induction false} MaterialsSharedAcrossCalls(url1: string, deps1: seq<string>, url2: string, deps2: seq<string>,
                                   cache: map<string, Material>, d: string)
    requires Materials(url1, Some(deps1), cache).Ok?
    requires Materials(url2, Some(deps2), CacheAfterCall(url1, Some(deps1), cache)).Ok?
    requires d in deps1 && d in deps2
    ensures Get(Materials(url1, Some(deps1), cache).value, MaterialName(d)) ==
            Get(Materials(url2, Some(deps2), CacheAfterCall(url1, Some(deps1), cache)).value, MaterialName(d))
  {
    var c1 := CacheAfterCall(url1, Some(deps1), cache);
    DependencyMaterials(url1, deps1, cache, d);
    DependencyMaterials(url2, deps2, c1, d);
  }
}
