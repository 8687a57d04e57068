/**
 * The PPL generator's driver: the repository list (`<name>_REPO := <url>` lines),
 * the names made from a library name, the entry of each library found in a
 * cloned repository, the grouping of libraries by URL, and the sorted
 * dictionary of pipeline objects handed to the version rule and the YAML
 * builder. Files are seen through their lines, and `find_file` through what it
 * returned, both passed in.
 */
module GeneratePPLPipelines {
  import opened Wrappers
  import opened Strings
  import opened Dicts
  import opened PipelineRecords
  import opened NameTransformers
  import opened FileUtils
  import opened VersionPropagation
  import opened YamlGenerator

  // ---------------------------------------------------------------------------
  // Names.

  /** `getLibraryName`: a `+` in a manifest name stands for a space, as in a make target. */
  function GetLibraryName(libraryName: string): (name: string)
    ensures name == ParseMkfileTargetToName(libraryName)
  {
    ReplaceAll(libraryName, "+", " ")
  }

  /** `getSanitizedName`: the same rule as `sanitizeForPipelineName` (the validity check only prints). */
  function GetSanitizedName(libraryName: string): (name: string)
    ensures name == SanitizeForPipelineName(libraryName)
  {
    var replaced := ReplaceAll(ReplaceAll(libraryName, "+", "-"), " ", "-");
    if |replaced| <= 255 then replaced else replaced[..255]
  }

  /** `list(map(getSanitizedName, names))`. */
  function SanitizeEach(names: seq<string>): (r: seq<string>)
    ensures |r| == |names| && forall i :: 0 <= i < |names| ==> r[i] == GetSanitizedName(names[i])
  {
    seq(|names|, i requires 0 <= i < |names| => GetSanitizedName(names[i]))
  }

  // ---------------------------------------------------------------------------
  // The manifest pattern `^(.*?)_REPO\s?:=\s?(.*)$`.

  /** `\s?:=\s?(.*)$`, the part after `_REPO`: group 2, or None. The optional space before
    * `:=` is taken only when `:=` follows it; the one after is taken when present, which
    * never loses a match. `$` also matches before a final newline. */
  function RepoValue(r: string): (url: Option<string>)
    ensures url.Some? ==> '\n' !in url.value
    ensures url.Some? ==> |r| >= 2 && (r[0] == ':' || (IsSpace(r[0]) && r[1] == ':'))
  {
    var a := if |r| > 0 && IsSpace(r[0]) && StartsWith(r[1..], ":=") then r[1..] else r;
    if !StartsWith(a, ":=") then None
    else
      var b := a[2..];
      var g := DropFinalNewline(if |b| > 0 && IsSpace(b[0]) then b[1..] else b);
      if '\n' in g then None else Some(g)
  }

  /** `_REPO` and a valid rest start at index `i`. */
  predicate RepoAt(l: string, i: nat) {
    i + 5 <= |l| && l[i..i + 5] == "_REPO" && RepoValue(l[i + 5..]).Some?
  }

  /** No newline from index `i` up to index `j` (`.` does not match one). */
  predicate NoNewline(l: string, i: nat, j: nat) {
    forall k :: i <= k < j && k < |l| ==> l[k] != '\n'
  }

  /** The lazy `(.*?)` from index `i` on: the first index, with no newline before it, at
    * which the rest of the pattern matches (see `FindRepoFound`). */
  function FindRepo(l: string, i: nat): (p: Option<nat>)
    requires i <= |l|
    ensures p.Some? ==> i <= p.value && RepoAt(l, p.value)
    decreases |l| - i
  {
    if i + 5 > |l| then None
    else if RepoAt(l, i) then Some(i)
    else if l[i] == '\n' then None
    else FindRepo(l, i + 1)
  }

  /** A match found from `i` is the first place, with no newline before it, where the rest matches. */
  lemma {:induction false} FindRepoFound(l: string, i: nat)
    requires i <= |l| && FindRepo(l, i).Some?
    ensures var p := FindRepo(l, i).value;
      i <= p <= |l| && RepoAt(l, p) && NoNewline(l, i, p) && forall j :: i <= j < p ==> !RepoAt(l, j)
    decreases |l| - i
  {
    if !RepoAt(l, i) {
      assert i + 5 <= |l| && l[i] != '\n';
      FindRepoFound(l, i + 1);
      var p := FindRepo(l, i + 1).value;
      assert FindRepo(l, i) == Some(p);
      assert NoNewline(l, i + 1, p);
      forall k | i <= k < p && k < |l| ensures l[k] != '\n' {
        if k > i {
          assert i + 1 <= k < p;
        }
      }
      forall j | i <= j < p ensures !RepoAt(l, j) {
        if j > i {
          assert i + 1 <= j < p;
        }
      }
    }
  }

  /** No match from `i`: the rest matches nowhere before the first newline. */
  lemma {:induction false} FindRepoMissing(l: string, i: nat)
    requires i <= |l| && FindRepo(l, i).None?
    ensures forall j :: i <= j <= |l| && NoNewline(l, i, j) ==> !RepoAt(l, j)
    decreases |l| - i
  {
    if i + 5 > |l| {
    } else if l[i] == '\n' {
      forall j | i < j <= |l| ensures !NoNewline(l, i, j) {
        assert i <= i < j && i < |l| && l[i] == '\n';
      }
    } else {
      FindRepoMissing(l, i + 1);
      forall j | i <= j <= |l| && NoNewline(l, i, j) ensures !RepoAt(l, j) {
        if j > i {
          assert NoNewline(l, i + 1, j);
        }
      }
    }
  }

  /** `matcher.match(line)`: groups 1 and 2, the library name and the URL. */
  function RepoLineMatch(l: string): Option<(string, string)> {
    match FindRepo(l, 0)
    case None => None
    case Some(p) => Some((l[..p], RepoValue(l[p + 5..]).value))
  }

  /** A match is found exactly when `_REPO` and a valid rest begin somewhere before any
    * newline; group 1 ends at the first such place, and group 2 is what follows. */
  lemma {:induction false} RepoLineMatchSpec(l: string)
    ensures RepoLineMatch(l).Some? <==> exists p :: 0 <= p <= |l| && NoNewline(l, 0, p) && RepoAt(l, p)
    ensures match RepoLineMatch(l)
      case Some(m) =>
        var p := |m.0|;
        p <= |l| && m.0 == l[..p] && RepoAt(l, p) && NoNewline(l, 0, p) &&
        Some(m.1) == RepoValue(l[p + 5..]) && forall j :: 0 <= j < p ==> !RepoAt(l, j)
      case None => true
  {
    if FindRepo(l, 0).Some? {
      FindRepoFound(l, 0);
    } else {
      FindRepoMissing(l, 0);
    }
  }

  /** A definition line `<name>_REPO := <url>` yields its name and URL when the name has
    * no colon and neither part a newline. */
  lemma {:induction false} RepoDefinitionMatches(name: string, url: string)
    requires ':' !in name && '\n' !in name && '\n' !in url
    ensures RepoLineMatch(name + "_REPO := " + url) == Some((name, url))
  {
    var l := name + "_REPO := " + url;
    var n := |name|;
    assert l[..n] == name;
    assert l[n..n + 5] == "_REPO";
    assert l[n + 5..] == " := " + url;
    RepoValueOfDefinition(url);
    assert RepoAt(l, n);
    NoRepoInName(name, url);
    forall k | 0 <= k < n ensures l[k] != '\n' {
      assert l[k] == name[k] && name[k] in name;
    }
    FindRepoReaches(l, 0, n);
  }

  /** The rest of a definition line after `_REPO`, with single spaces around `:=`. */
  lemma {:induction false} RepoValueOfDefinition(url: string)
    requires '\n' !in url
    ensures RepoValue(" := " + url) == Some(url)
  {
    assert (" := " + url)[1..] == ":= " + url;
    assert (":= " + url)[2..] == " " + url;
    assert (" " + url)[1..] == url;
    assert DropFinalNewline(url) == url by {
      if |url| > 0 {
        assert url[|url| - 1] in url;
      }
    }
  }

  /** Inside a name without a colon, the rest of the pattern matches nowhere. */
  lemma {:induction false} NoRepoInName(name: string, url: string)
    requires ':' !in name
    ensures forall j :: 0 <= j < |name| ==> !RepoAt(name + "_REPO := " + url, j)
  {
    var l := name + "_REPO := " + url;
    var n := |name|;
    forall j | 0 <= j < n ensures !RepoAt(l, j) {
      if j + 5 <= n {
        NoRepoBeforeName(name, url, j);
      } else {
        assert l[n] == '_';
        UnderscoreBreaksRepo(l, j, n);
      }
    }
  }

  /** Before the name ends, `_REPO` is never followed by `:=`: the character after it is a
    * character of the name (not a colon) or the `_` of the literal `_REPO`. */
  lemma {:induction false} NoRepoBeforeName(name: string, url: string, j: nat)
    requires ':' !in name && j + 5 <= |name|
    ensures !RepoAt(name + "_REPO := " + url, j)
  {
    var l := name + "_REPO := " + url;
    var n := |name|;
    var r := l[j + 5..];
    if j + 5 < n {
      assert r[0] == l[j + 5] == name[j + 5];
      assert name[j + 5] in name;
      if IsSpace(r[0]) && |r| >= 2 {
        assert r[1] == l[j + 6];
        if j + 6 < n {
          assert l[j + 6] == name[j + 6] && name[j + 6] in name;
        } else {
          assert l[j + 6] == '_';
        }
      }
    } else {
      assert r[0] == l[n] == '_';
    }
  }

  /** `_REPO` cannot start less than five characters before an underscore. */
  lemma {:induction false} UnderscoreBreaksRepo(l: string, j: nat, n: nat)
    requires j < n < j + 5 && n < |l| && l[n] == '_'
    ensures !RepoAt(l, j)
  {
    if j + 5 <= |l| {
      assert l[j..j + 5][n - j] == '_';
    }
  }

  /** The search reaches index `n` when nothing matches before it and no newline comes first. */
  lemma {:induction false} FindRepoReaches(l: string, i: nat, n: nat)
    requires i <= n && RepoAt(l, n) && NoNewline(l, i, n)
    requires forall j :: i <= j < n ==> !RepoAt(l, j)
    ensures FindRepo(l, i) == Some(n)
    decreases n - i
  {
    if i < n {
      assert i + 5 <= |l| && !RepoAt(l, i) && l[i] != '\n';
      assert NoNewline(l, i + 1, n);
      forall j | i + 1 <= j < n ensures !RepoAt(l, j) {
        assert i <= j < n;
      }
      FindRepoReaches(l, i + 1, n);
    }
  }

  // ---------------------------------------------------------------------------
  // `get_libraries_and_urls`: the repository list.

  /** The value stored for a pipeline key: `{"url": ..., "filename": ...}`. */
  datatype RepoEntry = RepoEntry(url: string, filename: string)

  /** A URL of the form `oist/<repo>` is on GitHub. */
  function ExpandUrl(url: string): string {
    if StartsWith(url, "oist/") then "git@github.com:" + url else url
  }

  /** What one line of the list contributes: a line starting with `#` (before stripping)
    * or not matching the pattern contributes nothing. */
  function ManifestLineEntry(line: string): Option<(string, RepoEntry)> {
    if StartsWith(line, "#") then None
    else
      match RepoLineMatch(Strip(line))
      case None => None
      case Some(m) => Some((GetSanitizedName(m.0), RepoEntry(ExpandUrl(m.1), GetLibraryName(m.0) + ".lvlib")))
  }

  /** The `repos` dict after the lines, in order. */
  function Repos(lines: seq<string>): (repos: Dict<RepoEntry>)
    ensures Distinct(Keys(repos))
    decreases |lines|
  {
    if lines == [] then []
    else
      var prev := Repos(lines[..|lines| - 1]);
      match ManifestLineEntry(lines[|lines| - 1])
      case None => prev
      case Some(e) =>
        var r := Insert(prev, e.0, e.1);
        assert forall i :: 0 <= i < |Keys(prev)| ==> Keys(r)[i] == Keys(prev)[i];
        r
  }

  /** One more line: its entry, if any, is stored with `d[k] = v`. */
  lemma {:induction false} ReposStep(lines: seq<string>, i: nat)
    requires i < |lines|
    ensures Repos(lines[..i + 1]) ==
      match ManifestLineEntry(lines[i])
      case None => Repos(lines[..i])
      case Some(e) => Insert(Repos(lines[..i]), e.0, e.1)
  {
    assert lines[..i + 1][..i] == lines[..i];
  }

  /** `get_libraries_and_urls(path)`: `RuntimeError` for a path that does not exist,
    * otherwise the dict the line loop fills. */
  method GetLibrariesAndUrls(path: string, pathExists: bool, lines: seq<string>) returns (r: Result<Dict<RepoEntry>>)
    ensures r == if pathExists then Ok(Repos(lines)) else Err(RuntimeError("Bad path passed to get_libraries_and_urls: " + path))
  {
    if !pathExists {
      return Err(RuntimeError("Bad path passed to get_libraries_and_urls: " + path));
    }
    var repos: Dict<RepoEntry> := [];
    for i := 0 to |lines|
      invariant repos == Repos(lines[..i])
    {
      ReposStep(lines, i);
      var line := lines[i];
      if StartsWith(line, "#") {
        continue;
      }
      var m := RepoLineMatch(Strip(line));
      if m.Some? {
        var libraryName := m.value.0;
        var libraryUrl := m.value.1;
        var pipelineName := GetSanitizedName(libraryName);
        var userLibraryName := GetLibraryName(libraryName);
        if StartsWith(libraryUrl, "oist/") {
          libraryUrl := "git@github.com:" + libraryUrl;
        }
        assert ManifestLineEntry(line) == Some((pipelineName, RepoEntry(libraryUrl, userLibraryName + ".lvlib")));
        repos := Insert(repos, pipelineName, RepoEntry(libraryUrl, userLibraryName + ".lvlib"));
      }
    }
    assert lines[..|lines|] == lines;
    return Ok(repos);
  }

  /** A definition line gives the sanitised name as key, the URL (on GitHub for `oist/`)
    * and the library file name with `+` read as a space. */
  lemma {:induction false} ManifestDefinitionLine(name: string, url: string)
    requires name != [] && !IsSpace(name[0]) && name[0] != '#'
    requires url != [] && !IsSpace(url[|url| - 1])
    requires ':' !in name && '\n' !in name && '\n' !in url
    ensures ManifestLineEntry(name + "_REPO := " + url) ==
      Some((GetSanitizedName(name), RepoEntry(ExpandUrl(url), GetLibraryName(name) + ".lvlib")))
  {
    var line := name + "_REPO := " + url;
    assert line[0] == name[0] && line[|line| - 1] == url[|url| - 1];
    assert !StartsWith(line, "#") by {
      assert line[..1] == [name[0]];
    }
    StripKeepsTrimmed(line);
    RepoDefinitionMatches(name, url);
    assert RepoLineMatch(Strip(line)) == Some((name, url));
  }

  /** The last line that gives a key decides its entry; a comment line changes nothing. */
  lemma {:induction false} ReposLastLineWins(lines: seq<string>, line: string, k: string)
    ensures Get(Repos(lines + [line]), k) ==
      match ManifestLineEntry(line)
      case Some(e) => if e.0 == k then Some(e.1) else Get(Repos(lines), k)
      case None => Get(Repos(lines), k)
    ensures StartsWith(line, "#") ==> Repos(lines + [line]) == Repos(lines)
  {
    assert (lines + [line])[..|lines|] == lines;
    match ManifestLineEntry(line)
    case Some(e) =>
      InsertGet(Repos(lines), e.0, e.1, k);
    case None =>
  }

  /** The line gives an entry under key `k`. */
  predicate GivesKey(line: string, k: string) {
    match ManifestLineEntry(line)
    case Some(e) => e.0 == k
    case None => false
  }

  /** The keys are exactly the keys of the lines that give an entry. */
  lemma {:induction false} ReposKeys(lines: seq<string>, k: string)
    ensures k in Keys(Repos(lines)) <==> exists i :: 0 <= i < |lines| && GivesKey(lines[i], k)
    decreases |lines|
  {
    if lines == [] {
      return;
    }
    var n := |lines| - 1;
    var prefix := lines[..n];
    ReposKeys(prefix, k);
    ReposStep(lines, n);
    assert lines[..n + 1] == lines;
    var prev := Repos(prefix);
    var last := GivesKey(lines[n], k);
    assert k in Keys(Repos(lines)) <==> k in Keys(prev) || last by {
      match ManifestLineEntry(lines[n])
      case None =>
      case Some(e) =>
    }
    if k in Keys(Repos(lines)) {
      if k in Keys(prev) {
        var i :| 0 <= i < n && GivesKey(prefix[i], k);
        assert prefix[i] == lines[i];
      } else {
        assert GivesKey(lines[n], k);
      }
    } else {
      assert !last;
      forall i | 0 <= i < |lines| ensures !GivesKey(lines[i], k) {
        if i < n {
          assert prefix[i] == lines[i];
        } else {
          assert lines[i] == lines[n];
        }
      }
    }
  }

  // ---------------------------------------------------------------------------
  // `generateEntryDictionary` and `handleUrl`.

  /** `generateEntryDictionary(...)`: one entry under `pipelineName`, whose artifact id is
    * `pipelineName + "_nipkg"`; it has no VI package list. */
  function GenerateEntryDictionary(pipelineName: string, gitUrl: string, libPath: string, pplName: string,
                                   dependencies: Option<seq<string>>, dependencyPPLNames: Option<seq<string>>,
                                   minLabVIEWVersion: Option<string>): (d: Dict<EntryValues>)
    ensures |d| == 1 && d[0].0 == pipelineName && d[0].1.artifactId == pipelineName + "_nipkg"
    ensures d[0].1.vipkgUrls.None?
  {
    [(pipelineName, EntryValues(pipelineName + "_nipkg", gitUrl, libPath, pplName, dependencies, dependencyPPLNames,
                                minLabVIEWVersion, None))]
  }

  /** What the file system holds for one library of a cloned repository. */
  datatype LibraryFiles = LibraryFiles(
    /** `find_file(libName, outputDir, False)`: the path relative to the clone, or None. */
    libPath: Option<string>,
    /** The lines of the `.mk` file, when `find_file` finds one. */
    mkLines: Option<seq<string>>,
    /** The content of the `.min_lv_version` file, when `find_file` finds one. */
    minVersion: Option<string>)

  const AllowedVersionStrings: seq<string> := ["2019", "2021"]

  /** What a library's entry holds: the key `getSanitizedName(libName) + "p"`, the PPL name
    * `libName + "p"`, the artifact `<key>_nipkg`, the minimum version read (an allowed one),
    * no VI packages, and for a `.mk` file the names read and their sanitised forms. */
  predicate EntryFields(libName: string, files: LibraryFiles, key: string, v: EntryValues) {
    && key == SanitizeForPipelineName(libName) + "p"
    && v.pplName == libName + "p"
    && v.artifactId == key + "_nipkg"
    && v.minLabVIEWVersion == files.minVersion
    && (match files.minVersion case Some(m) => m in AllowedVersionStrings case None => true)
    && v.vipkgUrls.None?
    && match files.mkLines
       case None => v.dependencies.None? && v.dependencyPPLNames.None?
       case Some(lines) =>
         v.dependencyPPLNames == MkFileDependencies(lines, libName) &&
         match v.dependencyPPLNames
         case Some(names) => v.dependencies == Some(SanitizeEach(names))
         case None => false
  }

  /** A cloned repository as `handleUrl` sees it: its URL, its directory name, the base
    * directory it was cloned into, and the path separator of the host. */
  datatype Clone = Clone(gitUrl: string, gitDir: string, baseDir: string, sep: char)

  /** The entry of one library, or the error `handleUrl` raises for it. `os.path.join`
    * joins the checkout directory and the path found, then every separator becomes `/`. */
  function LibraryEntry(c: Clone, libName: string, files: LibraryFiles): Result<Dict<EntryValues>> {
    if files.libPath.None? || files.libPath.value == "" then
      Err(FileNotFoundError("Could not find " + libName + " in " + c.baseDir))
    else
      var libPath := EntryLibPath(c, files.libPath.value);
      var pipelineName := GetSanitizedName(libName) + "p";
      var pplName := libName + "p";
      if files.minVersion.Some? && files.minVersion.value !in AllowedVersionStrings then
        Err(RuntimeError("Invalid minimum LabVIEW version: " + files.minVersion.value))
      else if files.mkLines.None? then
        Ok(GenerateEntryDictionary(pipelineName, c.gitUrl, libPath, pplName, None, None, files.minVersion))
      else
        match MkFileDependencies(files.mkLines.value, libName)
        case None => Err(TypeError)
        case Some(depsNames) =>
          Ok(GenerateEntryDictionary(pipelineName, c.gitUrl, libPath, pplName, Some(SanitizeEach(depsNames)),
                                     Some(depsNames), files.minVersion))
  }

  /** `handleUrl` raises for a library exactly when its file is missing, its minimum version
    * file holds anything but an allowed version, or its `.mk` file has no definition line
    * (`map` over None); otherwise the entry carries the names, the paths and the version. */
  lemma {:induction false} LibraryEntryOutcome(c: Clone, libName: string, files: LibraryFiles)
    ensures var missing := files.libPath.None? || files.libPath.value == "";
      var badVersion := files.minVersion.Some? && files.minVersion.value !in AllowedVersionStrings;
      var noDepsLine := files.mkLines.Some? && MkFileDependencies(files.mkLines.value, libName).None?;
      && (LibraryEntry(c, libName, files).Err? <==> missing || badVersion || noDepsLine)
      && (missing ==> LibraryEntry(c, libName, files) == Err(FileNotFoundError("Could not find " + libName + " in " + c.baseDir)))
      && (!missing && badVersion ==> LibraryEntry(c, libName, files) == Err(RuntimeError("Invalid minimum LabVIEW version: " + files.minVersion.value)))
      && (!missing && !badVersion && noDepsLine ==> LibraryEntry(c, libName, files) == Err(TypeError))
    ensures var r := LibraryEntry(c, libName, files);
      r.Ok? ==>
        && |r.value| == 1 && r.value[0].1.gitUrl == c.gitUrl && EntryFields(libName, files, r.value[0].0, r.value[0].1)
        && r.value[0].1.libPath == EntryLibPath(c, files.libPath.value)
  {
  }

  /** `os.path.join(gitDir, libPathPartial).replace(os.sep, "/")`. */
  function EntryLibPath(c: Clone, found: string): string {
    ReplaceChar(PathJoin(c.gitDir, found, c.sep), c.sep, '/')
  }

  /** The library path is the path found, with `/` for the separator, under the checkout
    * directory; `os.path.join` adds nothing when that directory name is empty (a URL
    * ending in `/`). */
  lemma {:induction false} EntryLibPathJoin(c: Clone, found: string)
    ensures c.gitDir == "" ==> EntryLibPath(c, found) == ReplaceChar(found, c.sep, '/')
    ensures c.gitDir != "" && c.sep !in c.gitDir ==>
      EntryLibPath(c, found) == ReplaceChar(c.gitDir, c.sep, '/') + "/" + ReplaceChar(found, c.sep, '/')
  {
    if c.gitDir != "" && c.sep !in c.gitDir {
      assert c.gitDir[|c.gitDir| - 1] in c.gitDir;
      assert PathJoin(c.gitDir, found, c.sep) == c.gitDir + [c.sep] + found;
      ReplaceCharAppend(c.gitDir + [c.sep], found, c.sep, '/');
      ReplaceCharAppend(c.gitDir, [c.sep], c.sep, '/');
    }
  }

  /** The entries of the libraries, in order, or the first error. */
  function EntriesOf(c: Clone, libNames: seq<string>, files: string -> LibraryFiles): Result<seq<Dict<EntryValues>>>
    decreases |libNames|
  {
    if libNames == [] then Ok([])
    else
      match EntriesOf(c, libNames[..|libNames| - 1], files)
      case Err(e) => Err(e)
      case Ok(es) =>
        var last := libNames[|libNames| - 1];
        match LibraryEntry(c, last, files(last))
        case Err(e) => Err(e)
        case Ok(entry) => Ok(es + [entry])
  }

  /** What `handleUrl(gitUrl, libNames, baseDir)` returns or raises. */
  function UrlEntries(gitUrl: string, libNames: seq<string>, baseDir: string, sep: char,
                      files: string -> LibraryFiles): Result<seq<Dict<EntryValues>>>
  {
    match DirectoryFromGitRepo(gitUrl, Some(baseDir))
    case Err(e) => Err(e)
    case Ok(_) => EntriesOf(Clone(gitUrl, DirectoryNameMatch(gitUrl).value, baseDir, sep), libNames, files)
  }

  lemma {:induction false} EntriesOfPrefixError(c: Clone, libNames: seq<string>, files: string -> LibraryFiles, i: nat)
    requires i <= |libNames| && EntriesOf(c, libNames[..i], files).Err?
    ensures EntriesOf(c, libNames, files) == EntriesOf(c, libNames[..i], files)
    decreases |libNames| - i
  {
    if i < |libNames| {
      assert libNames[..i + 1][..i] == libNames[..i];
      EntriesOfPrefixError(c, libNames, files, i + 1);
    } else {
      assert libNames[..i] == libNames;
    }
  }

  /** `handleUrl`: the loop over the libraries of one repository (cloning is left out). */
  method HandleUrl(gitUrl: string, libNames: seq<string>, baseDir: string, sep: char, files: string -> LibraryFiles)
    returns (r: Result<seq<Dict<EntryValues>>>)
    ensures r == UrlEntries(gitUrl, libNames, baseDir, sep, files)
  {
    var outputDir := DirectoryFromGitRepo(gitUrl, Some(baseDir));
    if outputDir.Err? {
      return Err(outputDir.error);
    }
    var gitDir := DirectoryFromGitRepo(gitUrl, None).value;
    var c := Clone(gitUrl, gitDir, baseDir, sep);
    var retVals: seq<Dict<EntryValues>> := [];
    for i := 0 to |libNames|
      invariant EntriesOf(c, libNames[..i], files) == Ok(retVals)
    {
      var libName := libNames[i];
      assert libNames[..i + 1][..i] == libNames[..i];
      var entry := LibraryEntry(c, libName, files(libName));
      if entry.Err? {
        EntriesOfPrefixError(c, libNames, files, i + 1);
        return Err(entry.error);
      }
      retVals := retVals + [entry.value];
    }
    assert libNames[..|libNames|] == libNames;
    return Ok(retVals);
  }

  /** A generated entry never lists dependencies without their PPL names, so `buildData`
    * can only fail on its git URL. */
  lemma {:induction false} GeneratedEntryBuilds(c: Clone, libName: string, files: LibraryFiles, cache: map<string, Material>)
    requires LibraryEntry(c, libName, files).Ok?
    ensures var d := LibraryEntry(c, libName, files).value;
      PipelineData(d[0].0, d[0].1, cache).Err? <==> DirectoryNameMatch(c.gitUrl).None?
  {
    var d := LibraryEntry(c, libName, files).value;
    LibraryEntryOutcome(c, libName, files);
    PipelineDataErrors(d[0].0, d[0].1, cache);
  }

  /** A repository's entries are there exactly when none of its libraries fails. */
  lemma {:induction false} EntriesOfOk(c: Clone, libNames: seq<string>, files: string -> LibraryFiles)
    ensures EntriesOf(c, libNames, files).Ok? <==> AllEntriesOk(c, libNames, files)
    decreases |libNames|
  {
    if libNames != [] {
      var n := |libNames| - 1;
      var prefix := libNames[..n];
      EntriesOfOk(c, prefix, files);
      EntriesOfLast(c, libNames, files);
      assert AllEntriesOk(c, libNames, files) <==>
        AllEntriesOk(c, prefix, files) && LibraryEntry(c, libNames[n], files(libNames[n])).Ok? by {
        if AllEntriesOk(c, libNames, files) {
          forall i | 0 <= i < n ensures LibraryEntry(c, prefix[i], files(prefix[i])).Ok? {
            assert prefix[i] == libNames[i];
          }
        }
        if AllEntriesOk(c, prefix, files) && LibraryEntry(c, libNames[n], files(libNames[n])).Ok? {
          forall i | 0 <= i < |libNames| ensures LibraryEntry(c, libNames[i], files(libNames[i])).Ok? {
            if i < n {
              assert prefix[i] == libNames[i];
            } else {
              assert i == n;
            }
          }
        }
      }
    }
  }

  /** No library of the list fails. */
  predicate AllEntriesOk(c: Clone, libNames: seq<string>, files: string -> LibraryFiles) {
    forall i :: 0 <= i < |libNames| ==> LibraryEntry(c, libNames[i], files(libNames[i])).Ok?
  }

  /** One library more: the entries are there when those before it and its own are. */
  lemma {:induction false} EntriesOfLast(c: Clone, libNames: seq<string>, files: string -> LibraryFiles)
    requires libNames != []
    ensures var n := |libNames| - 1;
      EntriesOf(c, libNames, files).Ok? <==>
      EntriesOf(c, libNames[..n], files).Ok? && LibraryEntry(c, libNames[n], files(libNames[n])).Ok?
  {
  }

  /** The libraries of a repository give one entry each, in order. */
  lemma {:induction false} EntriesOfValues(c: Clone, libNames: seq<string>, files: string -> LibraryFiles)
    requires EntriesOf(c, libNames, files).Ok?
    ensures var es := EntriesOf(c, libNames, files).value;
      |es| == |libNames| &&
      forall i :: 0 <= i < |libNames| ==> Ok(es[i]) == LibraryEntry(c, libNames[i], files(libNames[i]))
    decreases |libNames|
  {
    if libNames != [] {
      var n := |libNames| - 1;
      var prefix := libNames[..n];
      var es := EntriesOf(c, libNames, files).value;
      var prev := EntriesOf(c, prefix, files);
      var last := LibraryEntry(c, libNames[n], files(libNames[n]));
      assert prev.Ok? && last.Ok?;
      assert es == prev.value + [last.value];
      EntriesOfValues(c, prefix, files);
      forall i | 0 <= i < |libNames| ensures Ok(es[i]) == LibraryEntry(c, libNames[i], files(libNames[i])) {
        if i < n {
          assert prefix[i] == libNames[i] && es[i] == prev.value[i];
        } else {
          assert i == n && es[i] == last.value;
        }
      }
    }
  }

  // ---------------------------------------------------------------------------
  // Grouping the libraries by URL (`urlToLibDict`).

  /** `set(d['url'] for d in entries.values())`. */
  function Urls(entries: Dict<RepoEntry>): set<string> {
    set i | 0 <= i < |entries| :: entries[i].1.url
  }

  /** `list(d['filename'] for d in entries.values() if d['url'] == url)`. */
  function LibrariesOfUrl(entries: Dict<RepoEntry>, url: string): (libs: seq<string>)
    ensures forall f :: f in libs <==>
      exists i :: 0 <= i < |entries| && entries[i].1.url == url && entries[i].1.filename == f
    decreases |entries|
  {
    if entries == [] then []
    else
      var rest := LibrariesOfUrl(entries[1..], url);
      assert forall i :: 1 <= i < |entries| ==> entries[i] == entries[1..][i - 1];
      if entries[0].1.url == url then [entries[0].1.filename] + rest else rest
  }

  /** The loop over the unique URLs; the order of a set's iteration does not matter here. */
  method GroupByUrl(entries: Dict<RepoEntry>) returns (urlToLibs: map<string, seq<string>>)
    ensures urlToLibs.Keys == Urls(entries)
    ensures forall url :: url in urlToLibs ==> urlToLibs[url] == LibrariesOfUrl(entries, url)
  {
    var remaining := Urls(entries);
    urlToLibs := map[];
    while remaining != {}
      invariant remaining <= Urls(entries) && urlToLibs.Keys == Urls(entries) - remaining
      invariant forall url :: url in urlToLibs ==> urlToLibs[url] == LibrariesOfUrl(entries, url)
      decreases |remaining|
    {
      var url :| url in remaining;
      urlToLibs := urlToLibs[url := LibrariesOfUrl(entries, url)];
      remaining := remaining - {url};
    }
  }

  /** Every library is listed under its own URL, and a URL lists only files of entries
    * with that URL. */
  lemma {:induction false} GroupingListsOwnUrl(entries: Dict<RepoEntry>, urlToLibs: map<string, seq<string>>, i: nat)
    requires urlToLibs.Keys == Urls(entries)
    requires forall url :: url in urlToLibs ==> urlToLibs[url] == LibrariesOfUrl(entries, url)
    requires i < |entries|
    ensures entries[i].1.url in urlToLibs && entries[i].1.filename in urlToLibs[entries[i].1.url]
    ensures forall url, f :: url in urlToLibs && f in urlToLibs[url] ==>
      exists j :: 0 <= j < |entries| && entries[j].1.url == url && entries[j].1.filename == f
  {
    assert entries[i].1.url in Urls(entries);
  }

  // ---------------------------------------------------------------------------
  // The pipeline dictionary.

  /** `[item for sublist in results for item in sublist]`. */
  function Concat<T>(xss: seq<seq<T>>): seq<T>
    decreases |xss|
  {
    if xss == [] then [] else Concat(xss[..|xss| - 1]) + xss[|xss| - 1]
  }

  /** Flattening dicts of one pair each, with distinct keys, lists the pairs in order. */
  lemma {:induction false} FlattenSingletons<V>(ds: seq<Dict<V>>, all: Dict<V>)
    requires |ds| == |all| && Distinct(Keys(all))
    requires forall i :: 0 <= i < |ds| ==> ds[i] == [all[i]]
    ensures Flatten(ds) == all
    decreases |ds|
  {
    if ds != [] {
      var n := |ds| - 1;
      PrefixDistinct(all, n);
      forall i | 0 <= i < n ensures ds[..n][i] == [all[..n][i]] {
      }
      FlattenSingletons(ds[..n], all[..n]);
      assert Flatten(ds) == Union(all[..n], [all[n]]);
      UnionSingle(all[..n], all[n]);
      InsertNextPair(all, n);
      assert all[..n + 1] == all;
    }
  }

  lemma {:induction false} PrefixDistinct<V>(d: Dict<V>, n: nat)
    requires Distinct(Keys(d)) && n <= |d|
    ensures Distinct(Keys(d[..n]))
  {
    var ks, ps := Keys(d), Keys(d[..n]);
    forall i, j | 0 <= i < j < n ensures ps[i] != ps[j] {
      assert ps[i] == ks[i] && ps[j] == ks[j];
    }
  }

  lemma {:induction false} UnionSingle<V>(a: Dict<V>, p: (string, V))
    ensures Union(a, [p]) == Insert(a, p.0, p.1)
  {
    assert [p][1..] == [];
  }

  /** Strictly ascending keys are distinct. */
  lemma {:induction false} SortedKeysDistinct<V>(d: Dict<V>)
    requires SortedByKey(d)
    ensures Distinct(Keys(d))
  {
    forall i, j | 0 <= i < j < |d| ensures Keys(d)[i] != Keys(d)[j] {
      if d[i].0 == d[j].0 {
        StrLessIrreflexive(d[i].0);
      }
    }
  }

  /** Each pair of `made` holds a new object for the pair of `flat` at the same place. */
  ghost predicate MadeFrom(flat: Dict<EntryValues>, made: Dict<PipelineDefinition>)
    reads set i | 0 <= i < |made| :: made[i].1
  {
    |made| == |flat| &&
    forall j :: 0 <= j < |made| ==>
      made[j].0 == flat[j].0 && made[j].1.name == flat[j].0 && made[j].1.Values() == flat[j].1
  }

  /** Sorting the objects made from a dict keeps its keys, and each key's object carries
    * that key as its name and the dict's values for it. */
  lemma {:induction false} SortedDefinitions(flat: Dict<EntryValues>, made: Dict<PipelineDefinition>,
                                             pipelines: Dict<PipelineDefinition>)
    requires Distinct(Keys(flat)) && MadeFrom(flat, made) && multiset(pipelines) == multiset(made)
    ensures forall k :: k in Keys(pipelines) <==> k in Keys(flat)
    ensures forall i :: 0 <= i < |pipelines| ==>
      pipelines[i].1.name == pipelines[i].0 && Get(flat, pipelines[i].0) == Some(pipelines[i].1.Values())
  {
    MultisetMembers(pipelines, made);
    MultisetMembers(made, pipelines);
    forall i | 0 <= i < |pipelines|
      ensures pipelines[i].1.name == pipelines[i].0 && Get(flat, pipelines[i].0) == Some(pipelines[i].1.Values())
    {
      assert pipelines[i] in made;
      var j :| 0 <= j < |made| && made[j] == pipelines[i];
      GetAt(flat, j);
    }
    forall k ensures k in Keys(pipelines) <==> k in Keys(flat) {
      if k in Keys(flat) {
        var j :| 0 <= j < |flat| && flat[j].0 == k;
        assert made[j] in pipelines;
        var i :| 0 <= i < |pipelines| && pipelines[i] == made[j];
        assert Keys(pipelines)[i] == k;
      }
      if k in Keys(pipelines) {
        var i :| 0 <= i < |pipelines| && pipelines[i].0 == k;
        assert pipelines[i] in made;
        var j :| 0 <= j < |made| && made[j] == pipelines[i];
        assert Keys(flat)[j] == k;
      }
    }
  }

  /** The loop that appends `{k: PipelineDefinition(k, v)}` for each pair of the flat dict. */
  method MakeDefinitions(flat: Dict<EntryValues>)
    returns (content: seq<Dict<PipelineDefinition>>, ghost made: Dict<PipelineDefinition>)
    ensures MadeFrom(flat, made) && |content| == |made|
    ensures forall j :: 0 <= j < |made| ==> content[j] == [made[j]] && fresh(made[j].1)
  {
    content := [];
    made := [];
    for i := 0 to |flat|
      invariant |content| == i && |made| == i
      invariant forall j :: 0 <= j < i ==> content[j] == [made[j]] && fresh(made[j].1)
      invariant forall j :: 0 <= j < i ==>
        made[j].0 == flat[j].0 && made[j].1.name == flat[j].0 && made[j].1.Values() == flat[j].1
    {
      var p := new PipelineDefinition(flat[i].0, flat[i].1);
      content := content + [[(flat[i].0, p)]];
      made := made + [(flat[i].0, p)];
    }
  }

  /** The main block, lines 158-170 of `Generate_PPL_Pipelines.py`: flatten the per-URL
    * results, make one fresh `PipelineDefinition` per key, and sort by key. Each key gets
    * its own object. */
  method BuildPipelineDict(results: seq<seq<Dict<EntryValues>>>) returns (pipelines: Dict<PipelineDefinition>)
    ensures SortedByKey(pipelines)
    ensures forall k :: k in Keys(pipelines) <==> k in Keys(Flatten(Concat(results)))
    ensures forall i :: 0 <= i < |pipelines| ==>
      fresh(pipelines[i].1) && pipelines[i].1.name == pipelines[i].0 &&
      Get(Flatten(Concat(results)), pipelines[i].0) == Some(pipelines[i].1.Values())
    ensures forall i, j :: 0 <= i < j < |pipelines| ==> pipelines[i].1 != pipelines[j].1
  {
    var flat := Flatten(Concat(results));
    var content;
    ghost var made;
    content, made := MakeDefinitions(flat);
    assert Keys(made) == Keys(flat);
    FlattenSingletons(content, made);
    pipelines := SortByKey(Flatten(content));
    SortedDefinitions(flat, made, pipelines);
    MultisetMembers(pipelines, made);
    forall i | 0 <= i < |pipelines| ensures fresh(pipelines[i].1) {
      assert pipelines[i] in made;
    }
    SortedKeysDistinct(pipelines);
    forall i, j | 0 <= i < j < |pipelines| ensures pipelines[i].1 != pipelines[j].1 {
      assert Keys(pipelines)[i] != Keys(pipelines)[j];
    }
  }

  /** What the version rule sees of the entries listed under `keys` in the flat dict. */
  function EntryNodes(keys: seq<string>, flat: Dict<EntryValues>): (g: seq<Node>)
    ensures |g| == |keys| && forall i :: 0 <= i < |keys| ==> g[i].name == keys[i]
  {
    seq(|keys|, i requires 0 <= i < |keys| =>
      match Get(flat, keys[i])
      case Some(v) => Node(keys[i], v.dependencies, v.minLabVIEWVersion)
      case None => Node(keys[i], None, None))
  }

  /** The main block, lines 158-175 of `Generate_PPL_Pipelines.py`, up to the YAML dump:
    * the sorted dictionary of new pipeline objects, whose minimum versions the version
    * rule then raises, in a format-10 configuration with the common section. */
  method GenerateConfiguration(results: seq<seq<Dict<EntryValues>>>)
    returns (config: Configuration<PipelineDefinition>)
    ensures config.formatVersion == 10 && config.common == Some(CommonSection())
    ensures SortedByKey(config.pipelines)
    ensures forall k :: k in Keys(config.pipelines) <==> k in Keys(Flatten(Concat(results)))
    ensures forall i :: 0 <= i < |config.pipelines| ==> config.pipelines[i].1.name == config.pipelines[i].0
    ensures Snapshot(config.pipelines) == Propagate(EntryNodes(Keys(config.pipelines), Flatten(Concat(results))))
    ensures forall i :: 0 <= i < |config.pipelines| ==>
      var entry := Get(Flatten(Concat(results)), config.pipelines[i].0);
      entry.Some? &&
      config.pipelines[i].1.Values() == entry.value.(minLabVIEWVersion := config.pipelines[i].1.minVersion)
  {
    var pipelineDict := BuildPipelineDict(results);
    ghost var flat := Flatten(Concat(results));
    ghost var before := Snapshot(pipelineDict);
    forall i | 0 <= i < |pipelineDict| ensures before[i] == EntryNodes(Keys(pipelineDict), flat)[i] {
      assert Get(flat, pipelineDict[i].0) == Some(pipelineDict[i].1.Values());
    }
    assert before == EntryNodes(Keys(pipelineDict), flat);
    pipelineDict := UpdateMinimumVersions(pipelineDict);
    config := BuildYamlObject(pipelineDict);
  }
}
