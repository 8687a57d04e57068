// `directoryFromGitRepo`: the checkout directory of a git URL, the text after
// its last `/`, taken with the regex `^.*:.*/(.*)$` (the definition in
// `Generate_PPL_Pipelines.py`; the one `PipelineGenerationUtils` imports from
// `FileUtils` is taken to be the same).
module FileUtils {
  import opened Wrappers
  import opened Strings

  /** The index of the last `c` in `s`. */
  function LastIndexOf(s: string, c: char): (r: Option<nat>)
    ensures r.Some? ==> r.value < |s| && s[r.value] == c && forall k :: r.value < k < |s| ==> s[k] != c
    ensures r.None? ==> c !in s
  {
    if s == [] then None
    else if s[|s| - 1] == c then Some(|s| - 1)
    else LastIndexOf(s[..|s| - 1], c)
  }

  /** The text the regex sees before `$`: `$` also matches just before a final newline. */
  function DropFinalNewline(s: string): string {
    if |s| > 0 && s[|s| - 1] == '\n' then s[..|s| - 1] else s
  }

  // Group 1 of `^.*:.*/(.*)$`, or None when the URL does not match. `.` does not match
  // a newline, so the greedy groups put the capture after the last `/`, which needs
  // some `:` before it.
  function DirectoryNameMatch(gitRepo: string): (dir: Option<string>)
    ensures dir.Some? ==> '/' !in dir.value && '\n' !in dir.value
    ensures dir.Some? ==>
      var t := DropFinalNewline(gitRepo);
      |dir.value| < |t| && t[|t| - |dir.value| - 1] == '/' && t[|t| - |dir.value|..] == dir.value &&
      ':' in t[..|t| - |dir.value| - 1]
  {
    var t := DropFinalNewline(gitRepo);
    if '\n' in t then None
    else
      match LastIndexOf(t, '/')
      case None => None
      case Some(j) => if ':' in t[..j] then Some(t[j + 1..]) else None
  }

  /** Any URL `<host part with a colon>/<name>` yields `<name>`. */
  lemma {:induction false} DirectoryOfUrl(prefix: string, name: string)
    requires ':' in prefix && '/' !in name && '\n' !in prefix && '\n' !in name
    ensures DirectoryNameMatch(prefix + "/" + name) == Some(name)
  {
    var url := prefix + "/" + name;
    assert url[|prefix|] == '/';
    assert DropFinalNewline(url) == url by {
      if |name| > 0 {
        assert url[|url| - 1] == name[|name| - 1];
      }
    }
    assert forall k :: |prefix| < k < |url| ==> url[k] == name[k - |prefix| - 1];
    var j := LastIndexOf(url, '/');
    assert j == Some(|prefix|);
    assert url[..|prefix|] == prefix;
    assert url[|prefix| + 1..] == name;
  }

  /** `os.path.join(a, b)` for a relative `b`: `b` alone when `a` is empty, and no added
    * separator when `a` already ends in one. */
  function PathJoin(a: string, b: string, sep: char): string {
    if a == "" then b
    else if a[|a| - 1] == sep then a + b
    else a + [sep] + b
  }

  /** `directoryFromGitRepo(gitRepo, output_dir)`: the directory name, under `output_dir`
    * when one is given; `AttributeError` when the URL does not match. Joining paths is
    * modelled as joining with `/`. */
  function DirectoryFromGitRepo(gitRepo: string, outputDir: Option<string>): (r: Result<string>)
    ensures r.Err? <==> DirectoryNameMatch(gitRepo).None?
    ensures r.Ok? && (outputDir.None? || outputDir.value == "") ==> r.value == DirectoryNameMatch(gitRepo).value
    ensures r.Ok? && outputDir.Some? && outputDir.value != "" ==>
      r.value == outputDir.value + "/" + DirectoryNameMatch(gitRepo).value
  {
    match DirectoryNameMatch(gitRepo)
    case None => Err(AttributeError)
    case Some(dest) =>
      if outputDir.Some? && outputDir.value != "" then Ok(outputDir.value + "/" + dest) else Ok(dest)
  }
}
