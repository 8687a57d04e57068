/**
 * Name handling for pipelines and libraries, and the line selection of the
 * `.mk` dependency files and the VI package requirement files, over the lines
 * `readlines` returns.
 */
module NameTransformers {
  import opened Wrappers
  import opened Strings

  /** `parseMkfileTargetToName`: a `+` in a make target stands for a space. */
  function ParseMkfileTargetToName(target: string): (name: string)
    ensures |name| == |target| && '+' !in name
    ensures forall i :: 0 <= i < |target| ==> name[i] == if target[i] == '+' then ' ' else target[i]
  {
    ReplaceAllOfChar(target, '+', ' ');
    ReplaceAll(target, "+", " ")
  }

  /** `sanitizeForPipelineName`: `+` and space become `-`, then `[0:255]`. */
  function SanitizeForPipelineName(target: string): (name: string)
    ensures |name| == if |target| <= 255 then |target| else 255
    ensures forall i :: 0 <= i < |name| ==>
      name[i] == if target[i] == '+' || target[i] == ' ' then '-' else target[i]
    ensures '+' !in name && ' ' !in name
  {
    ReplaceAllOfChar(target, '+', '-');
    ReplaceAllOfChar(ReplaceChar(target, '+', '-'), ' ', '-');
    var replaced := ReplaceAll(ReplaceAll(target, "+", "-"), " ", "-");
    if |replaced| <= 255 then replaced else replaced[..255]
  }

  lemma {:induction false} SanitizeIdempotent(target: string)
    ensures SanitizeForPipelineName(SanitizeForPipelineName(target)) == SanitizeForPipelineName(target)
  {
  }

  /** A name that is short enough and holds no `+` or space is its own pipeline name. */
  lemma {:induction false} SanitizeKeepsCleanName(target: string)
    requires |target| <= 255 && '+' !in target && ' ' !in target
    ensures SanitizeForPipelineName(target) == target
  {
  }

  /** A make target and the library name made from it give the same pipeline name. */
  lemma {:induction false} SanitizeTargetOrName(target: string)
    ensures SanitizeForPipelineName(ParseMkfileTargetToName(target)) == SanitizeForPipelineName(target)
  {
  }

  // ---------------------------------------------------------------------------
  // The validity check `re.match(r"^[A-z0-9_.-]*$", name)`, which only prints.

  /** The character class as written: `A-z` runs from `A` through `[ \ ] ^ _` and the backtick to `z`. */
  predicate InNameClassAsWritten(c: char) {
    ('A' <= c <= 'z') || ('0' <= c <= '9') || c == '_' || c == '.' || c == '-'
  }

  /** The check as written; `$` also matches just before a final newline. */
  predicate MatchesNamePatternAsWritten(name: string) {
    var t := if |name| > 0 && name[|name| - 1] == '\n' then name[..|name| - 1] else name;
    forall i :: 0 <= i < |t| ==> InNameClassAsWritten(t[i])
  }

  /** What the check is meant to accept: letters, digits, `-`, `_` and `.`. */
  predicate IsPipelineNameChar(c: char) {
    ('A' <= c <= 'Z') || ('a' <= c <= 'z') || ('0' <= c <= '9') || c == '_' || c == '.' || c == '-'
  }

  /** A valid pipeline name: only letters, digits, hyphens, underscores and periods, at most 255 characters. */
  predicate IsValidPipelineName(name: string) {
    |name| <= 255 && forall i :: 0 <= i < |name| ==> IsPipelineNameChar(name[i])
  }

  /** The pattern as written lets through a name the naming rule refuses. */
  lemma {:induction false} NamePatternAdmitsPunctuation()
    ensures MatchesNamePatternAsWritten("lib^1") && !IsValidPipelineName("lib^1")
  {
    var name := "lib^1";
    assert name[3] == '^' && !IsPipelineNameChar(name[3]);
    assert forall i :: 0 <= i < |name| ==> InNameClassAsWritten(name[i]);
  }

  /** Sanitising gives a valid name exactly when every kept character is a name
    * character, a `+` or a space. */
  lemma {:induction false} SanitizedNameValid(target: string)
    ensures IsValidPipelineName(SanitizeForPipelineName(target)) <==>
      forall i :: 0 <= i < |target| && i < 255 ==>
        IsPipelineNameChar(target[i]) || target[i] == '+' || target[i] == ' '
  {
    var name := SanitizeForPipelineName(target);
    if IsValidPipelineName(name) {
      forall i | 0 <= i < |target| && i < 255
        ensures IsPipelineNameChar(target[i]) || target[i] == '+' || target[i] == ' '
      {
        assert IsPipelineNameChar(name[i]);
      }
    }
  }

  // ---------------------------------------------------------------------------
  // `parseDependencyList`: split on spaces that are not escaped by a backslash.

  /** `depString.replace(r"\ ", "+").split(" ")`, then `+` back to space in each element. */
  function ParseDependencyList(depString: string): (deps: seq<string>)
    ensures |deps| > 0
  {
    var listDeps := SplitOn(ReplaceAll(depString, "\\ ", "+"), " ");
    ReplaceCharEach(listDeps, '+', ' ')
  }

  /** The spaces of `s` not preceded by a backslash; `afterBackslash` says whether the
    * character before `s` was one. */
  function UnescapedSpaces(afterBackslash: bool, s: string): nat
    decreases |s|
  {
    if s == [] then 0
    else (if s[0] == ' ' && !afterBackslash then 1 else 0) + UnescapedSpaces(s[0] == '\\', s[1..])
  }

  /** Removing the escapes leaves exactly the unescaped spaces. */
  lemma {:induction false} EscapedSpacesRemoved(s: string)
    ensures CountChar(ReplaceAll(s, "\\ ", "+"), ' ') == UnescapedSpaces(false, s)
    decreases |s|
  {
    if s != [] {
      ReplaceAllStep(s, "\\ ", "+");
      if |s| >= 2 && s[..2] == "\\ " {
        EscapedSpacesRemoved(s[2..]);
        var r := ReplaceAll(s[2..], "\\ ", "+");
        assert ("+" + r)[1..] == r;
        assert s[1..][1..] == s[2..];
      } else {
        EscapedSpacesRemoved(s[1..]);
        var r := ReplaceAll(s[1..], "\\ ", "+");
        assert ([s[0]] + r)[1..] == r;
        if s[0] == '\\' && |s| >= 2 {
          assert s[1] != ' ';
          assert s[1..][1..] == s[2..];
        }
      }
    }
  }

  /** One element more than there are unescaped spaces. */
  lemma {:induction false} DependencyCount(depString: string)
    ensures |ParseDependencyList(depString)| == UnescapedSpaces(false, depString) + 1
  {
    SplitOnCharCount(ReplaceAll(depString, "\\ ", "+"), ' ');
    EscapedSpacesRemoved(depString);
  }

  /** Joined back with spaces, the elements are the string with `\ ` and `+` read as spaces. */
  lemma {:induction false} DependencyListJoin(depString: string)
    ensures Join(ParseDependencyList(depString), " ") ==
      ReplaceChar(ReplaceAll(depString, "\\ ", "+"), '+', ' ')
  {
    var replaced := ReplaceAll(depString, "\\ ", "+");
    JoinSplitOn(replaced, " ");
    ReplaceCharJoin(SplitOn(replaced, " "), " ", '+', ' ');
  }

  // ---------------------------------------------------------------------------
  // `parseMkFile`: the first line `<depVarName>[ ]?:=[ ]?(.*)$` gives the dependencies.

  /** One element of the regex compiled from the variable name. */
  datatype PatternChar = Literal(c: char) | AnyChar

  /** `buildObjectName.replace(" ", r"\+").replace(".lvlib", "_Deps")`. */
  function DepVarName(buildObjectName: string): string {
    ReplaceAll(ReplaceAll(buildObjectName, " ", "\\+"), ".lvlib", "_Deps")
  }

  /** The regex elements of a variable name: `\x` is the literal `x`, `.` any character
    * but a newline, any other character itself. */
  function CompileName(p: string): (pattern: seq<PatternChar>)
    ensures |pattern| <= |p|
    decreases |p|
  {
    if p == [] then []
    else if p[0] == '\\' && |p| >= 2 then [Literal(p[1])] + CompileName(p[2..])
    else if p[0] == '.' then [AnyChar] + CompileName(p[1..])
    else [Literal(p[0])] + CompileName(p[1..])
  }

  /** A name with no backslash and no newline matches the pattern compiled from it: each
    * character is a literal or a `.`, which matches itself. */
  lemma {:induction false} CompileMatchesName(p: string)
    requires '\\' !in p && '\n' !in p
    ensures NameMatches(CompileName(p), p)
  {
    assert forall i :: 0 <= i < |p| ==> p[i] in p;
    CompilePrefixMatches(p, [], []);
    assert p + [] == p;
  }

  predicate CharMatches(pc: PatternChar, c: char) {
    match pc
    case Literal(x) => c == x
    case AnyChar => c != '\n'
  }

  predicate PrefixMatches(pattern: seq<PatternChar>, s: string) {
    |pattern| <= |s| && forall i :: 0 <= i < |pattern| ==> CharMatches(pattern[i], s[i])
  }

  /** `re.match(pattern + r"[ ]?:=[ ]?(.*)$", line.strip())`, and its group 1. */
  function MkLineMatch(pattern: seq<PatternChar>, line: string): (group: Option<string>)
  {
    var l := Strip(line);
    if !PrefixMatches(pattern, l) then None
    else
      var a := l[|pattern|..];
      var b := if |a| > 0 && a[0] == ' ' then a[1..] else a;
      if !StartsWith(b, ":=") then None
      else
        var c := b[2..];
        var g := if |c| > 0 && c[0] == ' ' then c[1..] else c;
        if '\n' in g then None else Some(g)
  }

  /** A definition line `<name> := <value>` yields its value. */
  lemma {:induction false} DefinitionLineMatches(pattern: seq<PatternChar>, name: string, value: string)
    requires |pattern| == |name| && forall i :: 0 <= i < |name| ==> CharMatches(pattern[i], name[i])
    requires name != [] && !IsSpace(name[0])
    requires value != [] && !IsSpace(value[0]) && !IsSpace(value[|value| - 1]) && '\n' !in value
    ensures MkLineMatch(pattern, name + " := " + value) == Some(value)
  {
    var line := name + " := " + value;
    assert line[0] == name[0] && line[|line| - 1] == value[|value| - 1];
    StripKeepsTrimmed(line);
    assert line[|name|..] == " := " + value;
    assert (" := " + value)[1..] == ":= " + value;
    assert (":= " + value)[2..] == " " + value;
    assert (" " + value)[1..] == value;
  }

  /** The make variable that holds a library's dependencies: each space written as `+`
    * and `.lvlib` as `_Deps`. */
  function MkVarName(buildObjectName: string): string {
    ReplaceAll(ReplaceChar(buildObjectName, ' ', '+'), ".lvlib", "_Deps")
  }

  /** The pattern matches `name` character for character. */
  predicate NameMatches(pattern: seq<PatternChar>, name: string) {
    |pattern| == |name| && forall i :: 0 <= i < |name| ==> CharMatches(pattern[i], name[i])
  }

  /** A character other than a backslash compiles on its own. */
  lemma {:induction false} CompileNameStep(c: char, z: string)
    requires c != '\\'
    ensures CompileName([c] + z) == [if c == '.' then AnyChar else Literal(c)] + CompileName(z)
  {
    assert ([c] + z)[1..] == z;
  }

  /** Each character of `w` as a literal. */
  function Literals(w: string): seq<PatternChar> {
    if w == [] then [] else [Literal(w[0])] + Literals(w[1..])
  }

  /** A word with no backslash and no dot compiles to its own characters, as literals. */
  lemma {:induction false} CompileLiteral(w: string)
    requires forall i :: 0 <= i < |w| ==> w[i] != '\\' && w[i] != '.'
    ensures CompileName(w) == Literals(w)
    decreases |w|
  {
    if w != [] {
      CompileLiteral(w[1..]);
      assert w == [w[0]] + w[1..];
      CompileNameStep(w[0], w[1..]);
    }
  }

  /** A word with no backslash and no newline in front of a name keeps the match: the
    * pattern compiled from `w + z` matches `w + n` when the one from `z` matches `n`. */
  lemma {:induction false} CompilePrefixMatches(w: string, z: string, n: string)
    requires forall i :: 0 <= i < |w| ==> w[i] != '\\' && w[i] != '\n'
    requires NameMatches(CompileName(z), n)
    ensures NameMatches(CompileName(w + z), w + n)
    decreases |w|
  {
    if w == [] {
      assert w + z == z && w + n == n;
    } else {
      var r := w[1..];
      CompilePrefixMatches(r, z, n);
      assert w + z == [w[0]] + (r + z);
      assert w + n == [w[0]] + (r + n);
      CompileNameStep(w[0], r + z);
      var pc := if w[0] == '.' then AnyChar else Literal(w[0]);
      NameMatchesAppend([pc], [w[0]], CompileName(r + z), r + n);
    }
  }

  /** `replace(" ", r"\+")`, one character at a time. */
  lemma {:induction false} EscapeSpacesStep(s: string)
    requires s != []
    ensures ReplaceAll(s, " ", "\\+") ==
      (if s[0] == ' ' then "\\+" else [s[0]]) + ReplaceAll(s[1..], " ", "\\+")
  {
    ReplaceAllStep(s, " ", "\\+");
    assert s[..1] == [s[0]];
  }

  /** `replace(" ", r"\+")` on a word with no space leaves the word in front. */
  lemma {:induction false} EscapeSpacesKeepsWord(w: string, z: string)
    requires ' ' !in w
    ensures ReplaceAll(w + z, " ", "\\+") == w + ReplaceAll(z, " ", "\\+")
    decreases |w|
  {
    if w != [] {
      assert w[0] in w;
      EscapeSpacesStep(w + z);
      assert (w + z)[1..] == w[1..] + z;
      assert forall c :: c in w[1..] ==> c in w;
      EscapeSpacesKeepsWord(w[1..], z);
    } else {
      assert w + z == z;
    }
  }

  /** A word with no space and no backslash starts the escaped name exactly when it starts
    * the name. */
  lemma {:induction false} EscapedPrefix(s: string, w: string)
    requires ' ' !in w && '\\' !in w
    ensures StartsWith(ReplaceAll(s, " ", "\\+"), w) <==> StartsWith(s, w)
    decreases |w|
  {
    var x := ReplaceAll(s, " ", "\\+");
    if w != [] {
      assert w[0] in w;
      assert forall c :: c in w[1..] ==> c in w;
      if s == [] {
        assert x == "";
      } else {
        EscapeSpacesStep(s);
        var x1 := ReplaceAll(s[1..], " ", "\\+");
        EscapedPrefix(s[1..], w[1..]);
        StartsWithFirst(s, w);
        StartsWithFirst(x, w);
        if s[0] != ' ' {
          assert x == [s[0]] + x1;
          assert x[1..] == x1;
        }
      }
    }
  }

  /** A non-empty word starts a string exactly when its first character does and the rest
    * of the word starts the rest. */
  lemma {:induction false} StartsWithFirst(s: string, w: string)
    requires s != [] && w != []
    ensures StartsWith(s, w) <==> s[0] == w[0] && StartsWith(s[1..], w[1..])
  {
    if |w| <= |s| {
      assert s[..|w|] == [s[0]] + s[1..][..|w| - 1];
      assert w == [w[0]] + w[1..];
    }
  }

  /** A word with no space and no `+` starts the name with `+` for spaces exactly when it
    * starts the name. */
  lemma {:induction false} PlusPrefix(s: string, w: string)
    requires ' ' !in w && '+' !in w
    ensures StartsWith(ReplaceChar(s, ' ', '+'), w) <==> StartsWith(s, w)
  {
    var y := ReplaceChar(s, ' ', '+');
    if StartsWith(y, w) {
      forall i | 0 <= i < |w| ensures s[i] == w[i] {
        assert y[..|w|][i] == w[i] && w[i] in w;
      }
      assert s[..|w|] == w;
    }
    if StartsWith(s, w) {
      forall i | 0 <= i < |w| ensures y[i] == w[i] {
        assert s[..|w|][i] == w[i] && w[i] in w;
      }
      assert y[..|w|] == w;
    }
  }

  lemma {:induction false} NameMatchesAppend(p1: seq<PatternChar>, n1: string, p2: seq<PatternChar>, n2: string)
    requires NameMatches(p1, n1) && NameMatches(p2, n2)
    ensures NameMatches(p1 + p2, n1 + n2)
  {
    forall i | 0 <= i < |n1 + n2| ensures CharMatches((p1 + p2)[i], (n1 + n2)[i]) {
      if i >= |n1| {
        assert (p1 + p2)[i] == p2[i - |n1|] && (n1 + n2)[i] == n2[i - |n1|];
      }
    }
  }

  /** `DepVarName` of a name that starts with `.lvlib`: `_Deps`, then the rest. */
  lemma {:induction false} DepVarNameLvlib(l: string)
    requires StartsWith(l, ".lvlib")
    ensures DepVarName(l) == "_Deps" + DepVarName(l[6..])
  {
    var t := l[6..];
    var xt := ReplaceAll(t, " ", "\\+");
    assert l == ".lvlib" + t;
    EscapeSpacesKeepsWord(".lvlib", t);
    var x := ".lvlib" + xt;
    assert ReplaceAll(l, " ", "\\+") == x;
    ReplaceAllStep(x, ".lvlib", "_Deps");
    assert x[6..] == xt;
  }

  /** `DepVarName` of a name that starts with a space: `\+`, then the rest. */
  lemma {:induction false} DepVarNameSpace(l: string)
    requires l != [] && l[0] == ' '
    ensures DepVarName(l) == "\\+" + DepVarName(l[1..])
  {
    var xt := ReplaceAll(l[1..], " ", "\\+");
    EscapeSpacesStep(l);
    assert "\\+" + xt == ['\\'] + (['+'] + xt);
    LvlibSkipsChar('+', xt);
    LvlibSkipsChar('\\', ['+'] + xt);
  }

  /** `replace(".lvlib", "_Deps")` keeps a leading character other than `.`. */
  lemma {:induction false} LvlibSkipsChar(c: char, y: string)
    requires c != '.'
    ensures ReplaceAll([c] + y, ".lvlib", "_Deps") == [c] + ReplaceAll(y, ".lvlib", "_Deps")
  {
    ReplaceAllStep([c] + y, ".lvlib", "_Deps");
    assert ([c] + y)[1..] == y;
  }

  /** `DepVarName` of a name that starts with neither `.lvlib` nor a space: its first
    * character, then the rest. */
  lemma {:induction false} DepVarNameOther(l: string)
    requires l != [] && l[0] != ' ' && !StartsWith(l, ".lvlib")
    ensures DepVarName(l) == [l[0]] + DepVarName(l[1..])
  {
    var xt := ReplaceAll(l[1..], " ", "\\+");
    EscapedPrefix(l, ".lvlib");
    EscapeSpacesStep(l);
    var x := [l[0]] + xt;
    ReplaceAllStep(x, ".lvlib", "_Deps");
    assert x[1..] == xt;
  }

  /** The variable name `parseMkFile` builds, written out left to right. */
  function DepVarNameLeftToRight(l: string): string
    decreases |l|
  {
    if l == [] then []
    else if StartsWith(l, ".lvlib") then "_Deps" + DepVarNameLeftToRight(l[6..])
    else (if l[0] == ' ' then "\\+" else [l[0]]) + DepVarNameLeftToRight(l[1..])
  }

  /** The make variable, written out left to right. */
  function MkVarNameLeftToRight(l: string): string
    decreases |l|
  {
    if l == [] then []
    else if StartsWith(l, ".lvlib") then "_Deps" + MkVarNameLeftToRight(l[6..])
    else [if l[0] == ' ' then '+' else l[0]] + MkVarNameLeftToRight(l[1..])
  }

  /** `replace(" ", r"\+").replace(".lvlib", "_Deps")` works left to right: `.lvlib`
    * becomes `_Deps`, a space `\+`, and any other character stays. */
  lemma {:induction false} DepVarNameSteps(l: string)
    ensures DepVarName(l) == DepVarNameLeftToRight(l)
    decreases |l|
  {
    if l == [] {
      assert ReplaceAll(l, " ", "\\+") == "";
    } else if StartsWith(l, ".lvlib") {
      DepVarNameLvlib(l);
      DepVarNameSteps(l[6..]);
    } else {
      if l[0] == ' ' {
        DepVarNameSpace(l);
      } else {
        DepVarNameOther(l);
      }
      DepVarNameSteps(l[1..]);
    }
  }

  /** `MkVarName`, one step at a time: `.lvlib` becomes `_Deps`, a space `+`, and any other
    * character stays. */
  lemma {:induction false} MkVarNameStep(l: string)
    requires l != []
    ensures StartsWith(l, ".lvlib") ==> MkVarName(l) == "_Deps" + MkVarName(l[6..])
    ensures !StartsWith(l, ".lvlib") ==>
      MkVarName(l) == [if l[0] == ' ' then '+' else l[0]] + MkVarName(l[1..])
  {
    var y := ReplaceChar(l, ' ', '+');
    PlusPrefix(l, ".lvlib");
    ReplaceAllStep(y, ".lvlib", "_Deps");
    if StartsWith(l, ".lvlib") {
      var t := l[6..];
      assert l == ".lvlib" + t;
      ReplaceCharAppend(".lvlib", t, ' ', '+');
      ReplaceCharAbsent(".lvlib", ' ', '+');
      assert y[6..] == ReplaceChar(t, ' ', '+');
    } else {
      assert y[1..] == ReplaceChar(l[1..], ' ', '+');
    }
  }

  /** `replace(".lvlib", "_Deps")` after spaces became `+` works left to right. */
  lemma {:induction false} MkVarNameSteps(l: string)
    ensures MkVarName(l) == MkVarNameLeftToRight(l)
    decreases |l|
  {
    if l == [] {
      assert ReplaceChar(l, ' ', '+') == "";
    } else {
      MkVarNameStep(l);
      if StartsWith(l, ".lvlib") {
        MkVarNameSteps(l[6..]);
      } else {
        MkVarNameSteps(l[1..]);
      }
    }
  }

  /** The pattern compiled from the left-to-right variable name matches the left-to-right
    * make variable. */
  lemma {:induction false} LeftToRightMatches(l: string)
    requires '\\' !in l && '\n' !in l
    ensures NameMatches(CompileName(DepVarNameLeftToRight(l)), MkVarNameLeftToRight(l))
    decreases |l|
  {
    if l != [] {
      assert l[0] in l;
      if StartsWith(l, ".lvlib") {
        var t := l[6..];
        assert forall c :: c in t ==> c in l;
        LeftToRightMatches(t);
        CompilePrefixMatches("_Deps", DepVarNameLeftToRight(t), MkVarNameLeftToRight(t));
      } else {
        var t := l[1..];
        assert forall c :: c in t ==> c in l;
        LeftToRightMatches(t);
        var dt := DepVarNameLeftToRight(t);
        if l[0] == ' ' {
          assert ("\\+" + dt)[2..] == dt;
          assert CompileName("\\+" + dt) == [Literal('+')] + CompileName(dt);
          NameMatchesAppend([Literal('+')], "+", CompileName(dt), MkVarNameLeftToRight(t));
        } else {
          CompileNameStep(l[0], dt);
          var pc := if l[0] == '.' then AnyChar else Literal(l[0]);
          NameMatchesAppend([pc], [l[0]], CompileName(dt), MkVarNameLeftToRight(t));
        }
      }
    }
  }

  /** The pattern `parseMkFile` compiles from a library name matches the make variable of
    * that library: `\+` is a literal `+`, and a remaining `.` matches itself. */
  lemma {:induction false} DepVarNameMatchesMkVar(buildObjectName: string)
    requires '\\' !in buildObjectName && '\n' !in buildObjectName
    ensures NameMatches(CompileName(DepVarName(buildObjectName)), MkVarName(buildObjectName))
  {
    DepVarNameSteps(buildObjectName);
    MkVarNameSteps(buildObjectName);
    LeftToRightMatches(buildObjectName);
  }

    /** The first line, with its group, that a line matcher accepts. */
  function FirstSome(lines: seq<string>, matcher: string -> Option<string>): Option<(nat, string)> {
    if lines == [] then None
    else
      match matcher(lines[0])
      case Some(g) => Some((0, g))
      case None =>
        match FirstSome(lines[1..], matcher)
        case Some(m) => Some((m.0 + 1, m.1))
        case None => None
  }

  lemma {:induction false} FirstSomeSpec(lines: seq<string>, matcher: string -> Option<string>)
    ensures var r := FirstSome(lines, matcher);
      && (r.Some? ==> r.value.0 < |lines| && matcher(lines[r.value.0]) == Some(r.value.1))
      && (r.Some? ==> forall j :: 0 <= j < r.value.0 ==> matcher(lines[j]).None?)
      && (r.None? <==> forall j :: 0 <= j < |lines| ==> matcher(lines[j]).None?)
  {
    if lines != [] && matcher(lines[0]).None? {
      var rest := lines[1..];
      FirstSomeSpec(rest, matcher);
      match FirstSome(rest, matcher)
      case Some(m) =>
        assert lines[m.0 + 1] == rest[m.0];
        forall j | 0 <= j < m.0 + 1 ensures matcher(lines[j]).None? {
          if j > 0 {
            assert lines[j] == rest[j - 1];
          }
        }
      case None =>
        forall j | 0 <= j < |lines| ensures matcher(lines[j]).None? {
          if j > 0 {
            assert lines[j] == rest[j - 1];
          }
        }
    }
  }

  lemma {:induction false} FirstSomeAt(lines: seq<string>, matcher: string -> Option<string>, i: nat)
    requires i < |lines| && matcher(lines[i]).Some?
    requires forall j :: 0 <= j < i ==> matcher(lines[j]).None?
    ensures FirstSome(lines, matcher) == Some((i, matcher(lines[i]).value))
  {
    if i > 0 {
      assert lines[1..][i - 1] == lines[i];
      assert forall j :: 0 <= j < i - 1 ==> lines[1..][j] == lines[j + 1];
      FirstSomeAt(lines[1..], matcher, i - 1);
    }
  }

  /** The loop of `parseMkFile`: the first line matching the definition pattern, and its group. */
  function FirstMatch(lines: seq<string>, pattern: seq<PatternChar>): Option<(nat, string)> {
    FirstSome(lines, l => MkLineMatch(pattern, l))
  }

  /** The search returns the first line that matches, with its group, and finds nothing
    * exactly when no line matches. */
  lemma {:induction false} FirstMatchSpec(lines: seq<string>, pattern: seq<PatternChar>)
    ensures var r := FirstMatch(lines, pattern);
      && (r.Some? ==> r.value.0 < |lines| && MkLineMatch(pattern, lines[r.value.0]) == Some(r.value.1))
      && (r.Some? ==> forall j :: 0 <= j < r.value.0 ==> MkLineMatch(pattern, lines[j]).None?)
      && (r.None? <==> forall j :: 0 <= j < |lines| ==> MkLineMatch(pattern, lines[j]).None?)
  {
    FirstSomeSpec(lines, l => MkLineMatch(pattern, l));
  }

  /** A line that matches after lines that do not is the first match. */
  lemma {:induction false} FirstMatchAt(lines: seq<string>, pattern: seq<PatternChar>, i: nat)
    requires i < |lines| && MkLineMatch(pattern, lines[i]).Some?
    requires forall j :: 0 <= j < i ==> MkLineMatch(pattern, lines[j]).None?
    ensures FirstMatch(lines, pattern) == Some((i, MkLineMatch(pattern, lines[i]).value))
  {
    FirstSomeAt(lines, l => MkLineMatch(pattern, l), i);
  }

  /** What `parseMkFile` returns for the lines of a `.mk` file. */
  function MkFileDependencies(lines: seq<string>, buildObjectName: string): Option<seq<string>> {
    match FirstMatch(lines, CompileName(DepVarName(buildObjectName)))
    case Some(m) => Some(ParseDependencyList(m.1))
    case None => None
  }

  /** A `.mk` file whose first line defines the library's variable yields that line's
    * dependency list. */
  lemma {:induction false} MkFileFindsDefinition(buildObjectName: string, value: string, rest: seq<string>)
    requires '\\' !in buildObjectName && '\n' !in buildObjectName
    requires MkVarName(buildObjectName) != [] && !IsSpace(MkVarName(buildObjectName)[0])
    requires value != [] && !IsSpace(value[0]) && !IsSpace(value[|value| - 1]) && '\n' !in value
    ensures MkFileDependencies([MkVarName(buildObjectName) + " := " + value] + rest, buildObjectName) ==
      Some(ParseDependencyList(value))
  {
    var pattern := CompileName(DepVarName(buildObjectName));
    var lines := [MkVarName(buildObjectName) + " := " + value] + rest;
    DepVarNameMatchesMkVar(buildObjectName);
    DefinitionLineMatches(pattern, MkVarName(buildObjectName), value);
    FirstMatchAt(lines, pattern, 0);
  }

  /** `parseMkFile`: the loop over the lines, returning at the first match. */
  method ParseMkFile(lines: seq<string>, buildObjectName: string) returns (deps: Option<seq<string>>)
    ensures deps == MkFileDependencies(lines, buildObjectName)
  {
    var pattern := CompileName(DepVarName(buildObjectName));
    for i := 0 to |lines|
      invariant forall j :: 0 <= j < i ==> MkLineMatch(pattern, lines[j]).None?
    {
      var matched := MkLineMatch(pattern, lines[i]);
      if matched.Some? {
        FirstMatchAt(lines, pattern, i);
        return Some(ParseDependencyList(matched.value));
      }
    }
    FirstMatchSpec(lines, pattern);
    return None;
  }

  // ---------------------------------------------------------------------------
  // `parseVipkgReqsFile`: the stripped lines that are neither blank nor comments.

  predicate IsRequirement(stripped: string) {
    stripped != "" && !StartsWith(stripped, "#")
  }

  /** The requirement lines, stripped, in file order. */
  function RequirementLines(lines: seq<string>): (urls: seq<string>)
    ensures |urls| <= |lines|
    ensures forall k :: 0 <= k < |urls| ==> IsRequirement(urls[k])
  {
    if lines == [] then []
    else
      var rest := RequirementLines(lines[1..]);
      if IsRequirement(Strip(lines[0])) then [Strip(lines[0])] + rest else rest
  }

  /** Exactly the stripped lines that are requirements are kept. */
  lemma {:induction false} RequirementLinesMembers(lines: seq<string>, u: string)
    ensures u in RequirementLines(lines) <==> exists i :: 0 <= i < |lines| && u == Strip(lines[i]) && IsRequirement(u)
  {
    if lines != [] {
      RequirementLinesMembers(lines[1..], u);
      if exists i :: 0 <= i < |lines| && u == Strip(lines[i]) && IsRequirement(u) {
        var i :| 0 <= i < |lines| && u == Strip(lines[i]) && IsRequirement(u);
        if i > 0 {
          assert lines[1..][i - 1] == lines[i];
        }
      }
      if u in RequirementLines(lines[1..]) {
        var i :| 0 <= i < |lines| - 1 && u == Strip(lines[1..][i]) && IsRequirement(u);
        assert lines[i + 1] == lines[1..][i];
      }
    }
  }

  lemma {:induction false} RequirementLinesStep(lines: seq<string>, i: nat)
    requires i < |lines|
    ensures RequirementLines(lines[i..]) ==
      (if IsRequirement(Strip(lines[i])) then [Strip(lines[i])] else []) + RequirementLines(lines[i + 1..])
  {
    assert lines[i..][1..] == lines[i + 1..];
  }

  /** `parseVipkgReqsFile`: the requirement lines, or None when there are none. */
  method ParseVipkgReqsFile(lines: seq<string>) returns (urls: Option<seq<string>>)
    ensures urls == if RequirementLines(lines) == [] then None else Some(RequirementLines(lines))
  {
    var found: seq<string> := [];
    for i := 0 to |lines|
      invariant found + RequirementLines(lines[i..]) == RequirementLines(lines)
    {
      var line := Strip(lines[i]);
      RequirementLinesStep(lines, i);
      if !IsRequirement(line) {
        continue;
      }
      found := found + [line];
    }
    assert lines[|lines|..] == [];
    assert found == RequirementLines(lines);
    if |found| > 0 {
      return Some(found);
    }
    return None;
  }
}
