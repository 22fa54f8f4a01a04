/** The two POSIX path operations the helpers rely on: joining the secrets
    directory with a file name, and splitting off a file's extension. */
module Paths {

  /** A path beginning with the separator. */
  predicate IsAbsolute(p: string)
  {
    |p| > 0 && p[0] == '/'
  }

  /** `posixpath.join(a, b)`: an absolute `b` replaces `a`; otherwise a single
      `/` separates them unless `a` is empty or already ends with one. */
  function Join(a: string, b: string): (r: string)
    ensures IsAbsolute(b) ==> r == b
    ensures |r| >= |b| && r[|r| - |b|..] == b
  {
    if IsAbsolute(b) then b
    else if |a| == 0 || a[|a| - 1] == '/' then a + b
    else a + "/" + b
  }

  /** An absolute `b` is the whole result. For a relative `b`, the joined
      path is `a`, then one separator exactly when `a` is non-empty and does
      not already end with one, then `b`; what precedes `b` is empty or ends
      with a separator. */
  lemma JoinShape(a: string, b: string)
    ensures IsAbsolute(b) ==> Join(a, b) == b
    ensures !IsAbsolute(b) ==>
              var r := Join(a, b);
              var head := r[..|r| - |b|];
              && r == head + b
              && (head == a || head == a + "/")
              && (head == a + "/" <==> |a| > 0 && a[|a| - 1] != '/')
              && (|head| == 0 || head[|head| - 1] == '/')
  {
  }

  /** A single path component: non-empty, with no separator at either end. */
  predicate Component(s: string)
  {
    |s| > 0 && s[0] != '/' && s[|s| - 1] != '/'
  }

  /** `os.path.join('deployments', deployment, 'secrets', name)`. */
  function SecretPath(deployment: string, name: string): (r: string)
    ensures IsAbsolute(name) ==> r == name
    ensures |r| >= |name| && r[|r| - |name|..] == name
  {
    Join(Join(Join("deployments", deployment), "secrets"), name)
  }

  /** For a deployment that is one path component and a relative secret name,
      the secret lives at `deployments/<deployment>/secrets/<name>`. */
  lemma SecretPathShape(deployment: string, name: string)
    requires Component(deployment) && !IsAbsolute(name)
    ensures SecretPath(deployment, name) == "deployments/" + deployment + "/secrets/" + name
  {
    var d := Join("deployments", deployment);
    assert d == "deployments/" + deployment;
    assert Join(d, "secrets") == "deployments/" + deployment + "/secrets";
  }

  /** `str.rfind` for one character: the last index holding `c`, or -1. */
  function LastIndex(s: string, c: char): (r: int)
    ensures -1 <= r < |s|
    ensures r >= 0 ==> s[r] == c
    ensures forall i :: r < i < |s| ==> s[i] != c
    decreases |s|
  {
    if |s| == 0 then -1
    else if s[|s| - 1] == c then |s| - 1
    else LastIndex(s[..|s| - 1], c)
  }

  /** The second half of `os.path.splitext(path)`: from the last `.` of the
      final path component, provided that component has something other than
      dots before it; otherwise empty. */
  function Extension(path: string): (r: string)
    ensures r == "" || (|r| <= |path| && r == path[|path| - |r|..])
    ensures r != "" ==> r[0] == '.' && (forall i :: 0 < i < |r| ==> r[i] != '.') && (forall i :: 0 <= i < |r| ==> r[i] != '/')
  {
    var sep := LastIndex(path, '/');
    var dot := LastIndex(path, '.');
    if dot > sep && exists i :: sep < i < dot && path[i] != '.' then path[dot..] else ""
  }

  /** A name made of a stem that does not end in `.` or `/` and a suffix that is
      a dot followed by neither dots nor slashes has exactly that suffix as its
      extension: `key.yaml`, `creds.json`, `deploy/sa.yml`. */
  lemma {:induction false} ExtensionOfSuffix(stem: string, suffix: string)
    requires |stem| > 0 && stem[|stem| - 1] != '.' && stem[|stem| - 1] != '/'
    requires |suffix| > 0 && suffix[0] == '.'
    requires forall i :: 0 < i < |suffix| ==> suffix[i] != '.' && suffix[i] != '/'
    ensures Extension(stem + suffix) == suffix
  {
    var path := stem + suffix;
    var n := |stem|;
    assert forall i :: n <= i < |path| ==> path[i] == suffix[i - n];
    var dot := LastIndex(path, '.');
    var sep := LastIndex(path, '/');
    assert path[n] == '.';
    assert dot == n;
    assert path[n - 1] == stem[n - 1];
    assert sep < n - 1;
    assert path[dot..] == suffix;
  }

  /** `LastIndex` is determined by what it promises: any index that holds `c`
      (or is -1) with no `c` after it is the last index of `c`. */
  lemma LastIndexUnique(s: string, c: char, r: int)
    requires -1 <= r < |s|
    requires r >= 0 ==> s[r] == c
    requires forall i :: r < i < |s| ==> s[i] != c
    ensures r == LastIndex(s, c)
  {
  }

  /** A name with no separator after a directory prefix (empty or ending in
      `/`) keeps its own extension. */
  lemma {:induction false} ExtensionAfterDirectory(head: string, name: string)
    requires |head| > 0 && head[|head| - 1] == '/'
    requires forall i :: 0 <= i < |name| ==> name[i] != '/'
    ensures Extension(head + name) == Extension(name)
  {
    var p := head + name;
    var n := |head|;
    assert forall i :: n <= i < |p| ==> p[i] == name[i - n];
    LastIndexUnique(p, '/', n - 1);
    LastIndexUnique(name, '/', -1);
    var dotName := LastIndex(name, '.');
    if dotName >= 0 {
      LastIndexUnique(p, '.', n + dotName);
      DottedAfterDirectory(head, name, dotName);
    } else {
      UndottedExtension(p, n - 1);
      UndottedExtension(name, -1);
    }
  }

  lemma DottedAfterDirectory(head: string, name: string, dot: int)
    requires |head| > 0
    requires -1 == LastIndex(name, '/') && |head| - 1 == LastIndex(head + name, '/')
    requires 0 <= dot == LastIndex(name, '.') && |head| + dot == LastIndex(head + name, '.')
    ensures Extension(head + name) == Extension(name)
  {
    var p := head + name;
    var n := |head|;
    StemShifts(head, name, dot);
    assert p[n + dot..] == name[dot..];
    DottedExtension(p, n - 1, n + dot);
    DottedExtension(name, -1, dot);
  }

  /** `Extension` once the last separator and the last dot are known, with the
      dot after the separator. */
  lemma DottedExtension(p: string, sep: int, dot: int)
    requires sep == LastIndex(p, '/') && dot == LastIndex(p, '.') && dot > sep
    ensures Extension(p) == if exists i :: sep < i < dot && p[i] != '.' then p[dot..] else ""
  {
  }

  /** `Extension` is empty when no dot follows the last separator. */
  lemma UndottedExtension(p: string, sep: int)
    requires sep == LastIndex(p, '/') && LastIndex(p, '.') <= sep
    ensures Extension(p) == ""
  {
  }

  /** Something other than a dot before position `dot` of the name, shifted
      past the directory prefix. */
  lemma StemShifts(head: string, name: string, dot: int)
    requires 0 <= dot < |name|
    ensures var p := head + name;
            (exists i :: |head| - 1 < i < |head| + dot && p[i] != '.') <==> (exists j :: -1 < j < dot && name[j] != '.')
  {
    var p := head + name;
    var n := |head|;
    if exists i :: n - 1 < i < n + dot && p[i] != '.' {
      var i :| n - 1 < i < n + dot && p[i] != '.';
      assert name[i - n] == p[i];
    }
    if exists j :: -1 < j < dot && name[j] != '.' {
      var j :| -1 < j < dot && name[j] != '.';
      assert p[j + n] == name[j];
    }
  }

  /** Joining a directory with a name that has no separator leaves the name
      as the final component, so the extension is the name's own. */
  lemma {:induction false} ExtensionOfJoin(a: string, name: string)
    requires forall i :: 0 <= i < |name| ==> name[i] != '/'
    ensures Extension(Join(a, name)) == Extension(name)
  {
    var p := Join(a, name);
    var head := p[..|p| - |name|];
    assert p == head + name;
    if |name| > 0 {
      assert name[0] != '/';
    }
    JoinShape(a, name);
    if |head| > 0 {
      ExtensionAfterDirectory(head, name);
    }
  }

  /** The secret file's extension, which decides how `decrypt_file` reads it,
      is the extension of the name given in the configuration. */
  lemma {:induction false} SecretPathExtension(deployment: string, name: string)
    requires forall i :: 0 <= i < |name| ==> name[i] != '/'
    ensures Extension(SecretPath(deployment, name)) == Extension(name)
  {
    ExtensionOfJoin(Join(Join("deployments", deployment), "secrets"), name);
  }

  /** Leading dots do not start an extension: a final component made of dots
      followed by text without a dot (`.yaml`, `..env`, `..`) has none. */
  lemma {:induction false} LeadingDotsHaveNoExtension(dots: string, name: string)
    requires |dots| > 0 && forall i :: 0 <= i < |dots| ==> dots[i] == '.'
    requires forall i :: 0 <= i < |name| ==> name[i] != '.' && name[i] != '/'
    ensures Extension(dots + name) == ""
  {
    var p := dots + name;
    var n := |dots|;
    assert forall i :: n <= i < |p| ==> p[i] == name[i - n];
    assert forall i :: 0 <= i < n ==> p[i] == dots[i];
    LastIndexUnique(p, '/', -1);
    LastIndexUnique(p, '.', n - 1);
    assert !exists i :: -1 < i < n - 1 && p[i] != '.';
  }

  /** Dots at the end of the stem do not matter once the stem has a character
      other than a dot: the extension of `a..yaml` is `.yaml`. */
  lemma {:induction false} ExtensionAfterDottedStem(stem: string, suffix: string)
    requires forall i :: 0 <= i < |stem| ==> stem[i] != '/'
    requires exists i :: 0 <= i < |stem| && stem[i] != '.'
    requires |suffix| > 0 && suffix[0] == '.'
    requires forall i :: 0 < i < |suffix| ==> suffix[i] != '.' && suffix[i] != '/'
    ensures Extension(stem + suffix) == suffix
  {
    var p := stem + suffix;
    var n := |stem|;
    assert forall i :: n <= i < |p| ==> p[i] == suffix[i - n];
    assert forall i :: 0 <= i < n ==> p[i] == stem[i];
    LastIndexUnique(p, '/', -1);
    LastIndexUnique(p, '.', n);
    var k :| 0 <= k < n && stem[k] != '.';
    assert p[k] != '.';
    assert p[n..] == suffix;
  }

  /** The two cases `os.path.splitext` documents: `.yaml` has no extension and
      `a..yaml` has `.yaml`. */
  lemma SplitextCases()
    ensures Extension(".yaml") == ""
    ensures Extension("a..yaml") == ".yaml"
  {
    LeadingDotsHaveNoExtension(".", "yaml");
    assert "." + "yaml" == ".yaml";
    assert "a." + ".yaml" == "a..yaml";
    assert ("a.")[0] != '.';
    ExtensionAfterDottedStem("a.", ".yaml");
  }
}
