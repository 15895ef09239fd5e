/**
 * The link helpers of includes/functions.php: site_url(), asset(), media_url() and
 * relative_path() turn a project path into a link relative to the running script, and
 * split_full_name() cuts a name at its first space. The script path (`SCRIPT_NAME`) and
 * the project's base path under the document root are parameters.
 */
module Paths {
  import opened Php

  // ---------------------------------------------------------------- split_full_name

  /** split_full_name($name): the first word, and the rest joined by single spaces. */
  function SplitFullName(name: string): (r: (string, string))
    ensures ' ' !in r.0
  {
    var n := Trim(ReplaceSpaceRuns(name, ' '));
    if n == "" then ("", "")
    else
      var parts := Split(n, ' ');
      (parts[0], Join(parts[1..], ' '))
  }

  lemma {:induction false} JoinFront(parts: seq<string>, sep: char)
    requires |parts| >= 2
    ensures Join(parts, sep) == parts[0] + [sep] + Join(parts[1..], sep)
  {
    if |parts| > 2 {
      var n := |parts| - 1;
      JoinFront(parts[..n], sep);
      assert parts[..n][1..] == parts[1..][..|parts[1..]| - 1];
    }
  }

  /**
   * The two halves of split_full_name() put back together with one space give the
   * whitespace-normalised name, and the first half is empty only for a blank name.
   */
  lemma SplitFullNameRejoins(name: string)
    ensures var n := Trim(ReplaceSpaceRuns(name, ' '));
      var r := SplitFullName(name);
      && (r.0 == "" <==> n == "")
      && n == r.0 + (if r.1 == "" then "" else " " + r.1)
  {
    var n := Trim(ReplaceSpaceRuns(name, ' '));
    if n != "" {
      var parts := Split(n, ' ');
      SplitJoin(n, ' ');
      if |parts| >= 2 {
        JoinFront(parts, ' ');
        JoinNonEmpty(parts[1..], ' ', n);
      } else {
        assert Join(parts[1..], ' ') == "";
      }
      FirstWordNonEmpty(n, ' ');
    }
  }

  /** A trimmed, non-empty string does not begin with a separator, so its first word is non-empty. */
  lemma FirstWordNonEmpty(n: string, sep: char)
    requires n != "" && n[0] != sep
    ensures Split(n, sep)[0] != ""
  {
    SplitJoin(n, sep);
    var parts := Split(n, sep);
    if |parts| >= 2 {
      JoinFront(parts, sep);
    }
  }

  lemma JoinNonEmpty(rest: seq<string>, sep: char, n: string)
    requires |rest| >= 1 && n != [] && n[|n| - 1] != sep
    requires exists pre :: n == pre + [sep] + Join(rest, sep)
    ensures Join(rest, sep) != ""
  {
  }

  // ---------------------------------------------------------------- directories

  /** `str_replace('\\', '/', $s)`. */
  function Slashes(s: string): (r: string)
    ensures |r| == |s| && '\\' !in r
  {
    seq(|s|, i requires 0 <= i < |s| => if s[i] == '\\' then '/' else s[i])
  }

  /** The directory of the running script as the helpers compute it: no slash at either end. */
  function ScriptDir(scriptName: string): (r: string)
    ensures r == "" || (r[0] != '/' && r[|r| - 1] != '/')
  {
    TrimChar(Slashes(Dirname(scriptName)), '/')
  }

  /** The script sits at the top: its directory is "" or ".". */
  predicate AtTop(dir: string)
  {
    dir == "" || dir == "."
  }

  /** The directory part of a target path, "" when there is none. */
  function TargetDir(trimmed: string): (r: string)
    ensures r != "."
  {
    var d := TrimChar(Dirname(trimmed), '/');
    if d == "." || d == "" then "" else d
  }

  /** `substr_count($dir, '/') + 1`: one more than the slashes, the number of segments. */
  lemma {:induction false} SegmentsAreSlashesPlusOne(s: string)
    ensures |Split(s, '/')| == Count(s, '/') + 1
  {
    var k := LastIndexOf(s, '/');
    if k >= 0 {
      SegmentsAreSlashesPlusOne(s[..k]);
      CountSplitAt(s, k);
    } else {
      assert '/' !in s;
    }
  }

  lemma {:induction false} CountSplitAt(s: string, k: nat)
    requires k < |s| && s[k] == '/' && '/' !in s[k + 1..]
    ensures Count(s, '/') == Count(s[..k], '/') + 1
  {
    CountAppend(s[..k], s[k..], '/');
    assert s == s[..k] + s[k..];
    assert s[k..] == ['/'] + s[k + 1..];
    CountAppend(['/'], s[k + 1..], '/');
  }

  lemma {:induction false} CountAppend(a: string, b: string, c: char)
    ensures Count(a + b, c) == Count(a, c) + Count(b, c)
  {
    if a != [] {
      assert (a + b)[0] == a[0];
      assert (a + b)[1..] == a[1..] + b;
      CountAppend(a[1..], b, c);
      assert Count(a + b, c) == (if a[0] == c then 1 else 0) + Count(a[1..] + b, c);
    } else {
      assert a + b == b;
    }
  }

  // ---------------------------------------------------------------- asset, site_url, media_url

  /** How many levels asset() climbs from the script's directory to reach the project root. */
  function AssetUps(base: string, scriptDir: string): nat
  {
    if base == "" then
      if AtTop(scriptDir) then 0 else Count(scriptDir, '/') + 1
    else
      var projectDir := TrimChar(base, '/');
      if scriptDir == projectDir then 0
      else if StartsWith(scriptDir, projectDir + "/") then Count(scriptDir[|projectDir| + 1..], '/') + 1
      else if AtTop(scriptDir) then 0
      else Count(scriptDir, '/')
  }

  /** asset($path): climb to the project root, then `assets/` and the path without leading slashes. */
  function Asset(path: string, base: string, scriptName: string): (r: string)
    ensures var tail := "assets/" + LTrimChar(path, '/');
      |r| >= |tail| && r[|r| - |tail|..] == tail
  {
    var ups := Repeat("../", AssetUps(base, ScriptDir(scriptName)));
    var tail := "assets/" + LTrimChar(path, '/');
    assert (ups + tail)[|ups|..] == tail;
    ups + tail
  }

  /**
   * With the project at the document root, asset() climbs from a script in a directory
   * of k segments exactly k levels, and none from a script at the top.
   */
  lemma AssetFromDocumentRoot(scriptDir: string)
    ensures AssetUps("", scriptDir) == if AtTop(scriptDir) then 0 else |Split(scriptDir, '/')|
  {
    SegmentsAreSlashesPlusOne(scriptDir);
  }

  /**
   * With the project in a directory of its own, asset() climbs from a script below it
   * exactly the segments between the project directory and the script's directory.
   */
  lemma AssetFromProjectDir(base: string, scriptDir: string, projectDir: string)
    requires base != "" && projectDir == TrimChar(base, '/')
    requires StartsWith(scriptDir, projectDir + "/")
    ensures AssetUps(base, scriptDir) == |Split(scriptDir[|projectDir| + 1..], '/')|
  {
    assert scriptDir != projectDir;
    SegmentsAreSlashesPlusOne(scriptDir[|projectDir| + 1..]);
  }

  /** site_url($path) when the path names no file: the link back to index.php. */
  function HomeUrl(base: string, scriptDir: string): (r: string)
    ensures |r| >= 9 && r[|r| - 9..] == "index.php"
  {
    if base == "" then
      if AtTop(scriptDir) then "index.php" else Repeat("../", Count(scriptDir, '/') + 1) + "index.php"
    else
      var projectDir := TrimChar(base, '/');
      if scriptDir == projectDir then "index.php"
      else if StartsWith(scriptDir, projectDir + "/") then
        Repeat("../", Count(scriptDir[|projectDir| + 1..], '/') + 1) + "index.php"
      else "index.php"
  }

  /** site_url($path, …) for a path that names a file. */
  function FileUrl(trimmed: string, base: string, scriptDir: string): string
  {
    var targetDir := TargetDir(trimmed);
    if base == "" then
      if AtTop(scriptDir) then trimmed
      else if targetDir == scriptDir then Basename(trimmed)
      else if targetDir != "" && StartsWith(targetDir, scriptDir + "/") then
        targetDir[|scriptDir| + 1..] + "/" + Basename(trimmed)
      else Repeat("../", Count(scriptDir, '/') + 1) + trimmed
    else
      var projectDir := TrimChar(base, '/');
      if scriptDir == projectDir then trimmed
      else if StartsWith(scriptDir, projectDir + "/") then
        var scriptRel := scriptDir[|projectDir| + 1..];
        var ups := Count(scriptRel, '/') + 1;
        if targetDir != "" && StartsWith(targetDir, projectDir + "/") then
          var targetRel := targetDir[|projectDir| + 1..];
          if targetRel == scriptRel then Basename(trimmed)
          else if StartsWith(targetRel, scriptRel + "/") then
            targetRel[|scriptRel| + 1..] + "/" + Basename(trimmed)
          else Repeat("../", ups) + trimmed
        else Repeat("../", ups) + trimmed
      else if AtTop(scriptDir) then trimmed
      else if targetDir == scriptDir then Basename(trimmed)
      else if Count(scriptDir, '/') == 0 then trimmed
      else Repeat("../", Count(scriptDir, '/')) + trimmed
  }

  /** site_url($path). */
  function SiteUrl(path: string, base: string, scriptName: string): (r: string)
    ensures LTrimChar(path, '/') == "" ==> |r| >= 9 && r[|r| - 9..] == "index.php"
  {
    var trimmed := LTrimChar(path, '/');
    if trimmed == "" then HomeUrl(base, ScriptDir(scriptName))
    else FileUrl(trimmed, base, ScriptDir(scriptName))
  }

  /**
   * With the project at the document root, a link from a script k segments deep to a
   * file outside the script's directory tree climbs exactly k levels and then names the
   * file by its full project path.
   */
  lemma SiteUrlClimbsFromDocumentRoot(trimmed: string, scriptDir: string)
    requires trimmed != "" && !AtTop(scriptDir)
    requires TargetDir(trimmed) != scriptDir && !StartsWith(TargetDir(trimmed), scriptDir + "/")
    ensures FileUrl(trimmed, "", scriptDir) == Repeat("../", |Split(scriptDir, '/')|) + trimmed
  {
    SegmentsAreSlashesPlusOne(scriptDir);
  }

  /** The home link from a script k segments below the document root climbs exactly k levels. */
  lemma HomeFromDocumentRoot(scriptDir: string)
    requires !AtTop(scriptDir)
    ensures HomeUrl("", scriptDir) == Repeat("../", |Split(scriptDir, '/')|) + "index.php"
  {
    SegmentsAreSlashesPlusOne(scriptDir);
  }

  /** A link that starts with http:// or https://, in any letter case. */
  predicate IsHttpUrl(s: string)
  {
    StartsWith(Lower(s), "http://") || StartsWith(Lower(s), "https://")
  }

  /** The path media_url() hands to asset(), before encoding: below `assets/`, or below `assets/images/`. */
  function MediaPath(clean: string): string
  {
    if StartsWith(clean, "assets/") then clean[7..] else "images/" + clean
  }

  /** rawurlencode() of each '/'-separated segment, the encoder being a parameter. */
  function EncodeSegments(path: string, encode: string -> string): (r: string)
  {
    var parts := Split(path, '/');
    Join(seq(|parts|, i requires 0 <= i < |parts| => encode(parts[i])), '/')
  }

  /** media_url($path): the logo for nothing, a web URL as it is, otherwise an asset link. */
  function MediaUrl(path: Option<string>, base: string, scriptName: string, encode: string -> string): (r: string)
    ensures var p := Trim(if path.Some? then path.value else "");
      (p == "" ==> r == Asset("images/logo.png", base, scriptName))
      && (p != "" && IsHttpUrl(p) ==> r == p)
  {
    var p := Trim(if path.Some? then path.value else "");
    if p == "" then Asset("images/logo.png", base, scriptName)
    else if IsHttpUrl(p) then p
    else Asset(EncodeSegments(MediaPath(LTrimChar(p, '/')), encode), base, scriptName)
  }

  /** With an encoder that changes nothing, the segments come back as they were. */
  lemma EncodeIdentity(path: string, encode: string -> string)
    requires forall s :: encode(s) == s
    ensures EncodeSegments(path, encode) == path
  {
    var parts := Split(path, '/');
    assert seq(|parts|, i requires 0 <= i < |parts| => encode(parts[i])) == parts;
    SplitJoin(path, '/');
  }

  // ---------------------------------------------------------------- relative_path

  /** The length of the common prefix of two segment lists. */
  function CommonPrefix(a: seq<string>, b: seq<string>): (n: nat)
    ensures n <= |a| && n <= |b| && a[..n] == b[..n]
    ensures n < |a| && n < |b| ==> a[n] != b[n]
  {
    if a == [] || b == [] || a[0] != b[0] then 0
    else
      var n := CommonPrefix(a[1..], b[1..]);
      assert a[..n + 1] == [a[0]] + a[1..][..n];
      assert b[..n + 1] == [b[0]] + b[1..][..n];
      n + 1
  }

  /** The link relative_path() builds: climb out of the script's segments, descend the rest, name the file. */
  function RelativeLink(scriptParts: seq<string>, targetParts: seq<string>, file: string): string
  {
    var common := CommonPrefix(scriptParts, targetParts);
    var down := targetParts[common..];
    Repeat("../", |scriptParts| - common) + (if down != [] then Join(down, '/') + "/" else "") + file
  }

  /** relative_path($targetPath) as written: a target directory of "" is still exploded into one empty segment. */
  function RelativePathAsWritten(targetPath: string, scriptName: string): string
  {
    var target := LTrimChar(targetPath, '/');
    var scriptDir := ScriptDir(scriptName);
    var targetDir := TargetDir(target);
    if AtTop(scriptDir) then target
    else if targetDir == scriptDir then Basename(target)
    else RelativeLink(Split(scriptDir, '/'), Split(targetDir, '/'), Basename(target))
  }

  /** The segments of a directory: none for the top, otherwise the exploded path. */
  function Segments(dir: string): seq<string>
  {
    if dir == "" then [] else Split(dir, '/')
  }

  /** relative_path($targetPath) with a top-level target directory taken as no segments at all. */
  function RelativePath(targetPath: string, scriptName: string): string
  {
    var target := LTrimChar(targetPath, '/');
    var scriptDir := ScriptDir(scriptName);
    var targetDir := TargetDir(target);
    if AtTop(scriptDir) then target
    else if targetDir == scriptDir then Basename(target)
    else RelativeLink(Split(scriptDir, '/'), Segments(targetDir), Basename(target))
  }

  /** Where a link of `up` climbs and `down` segments leads from a directory. */
  function Reach(from: seq<string>, up: nat, down: seq<string>): seq<string>
    requires up <= |from|
  {
    from[..|from| - up] + down
  }

  /** The climb-and-descend link of relative_path() leads from the script's directory to the target's. */
  lemma RelativeLinkReachesTarget(scriptParts: seq<string>, targetParts: seq<string>)
    ensures var common := CommonPrefix(scriptParts, targetParts);
      Reach(scriptParts, |scriptParts| - common, targetParts[common..]) == targetParts
  {
    var common := CommonPrefix(scriptParts, targetParts);
    assert targetParts == targetParts[..common] + targetParts[common..];
  }

  lemma ScriptDirOfAdminPage()
    ensures ScriptDir("/admin/users.php") == "admin"
  {
    var q := RTrimChar("/admin/users.php", '/');
    assert q == "/admin/users.php";
    assert q[6] == '/' && forall i :: 6 < i < |q| ==> q[i] != '/';
    assert LastIndexOf(q, '/') == 6;
    assert RTrimChar("/admin", '/') == "/admin";
    assert Dirname("/admin/users.php") == "/admin";
    assert Slashes("/admin") == "/admin";
    assert LTrimChar("/admin", '/') == "admin";
    assert RTrimChar("admin", '/') == "admin";
  }

  lemma TopLevelTarget()
    ensures LTrimChar("index.php", '/') == "index.php"
    ensures TargetDir("index.php") == ""
    ensures Basename("index.php") == "index.php"
  {
    assert RTrimChar("index.php", '/') == "index.php";
    assert LastIndexOf("index.php", '/') == -1;
    assert Dirname("index.php") == ".";
    assert TrimChar(".", '/') == ".";
  }

  /**
   * For a file at the top of the project, linked from a script one directory down, the
   * code as written climbs one level and then adds an empty segment: "..//index.php",
   * where "../index.php" is meant.
   */
  lemma RelativePathDoubleSlash()
    ensures RelativePathAsWritten("index.php", "/admin/users.php") == "..//index.php"
    ensures RelativePath("index.php", "/admin/users.php") == "../index.php"
  {
    ScriptDirOfAdminPage();
    TopLevelTarget();
    assert Split("admin", '/') == ["admin"];
    assert Split("", '/') == [""];
    assert RelativePathAsWritten("index.php", "/admin/users.php") == RelativeLink(["admin"], [""], "index.php");
    assert RelativePath("index.php", "/admin/users.php") == RelativeLink(["admin"], [], "index.php");
    LinksFromAdmin();
  }

  /**
   * A file at the top of the project, linked from a script below the top: the corrected
   * link climbs once per segment of the script's directory and then names the file, while
   * the code as written puts an extra '/' between the two.
   */
  lemma TopLevelTargetLink(targetPath: string, scriptName: string)
    requires !AtTop(ScriptDir(scriptName))
    requires TargetDir(LTrimChar(targetPath, '/')) == ""
    ensures var up := Repeat("../", |Split(ScriptDir(scriptName), '/')|);
      var file := Basename(LTrimChar(targetPath, '/'));
      && RelativePath(targetPath, scriptName) == up + file
      && RelativePathAsWritten(targetPath, scriptName) == up + "/" + file
  {
    var target := LTrimChar(targetPath, '/');
    var scriptDir := ScriptDir(scriptName);
    var parts := Split(scriptDir, '/');
    var up := Repeat("../", |parts|);
    var file := Basename(target);
    assert TargetDir(target) != scriptDir;
    FirstWordNonEmpty(scriptDir, '/');
    assert RelativePath(targetPath, scriptName) == RelativeLink(parts, Segments(""), file);
    assert RelativePathAsWritten(targetPath, scriptName) == RelativeLink(parts, Split("", '/'), file);
    LinkToTop(parts, file);
    LinkToTopAsWritten(parts, file);
  }

  /** From segments whose first one is not empty, the link to a top-level file climbs them all. */
  lemma LinkToTop(parts: seq<string>, file: string)
    requires |parts| >= 1 && parts[0] != ""
    ensures RelativeLink(parts, [], file) == Repeat("../", |parts|) + file
  {
    var targetParts: seq<string> := [];
    assert CommonPrefix(parts, targetParts) == 0;
    assert targetParts[0..] == [];
  }

  /** The same link as written, with the top exploded into one empty segment: an extra '/' before the file. */
  lemma LinkToTopAsWritten(parts: seq<string>, file: string)
    requires |parts| >= 1 && parts[0] != ""
    ensures RelativeLink(parts, Split("", '/'), file) == Repeat("../", |parts|) + "/" + file
  {
    var targetParts := Split("", '/');
    assert targetParts == [""];
    assert CommonPrefix(parts, targetParts) == 0;
    assert targetParts[0..] == [""];
    assert Join([""], '/') == "";
  }

  lemma LinksFromAdmin()
    ensures RelativeLink(["admin"], [""], "index.php") == "..//index.php"
    ensures RelativeLink(["admin"], [], "index.php") == "../index.php"
  {
    assert CommonPrefix(["admin"], [""]) == 0;
    assert CommonPrefix(["admin"], []) == 0;
    assert Join([""], '/') == "";
    assert Repeat("../", 1) == "../";
  }

  /** The common-prefix loop of relative_path(). */
  method CommonLength(scriptParts: seq<string>, targetParts: seq<string>) returns (common: nat)
    ensures common == CommonPrefix(scriptParts, targetParts)
  {
    common := 0;
    var minLength := if |scriptParts| < |targetParts| then |scriptParts| else |targetParts|;
    var i := 0;
    while i < minLength
      invariant 0 <= i <= minLength && common == i
      invariant scriptParts[..i] == targetParts[..i]
      invariant CommonPrefix(scriptParts, targetParts) == i + CommonPrefix(scriptParts[i..], targetParts[i..])
    {
      if scriptParts[i] == targetParts[i] {
        common := common + 1;
      } else {
        break;
      }
      assert scriptParts[..i + 1] == targetParts[..i + 1];
      i := i + 1;
    }
  }
}
