/**
 * The PHP value and string behaviour the shop's code relies on: the truthiness of
 * strings, trim(), strtolower(), strpos() as a substring test, htmlspecialchars()
 * through sanitize(), dirname()/basename()/pathinfo(), str_repeat() and a few
 * regular-expression rewrites. A string is a sequence of characters, one per byte.
 */
module Php {

  datatype Option<T> = None | Some(value: T)


  /** `filter_var($x, FILTER_VALIDATE_EMAIL)`, which the model does not re-implement. */
  type EmailCheck = string -> bool

  // ---------------------------------------------------------------- truthiness

  /** A string PHP treats as false in a condition: "" and "0". */
  predicate FalsyString(s: string)
  {
    s == "" || s == "0"
  }

  /** A nullable string PHP treats as false: null, "" and "0". */
  predicate Falsy(s: Option<string>)
  {
    s.None? || FalsyString(s.value)
  }

  // ---------------------------------------------------------------- trim

  /** The characters trim() removes by default: space, \t, \n, \r, \0 and \x0B. */
  predicate IsTrimChar(c: char)
  {
    c == ' ' || c == '\t' || c == '\n' || c == '\r' || c == '\0' || c == '\U{0B}'
  }

  function TrimLeft(s: string): (r: string)
    ensures |r| <= |s|
    ensures r == [] || !IsTrimChar(r[0])
    ensures forall i :: 0 <= i < |s| - |r| ==> IsTrimChar(s[i])
  {
    if |s| > 0 && IsTrimChar(s[0]) then TrimLeft(s[1..]) else s
  }

  function TrimRight(s: string): (r: string)
    ensures |r| <= |s| && r == s[..|r|]
    ensures r == [] || !IsTrimChar(r[|r| - 1])
    ensures forall i :: |r| <= i < |s| ==> IsTrimChar(s[i])
  {
    if |s| > 0 && IsTrimChar(s[|s| - 1]) then TrimRight(s[..|s| - 1]) else s
  }

  /** trim($s): the longest infix of s that neither starts nor ends with a trim character. */
  function Trim(s: string): (r: string)
    ensures |r| <= |s|
    ensures r == [] || (!IsTrimChar(r[0]) && !IsTrimChar(r[|r| - 1]))
  {
    TrimRight(TrimLeft(s))
  }

  /** A string that neither starts nor ends with a trim character is its own trim. */
  lemma TrimmedIsFixed(s: string)
    requires s != [] && !IsTrimChar(s[0]) && !IsTrimChar(s[|s| - 1])
    ensures Trim(s) == s
  {
    assert TrimLeft(s) == s;
  }

  /** trim($s) === '': the string holds nothing but trim characters. */
  predicate Blank(s: string)
  {
    Trim(s) == ""
  }

  /** ltrim($s, $c) for one character c. */
  function LTrimChar(s: string, c: char): (r: string)
    ensures |r| <= |s|
    ensures r == [] || r[0] != c
    ensures forall i :: 0 <= i < |s| - |r| ==> s[i] == c
  {
    if |s| > 0 && s[0] == c then LTrimChar(s[1..], c) else s
  }

  /** rtrim($s, $c) for one character c. */
  function RTrimChar(s: string, c: char): (r: string)
    ensures |r| <= |s| && r == s[..|r|]
    ensures r == [] || r[|r| - 1] != c
    ensures forall i :: |r| <= i < |s| ==> s[i] == c
  {
    if |s| > 0 && s[|s| - 1] == c then RTrimChar(s[..|s| - 1], c) else s
  }

  /** trim($s, $c) for one character c. */
  function TrimChar(s: string, c: char): (r: string)
    ensures |r| <= |s|
    ensures r == [] || (r[0] != c && r[|r| - 1] != c)
  {
    RTrimChar(LTrimChar(s, c), c)
  }

  // ---------------------------------------------------------------- case and search

  function LowerChar(c: char): (r: char)
    ensures 'A' <= c <= 'Z' ==> 'a' <= r <= 'z'
    ensures !('A' <= c <= 'Z') ==> r == c
  {
    if 'A' <= c <= 'Z' then (c as int + 32) as char else c
  }

  /** strtolower($s): ASCII letters only, every other byte unchanged. */
  function Lower(s: string): (r: string)
    ensures |r| == |s|
    ensures forall i :: 0 <= i < |s| ==> r[i] == LowerChar(s[i])
  {
    seq(|s|, i requires 0 <= i < |s| => LowerChar(s[i]))
  }

  predicate StartsWith(s: string, prefix: string)
  {
    |prefix| <= |s| && s[..|prefix|] == prefix
  }

  /** strpos($hay, $needle) !== false. */
  predicate Contains(hay: string, needle: string)
  {
    StartsWith(hay, needle) || (|hay| > 0 && Contains(hay[1..], needle))
  }

  // ---------------------------------------------------------------- htmlspecialchars

  /** htmlspecialchars($s, ENT_QUOTES): & < > " ' become entities. */
  function EscapeHtml(s: string): (r: string)
    ensures r == [] <==> s == []
    ensures |r| >= |s|
  {
    if s == [] then []
    else
      var head := match s[0]
        case '&' => "&amp;"
        case '<' => "&lt;"
        case '>' => "&gt;"
        case '"' => "&quot;"
        case '\'' => "&#039;"
        case _ => [s[0]];
      head + EscapeHtml(s[1..])
  }

  /** sanitize($s) from includes/functions.php: htmlspecialchars(trim($s), ENT_QUOTES). */
  function Sanitize(s: string): (r: string)
    ensures r == "" <==> Blank(s)
  {
    EscapeHtml(Trim(s))
  }

  // ---------------------------------------------------------------- numbers

  function Repeat(s: string, n: nat): (r: string)
    ensures |r| == n * |s|
  {
    if n == 0 then "" else s + Repeat(s, n - 1)
  }

  function DigitChar(d: nat): char
    requires d < 10
  {
    "0123456789"[d]
  }

  /** The decimal rendering PHP uses when an integer is concatenated to a string. */
  function IntToString(n: int): (r: string)
    ensures |r| >= 1
    ensures n >= 0 ==> r[0] != '-'
  {
    if n < 0 then "-" + NatToString(-n) else NatToString(n)
  }

  function NatToString(n: nat): (r: string)
    ensures |r| >= 1 && r[0] != '-'
  {
    if n < 10 then [DigitChar(n)] else NatToString(n / 10) + [DigitChar(n % 10)]
  }

  /** A rendered number is made of decimal digits only. */
  lemma {:induction false} NatToStringDigits(n: nat)
    ensures forall i :: 0 <= i < |NatToString(n)| ==> '0' <= NatToString(n)[i] <= '9'
  {
    if n >= 10 {
      NatToStringDigits(n / 10);
    }
  }

  /** substr_count($s, $c) for one character c. */
  function Count(s: string, c: char): (r: nat)
    ensures r <= |s|
    ensures r == 0 <==> c !in s
  {
    if s == [] then 0 else (if s[0] == c then 1 else 0) + Count(s[1..], c)
  }

  // ---------------------------------------------------------------- paths

  /** The index of the last c in s, or -1. */
  function LastIndexOf(s: string, c: char): (r: int)
    ensures -1 <= r < |s|
    ensures r >= 0 ==> s[r] == c
    ensures forall i :: r < i < |s| ==> s[i] != c
  {
    if s == [] then -1
    else if s[|s| - 1] == c then |s| - 1
    else LastIndexOf(s[..|s| - 1], c)
  }

  /** basename($p) for '/'-separated paths: the part after the last '/', trailing '/' ignored. */
  function Basename(p: string): (r: string)
    ensures '/' !in r
  {
    var q := RTrimChar(p, '/');
    var k := LastIndexOf(q, '/');
    q[k + 1..]
  }

  /**
   * dirname($p) for '/'-separated paths: "" for "", "." when there is no '/',
   * "/" for a file directly under the root, otherwise everything before the last '/'.
   */
  function Dirname(p: string): (r: string)
  {
    if p == "" then ""
    else
      var q := RTrimChar(p, '/');
      if q == "" then "/"
      else
        var k := LastIndexOf(q, '/');
        if k < 0 then "."
        else
          var d := RTrimChar(q[..k], '/');
          if d == "" then "/" else d
  }

  /** pathinfo($name, PATHINFO_EXTENSION): what follows the last '.' of the basename, or "". */
  function Extension(name: string): (r: string)
    ensures '.' !in r && '/' !in r
  {
    var b := Basename(name);
    var k := LastIndexOf(b, '.');
    if k < 0 then "" else b[k + 1..]
  }

  /** pathinfo($name, PATHINFO_FILENAME): the basename without its last '.' and extension. */
  function FileStem(name: string): (r: string)
    ensures '/' !in r
  {
    var b := Basename(name);
    var k := LastIndexOf(b, '.');
    if k < 0 then b else b[..k]
  }

  /** A name without '/' is its own basename. */
  lemma BasenameOfPlain(p: string)
    requires p != [] && '/' !in p
    ensures Basename(p) == p
  {
    assert p[|p| - 1] != '/';
    assert RTrimChar(p, '/') == p;
  }

  /** The last '.' of stem + "." + ext, when ext has none, is the one between them. */
  lemma LastDotBeforeExtension(stem: string, ext: string)
    requires '.' !in ext
    ensures LastIndexOf(stem + "." + ext, '.') == |stem|
  {
    var name := stem + "." + ext;
    var r := LastIndexOf(name, '.');
    assert name[|stem|] == '.';
    assert r <= |stem|;
  }

  /** Joining two names without '/' by a '.' gives a name without '/'. */
  lemma NoSlashInJoined(stem: string, ext: string)
    requires '/' !in stem && '/' !in ext
    ensures '/' !in stem + "." + ext
  {
    var name := stem + "." + ext;
    forall i | 0 <= i < |name|
      ensures name[i] != '/'
    {
      if i < |stem| {
        assert name[i] == stem[i];
      } else if i > |stem| {
        assert name[i] == ext[i - |stem| - 1];
      }
    }
  }

  /** pathinfo() of stem + "." + ext splits it back into the stem and the extension. */
  lemma PathinfoOfJoined(stem: string, ext: string)
    requires '/' !in stem && '/' !in ext && '.' !in ext
    ensures Extension(stem + "." + ext) == ext
    ensures FileStem(stem + "." + ext) == stem
  {
    var name := stem + "." + ext;
    NoSlashInJoined(stem, ext);
    BasenameOfPlain(name);
    LastDotBeforeExtension(stem, ext);
    assert name[|stem| + 1..] == ext;
    assert name[..|stem|] == stem;
  }

  /** explode('/', $s). */
  function Split(s: string, sep: char): (r: seq<string>)
    ensures |r| >= 1
    ensures forall i :: 0 <= i < |r| ==> sep !in r[i]
  {
    var k := LastIndexOf(s, sep);
    if k < 0 then [s] else Split(s[..k], sep) + [s[k + 1..]]
  }

  /** implode('/', $parts). */
  function Join(parts: seq<string>, sep: char): string
  {
    if parts == [] then ""
    else if |parts| == 1 then parts[0]
    else Join(parts[..|parts| - 1], sep) + [sep] + parts[|parts| - 1]
  }

  lemma {:induction false} SplitJoin(s: string, sep: char)
    ensures Join(Split(s, sep), sep) == s
  {
    var k := LastIndexOf(s, sep);
    if k >= 0 {
      SplitJoin(s[..k], sep);
      var parts := Split(s[..k], sep);
      assert Split(s, sep)[..|Split(s, sep)| - 1] == parts;
      assert s == s[..k] + [sep] + s[k + 1..];
    }
  }

  // ---------------------------------------------------------------- regular expressions

  /** \s in a PCRE pattern: space, \t, \n, \x0B, \f, \r. */
  predicate IsRegexSpace(c: char)
  {
    c == ' ' || c == '\t' || c == '\n' || c == '\U{0B}' || c == '\U{0C}' || c == '\r'
  }

  /** A run of \s characters, dropped from the front. */
  function DropSpaces(s: string): (r: string)
    ensures |r| <= |s|
    ensures r == [] || !IsRegexSpace(r[0])
  {
    if s != [] && IsRegexSpace(s[0]) then DropSpaces(s[1..]) else s
  }

  /** `preg_replace('/\s+/', $sub, $s)`: every run of \s characters becomes the one character `sub`. */
  function ReplaceSpaceRuns(s: string, sub: char): (r: string)
    ensures |r| <= |s|
    ensures forall i :: 0 <= i < |r| && IsRegexSpace(r[i]) ==> r[i] == sub
    decreases |s|
  {
    if s == [] then []
    else if IsRegexSpace(s[0]) then [sub] + ReplaceSpaceRuns(DropSpaces(s[1..]), sub)
    else [s[0]] + ReplaceSpaceRuns(s[1..], sub)
  }

  predicate IsAsciiAlnum(c: char)
  {
    'a' <= c <= 'z' || 'A' <= c <= 'Z' || '0' <= c <= '9'
  }

  /** The lists the source builds grow at the end: the last element of `front + back` is back's last. */
  lemma DropLastOfAppend<T>(front: seq<T>, back: seq<T>)
    requires back != []
    ensures (front + back)[..|front + back| - 1] == front + back[..|back| - 1]
    ensures (front + back)[|front + back| - 1] == back[|back| - 1]
  {
  }

  /** A list is what comes before position j, the element at j, and what comes after. */
  lemma SplitAround<T>(s: seq<T>, j: nat)
    requires j < |s|
    ensures s == s[..j] + [s[j]] + s[j + 1..]
    ensures [s[j]][..0] == [] && [s[j]][0] == s[j]
  {
  }

  /** The first element that passes the test (a `SELECT … WHERE … LIMIT 1` over rows in table order). */
  function FirstWhere<T>(s: seq<T>, test: T -> bool): (r: Option<T>)
    ensures r.Some? ==> exists k :: 0 <= k < |s| && s[k] == r.value && test(s[k]) && forall j :: 0 <= j < k ==> !test(s[j])
    ensures r.None? ==> forall i :: 0 <= i < |s| ==> !test(s[i])
  {
    if s == [] then None
    else if test(s[0]) then Some(s[0])
    else FirstWhere(s[1..], test)
  }
}
