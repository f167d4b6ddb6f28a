/**
 * Conversion of an OpenAPI path template into a Rego path-array literal
 * (convertOASPathToParsedPath). Path parameters written `{p}`, `{p*}`,
 * `{.p}`, `{;p}`, `{?p}` (with or without the `*`) are rewritten to the
 * marker `:p` by the pattern `{[.;?]?([^{}*]+)\*?}`; the path is then split
 * on `/`, marker segments become bare Rego variables and all others quoted
 * strings.
 */
module PathTemplate {
  import opened Common
  import opened Text

  /** A character the name group `[^{}*]` accepts. */
  predicate NameChar(c: char) {
    c != '{' && c != '}' && c != '*'
  }

  predicate ValidName(n: string) {
    n != [] && forall i :: 0 <= i < |n| ==> NameChar(n[i])
  }

  /** The optional operator character `[.;?]` after the opening brace. */
  predicate IsOperatorChar(c: char) {
    c == '.' || c == ';' || c == '?'
  }

  /**
   * `f` is one of the template forms of parameter `n`: `{n}`, `{n*}`,
   * `{.n}`, `{.n*}`, `{;n}`, `{;n*}`, `{?n}`, `{?n*}`.
   */
  predicate IsTemplate(f: string, n: string) {
    ValidName(n) &&
    (f == "{" + n + "}" || f == "{" + n + "*}" ||
     (|f| > 1 && IsOperatorChar(f[1]) && (f == "{" + [f[1]] + n + "}" || f == "{" + [f[1]] + n + "*}")))
  }

  /** Length of the longest prefix of `t` made of name characters. */
  function NameRun(t: string): (k: nat)
    ensures k <= |t|
  {
    RunEnd(t, 0)
  }

  /** The first index at or after `j` that does not hold a name character. */
  function RunEnd(t: string, j: nat): (k: nat)
    requires j <= |t|
    ensures j <= k <= |t|
    decreases |t| - j
  {
    if j < |t| && NameChar(t[j]) then RunEnd(t, j + 1) else j
  }

  lemma {:induction false} RunEndChars(t: string, j: nat)
    requires j <= |t|
    ensures forall i :: j <= i < RunEnd(t, j) ==> NameChar(t[i])
    ensures RunEnd(t, j) < |t| ==> !NameChar(t[RunEnd(t, j)])
    decreases |t| - j
  {
    if j < |t| && NameChar(t[j]) {
      RunEndChars(t, j + 1);
    }
  }

  lemma {:induction false} RunEndAt(t: string, j: nat, m: nat)
    requires j <= m < |t|
    requires forall i :: j <= i < m ==> NameChar(t[i])
    requires !NameChar(t[m])
    ensures RunEnd(t, j) == m
    decreases m - j
  {
    if j < m {
      RunEndAt(t, j + 1, m);
    }
  }

  /** The run covers name characters only and stops at the first other character. */
  lemma NameRunChars(t: string)
    ensures forall i :: 0 <= i < NameRun(t) ==> NameChar(t[i])
    ensures NameRun(t) < |t| ==> !NameChar(t[NameRun(t)])
  {
    RunEndChars(t, 0);
  }

  /** The name run stops exactly where the name characters of a prefix end. */
  lemma NameRunPrefix(a: string, t: string)
    requires forall i :: 0 <= i < |a| ==> NameChar(a[i])
    requires t != [] && !NameChar(t[0])
    ensures NameRun(a + t) == |a|
  {
    RunEndAt(a + t, 0, |a|);
  }

  /**
   * Matches `([^{}*]+)\*?}` at the start of `t`: the greedy name group can
   * only end where the name characters end, and must then be closed by `}`
   * or `*}`. Yields the name and the number of characters consumed.
   */
  function NameGroup(t: string): (m: Option<(string, nat)>)
    ensures m.Some? ==> 0 < m.value.1 <= |t|
  {
    var k := NameRun(t);
    if k == 0 then None
    else if k < |t| && t[k] == '}' then Some((t[..k], k + 1))
    else if k + 1 < |t| && t[k] == '*' && t[k + 1] == '}' then Some((t[..k], k + 2))
    else None
  }

  /** A name group match is a valid name closed by `}` or `*}`. */
  lemma NameGroupMatch(t: string)
    ensures NameGroup(t).Some? ==>
      var (n, used) := NameGroup(t).value;
      ValidName(n) && (t[..used] == n + "}" || t[..used] == n + "*}")
  {
    var k := NameRun(t);
    NameRunChars(t);
    if k < |t| && t[k] == '}' {
      assert t[..k + 1] == t[..k] + "}";
    } else if k + 1 < |t| && t[k] == '*' && t[k + 1] == '}' {
      assert t[..k + 2] == t[..k] + "*}";
    }
  }

  /**
   * Matches the path-parameter pattern at the start of `s`, leftmost-first:
   * the operator character is taken when the rest still matches, otherwise
   * it falls back into the name group.
   */
  function ParamAt(s: string): (m: Option<(string, nat)>)
    ensures m.Some? ==> 0 < m.value.1 <= |s|
  {
    if s == [] || s[0] != '{' then None
    else if |s| > 1 && IsOperatorChar(s[1]) && NameGroup(s[2..]).Some? then
      var (n, used) := NameGroup(s[2..]).value;
      Some((n, used + 2))
    else
      match NameGroup(s[1..])
      case None => None
      case Some((n, used)) => Some((n, used + 1))
  }

  /** Whatever the pattern matches is one of the template forms of the name it yields. */
  lemma ParamAtMatches(s: string)
    ensures ParamAt(s).Some? ==> IsTemplate(s[..ParamAt(s).value.1], ParamAt(s).value.0)
  {
    if s == [] || s[0] != '{' {
    } else if |s| > 1 && IsOperatorChar(s[1]) && NameGroup(s[2..]).Some? {
      var (n, used) := NameGroup(s[2..]).value;
      NameGroupMatch(s[2..]);
      assert s[..used + 2] == "{" + [s[1]] + s[2..][..used];
    } else if NameGroup(s[1..]).Some? {
      var (n, used) := NameGroup(s[1..]).value;
      NameGroupMatch(s[1..]);
      assert s[..used + 1] == "{" + s[1..][..used];
    }
  }

  /** regexp.ReplaceAllString(s, ":$1") for the path-parameter pattern. */
  function Substitute(s: string): string
    decreases |s|
  {
    if s == [] then []
    else match ParamAt(s)
      case Some((n, used)) => ":" + n + Substitute(s[used..])
      case None => [s[0]] + Substitute(s[1..])
  }

  /** A match at `i` is replaced by its marker and the scan resumes after it. */
  lemma SubstituteMatch(s: string, i: nat, n: string, used: nat)
    requires i < |s| && ParamAt(s[i..]) == Some((n, used))
    ensures Substitute(s[i..]) == (":" + n) + Substitute(s[i + used..])
  {
    assert s[i..][used..] == s[i + used..];
  }

  /** A character where nothing matches is copied. */
  lemma SubstituteCopy(s: string, i: nat)
    requires i < |s| && ParamAt(s[i..]) == None
    ensures Substitute(s[i..]) == [s[i]] + Substitute(s[i + 1..])
  {
    assert s[i..][1..] == s[i + 1..];
  }

  /** What the scan emits at `i`: the marker of a match, or the character itself. */
  method NextPiece(s: string, i: nat) returns (piece: string, next: nat)
    requires i < |s|
    ensures i < next <= |s|
    ensures Substitute(s[i..]) == piece + Substitute(s[next..])
  {
    match ParamAt(s[i..])
    case Some((n, used)) =>
      SubstituteMatch(s, i, n, used);
      piece, next := ":" + n, i + used;
    case None =>
      SubstituteCopy(s, i);
      piece, next := [s[i]], i + 1;
  }

  /** The left-to-right scan that performs the replacement. */
  method ReplaceParams(s: string) returns (r: string)
    ensures r == Substitute(s)
  {
    r := "";
    var i := 0;
    while i < |s|
      invariant 0 <= i <= |s|
      invariant r + Substitute(s[i..]) == Substitute(s)
    {
      var piece, next := NextPiece(s, i);
      ConcatAssoc(r, piece, Substitute(s[next..]));
      r, i := r + piece, next;
    }
  }

  /** After the braces and operator, a name closed by `}` or `*}` is one group. */
  lemma NameGroupTemplate(n: string, star: string, rest: string)
    requires star == "" || star == "*"
    requires ValidName(n)
    ensures NameGroup(n + star + "}" + rest) == Some((n, |n| + |star| + 1))
  {
    var t := n + star + "}" + rest;
    assert t == n + (star + "}" + rest);
    NameRunPrefix(n, star + "}" + rest);
    assert t[..|n|] == n;
    assert t[|n|] == (star + "}")[0];
  }

  /** Every template form of a parameter matches, whatever follows it, and yields its name. */
  lemma ParamAtTemplate(op: string, n: string, star: string, rest: string)
    requires op == "" || (|op| == 1 && IsOperatorChar(op[0]))
    requires star == "" || star == "*"
    requires ValidName(n) && !IsOperatorChar(n[0])
    ensures ParamAt("{" + op + n + star + "}" + rest) == Some((n, |op| + |n| + |star| + 2))
  {
    var s := "{" + op + n + star + "}" + rest;
    var t := n + star + "}" + rest;
    NameGroupTemplate(n, star, rest);
    if op == "" {
      assert s[1..] == t;
      assert s[1] == n[0];
    } else {
      assert s == "{" + op + t;
      assert s[2..] == t;
      assert s[1] == op[0];
    }
  }

  /** A brace group whose `*` is not right before the closing brace does not match. */
  lemma ParamAtStarInside(a: string, b: string)
    requires forall i :: 0 <= i < |a| ==> NameChar(a[i])
    requires b != [] && b[0] != '}'
    ensures ParamAt("{" + a + "*" + b) == None
  {
    var s := "{" + a + "*" + b;
    var t := a + ("*" + b);
    assert s[1..] == t;
    NameRunPrefix(a, "*" + b);
    assert NameRun(t) == |a|;
    assert t[|a|] == '*' && t[|a| + 1] == b[0];
    assert NameGroup(t) == None;
    if |s| > 1 && IsOperatorChar(s[1]) {
      assert a != [] && s[1] == a[0];
      var u := s[2..];
      assert u == a[1..] + ("*" + b);
      NameRunPrefix(a[1..], "*" + b);
      assert NameRun(u) == |a| - 1;
      assert u[|a| - 1] == '*' && u[|a|] == b[0];
      assert NameGroup(u) == None;
    }
  }


  /** Text without an opening brace is left as it is. */
  lemma {:induction false} SubstituteNoBrace(s: string)
    requires '{' !in s
    ensures Substitute(s) == s
  {
    if s != [] {
      assert s[0] in s;
      assert forall c :: c in s[1..] ==> c in s;
      assert ParamAt(s) == None;
      SubstituteNoBrace(s[1..]);
      assert s == [s[0]] + s[1..];
    }
  }

  /** A brace-free prefix is copied unchanged, and the replacement carries on after it. */
  lemma {:induction false} SubstituteLiteralPrefix(a: string, b: string)
    requires '{' !in a
    ensures Substitute(a + b) == a + Substitute(b)
  {
    if a == [] {
      assert a + b == b;
    } else {
      var s := a + b;
      assert s[0] == a[0] && a[0] != '{';
      assert ParamAt(s) == None;
      assert s[1..] == a[1..] + b;
      assert '{' !in a[1..] by {
        assert a == [a[0]] + a[1..];
      }
      SubstituteLiteralPrefix(a[1..], b);
      calc {
        Substitute(s);
        [a[0]] + Substitute(a[1..] + b);
        [a[0]] + (a[1..] + Substitute(b));
        { ConcatAssoc([a[0]], a[1..], Substitute(b)); }
        ([a[0]] + a[1..]) + Substitute(b);
        { assert [a[0]] + a[1..] == a; }
        a + Substitute(b);
      }
    }
  }

  /** Every template form becomes the marker `:n`. */
  lemma SubstituteTemplate(op: string, n: string, star: string, rest: string)
    requires op == "" || (|op| == 1 && IsOperatorChar(op[0]))
    requires star == "" || star == "*"
    requires ValidName(n) && !IsOperatorChar(n[0])
    ensures Substitute("{" + op + n + star + "}" + rest) == ":" + n + Substitute(rest)
  {
    var s := "{" + op + n + star + "}" + rest;
    ParamAtTemplate(op, n, star, rest);
    assert s[|op| + |n| + |star| + 2..] == rest;
  }

  // ------------------------------------------------------------ the path literal

  /** One segment of the split path: a marker becomes a bare variable, anything else a quoted string. */
  function SegmentText(seg: string): string {
    if HasPrefix(seg, ":") then TrimLeft(seg, {':'}) else "\"" + seg + "\""
  }

  function SegmentTexts(segs: seq<string>): (r: seq<string>)
    ensures |r| == |segs| && forall i :: 0 <= i < |segs| ==> r[i] == SegmentText(segs[i])
  {
    if segs == [] then [] else SegmentTexts(segs[..|segs| - 1]) + [SegmentText(segs[|segs| - 1])]
  }

  /** The path after parameter replacement, leading slashes dropped, split at every slash. */
  function Segments(path: string): seq<string> {
    Split(TrimLeft(Substitute(path), {'/'}), '/')
  }

  /** The bracketed list of segment texts; a lone empty segment stands for the root `/`. */
  function SegmentsLiteral(segs: seq<string>): string {
    var listed := "[" + Join(SegmentTexts(segs), ", ") + "]";
    if listed == "[\"\"]" then "[\"/\"]" else listed
  }

  /** The Rego path-array literal for an OpenAPI path template. */
  function PathLiteral(path: string): string {
    SegmentsLiteral(Segments(path))
  }

  /** The opening bracket, then each segment text followed by the `, ` the loop appends after it. */
  function Listed(segs: seq<string>): string {
    if segs == [] then "[" else Listed(segs[..|segs| - 1]) + SegmentText(segs[|segs| - 1]) + ", "
  }

  lemma {:induction false} JoinSnoc(parts: seq<string>, last: string, sep: string)
    requires parts != []
    ensures Join(parts + [last], sep) == Join(parts, sep) + sep + last
  {
    if |parts| > 1 {
      JoinSnoc(parts[1..], last, sep);
      assert (parts + [last])[1..] == parts[1..] + [last];
    }
  }

  lemma Bracketed(j0: string, last: string)
    ensures "[" + j0 + ", " + last + ", " == "[" + (j0 + ", " + last) + ", "
  {
    ConcatAssoc("[" + j0, ", ", last);
    ConcatAssoc("[", j0, ", " + last);
  }

  lemma {:induction false} ListedJoin(segs: seq<string>)
    requires segs != []
    ensures Listed(segs) == "[" + Join(SegmentTexts(segs), ", ") + ", "
  {
    var init, last := segs[..|segs| - 1], SegmentText(segs[|segs| - 1]);
    if |segs| > 1 {
      var ts := SegmentTexts(init);
      var j0 := Join(ts, ", ");
      assert SegmentTexts(segs) == ts + [last];
      ListedJoin(init);
      assert Listed(segs) == "[" + j0 + ", " + last + ", ";
      JoinSnoc(ts, last, ", ");
      Bracketed(j0, last);
    } else {
      assert init == [];
      assert SegmentTexts(segs) == [last];
    }
  }

  /** Trimming the blank and the comma after the last segment leaves the joined list. */
  lemma ListedTrim(segs: seq<string>)
    requires segs != []
    ensures TrimSuffix(TrimSpace(Listed(segs)), ",") + "]" == "[" + Join(SegmentTexts(segs), ", ") + "]"
  {
    ListedJoin(segs);
    var body := "[" + Join(SegmentTexts(segs), ", ") + ",";
    assert Listed(segs) == body + " ";
    assert body[0] == '[' && body[|body| - 1] == ',';
    TrimSpaceOneBlank(body);
    assert HasSuffix(body, ",");
  }

  /** The loop of convertOASPathToParsedPath that lists the segments between brackets. */
  method ListSegments(split: seq<string>) returns (r: string)
    requires |split| >= 1
    ensures r == SegmentsLiteral(split)
  {
    var result := "[";
    for i := 0 to |split|
      invariant result == Listed(split[..i])
    {
      var seg := split[i];
      assert split[..i + 1][..i] == split[..i];
      if HasPrefix(seg, ":") {
        result := result + TrimLeft(seg, {':'}) + ", ";
      } else {
        result := result + ("\"" + seg + "\"") + ", ";
      }
    }
    assert split[..|split|] == split;
    ListedTrim(split);
    result := TrimSuffix(TrimSpace(result), ",") + "]";
    if result == "[\"\"]" {
      r := "[\"/\"]";
    } else {
      r := result;
    }
  }

  /** The first two steps of convertOASPathToParsedPath: replace the parameters, then split. */
  method SplitPath(path: string) returns (split: seq<string>)
    ensures split == Segments(path) && |split| >= 1
  {
    var matched := ReplaceParams(path);
    split := Split(TrimLeft(matched, {'/'}), '/');
  }

  /** convertOASPathToParsedPath */
  method ConvertPath(path: string) returns (r: string)
    ensures r == PathLiteral(path)
  {
    var split := SplitPath(path);
    r := ListSegments(split);
  }

  /** A path made only of slashes (the root path among them) becomes `["/"]`. */
  lemma RootPath(path: string)
    requires forall i :: 0 <= i < |path| ==> path[i] == '/'
    ensures PathLiteral(path) == "[\"/\"]"
  {
    assert '{' !in path;
    SubstituteNoBrace(path);
    var trimmed := TrimLeft(path, {'/'});
    assert trimmed == [];
    assert Segments(path) == [""];
  }

  /** One leading slash in front of a non-slash character is all that TrimLeft removes. */
  lemma TrimLeftSlash(t: string)
    requires t != [] && t[0] != '/'
    ensures TrimLeft("/" + t, {'/'}) == t
  {
    assert ("/" + t)[1..] == t;
  }

  /** The parameter is replaced by its marker and the slashes stay where they were. */
  lemma SubstituteLiteralThenParameter(lit: string, op: string, n: string, star: string)
    requires '{' !in lit
    requires op == "" || (|op| == 1 && IsOperatorChar(op[0]))
    requires star == "" || star == "*"
    requires ValidName(n) && !IsOperatorChar(n[0])
    ensures Substitute(("/" + lit + "/") + ("{" + op + n + star + "}")) == ("/" + lit + "/") + (":" + n)
  {
    var prefix := "/" + lit + "/";
    var param := "{" + op + n + star + "}";
    assert '{' !in prefix;
    SubstituteLiteralPrefix(prefix, param);
    SubstituteTemplate(op, n, star, "");
    assert param + "" == param;
    assert ":" + n + Substitute("") == ":" + n;
  }

  /** A literal and a marker separated by one slash split into those two segments. */
  lemma SplitLiteralThenMarker(lit: string, n: string)
    requires '/' !in lit && '/' !in n
    ensures Split(lit + ("/" + (":" + n)), '/') == [lit, ":" + n]
  {
    ConcatAssoc(lit, "/", ":" + n);
    SplitFirst(lit, '/', ":" + n);
    assert '/' !in ":" + n;
    SplitJoin([":" + n], '/');
  }

  /** How the two-element list is laid out between the brackets. */
  lemma BracketPair(lit: string, n: string)
    ensures "[" + ("\"" + lit + "\"" + ", " + n) + "]" == "[\"" + lit + "\", " + n + "]"
  {
    var q := "\"";
    ConcatAssoc("[", ((q + lit) + q) + ", ", n);
    ConcatAssoc("[", (q + lit) + q, ", ");
    ConcatAssoc("[", q + lit, q);
    ConcatAssoc("[", q, lit);
    ConcatAssoc(("[" + q) + lit, q, ", ");
    assert "[" + q == "[\"";
    assert q + ", " == "\", ";
  }

  /** The literal becomes a quoted string and the marker a bare variable. */
  lemma ListLiteralThenMarker(lit: string, n: string)
    requires lit != [] && lit[0] != ':'
    requires n != [] && n[0] != ':'
    ensures SegmentsLiteral([lit, ":" + n]) == "[\"" + lit + "\", " + n + "]"
  {
    assert SegmentText(lit) == "\"" + lit + "\"";
    assert SegmentText(":" + n) == n by {
      assert HasPrefix(":" + n, ":");
      TrimLeftColon(n);
    }
    var texts := SegmentTexts([lit, ":" + n]);
    assert texts == ["\"" + lit + "\"", n];
    assert texts[1..] == [n];
    assert Join(texts, ", ") == "\"" + lit + "\"" + ", " + n;
    BracketPair(lit, n);
    assert |"[\"" + lit + "\", " + n + "]"| > 4;
  }

  lemma TrimLeftColon(n: string)
    requires n != [] && n[0] != ':'
    ensures TrimLeft(":" + n, {':'}) == n
  {
    assert (":" + n)[1..] == n;
  }

  /**
   * A literal segment followed by a parameter in any template form, as in
   * `/users/{id}`, becomes `["users", id]`.
   */
  lemma LiteralThenParameter(lit: string, op: string, n: string, star: string)
    requires lit != [] && '/' !in lit && '{' !in lit && lit[0] != ':'
    requires op == "" || (|op| == 1 && IsOperatorChar(op[0]))
    requires star == "" || star == "*"
    requires ValidName(n) && !IsOperatorChar(n[0]) && n[0] != ':' && '/' !in n
    ensures PathLiteral("/" + lit + "/" + ("{" + op + n + star + "}")) == "[\"" + lit + "\", " + n + "]"
  {
    var path := "/" + lit + "/" + ("{" + op + n + star + "}");
    SubstituteLiteralThenParameter(lit, op, n, star);
    var rest := lit + ("/" + (":" + n));
    ConcatAssoc("/" + lit, "/", ":" + n);
    ConcatAssoc("/", lit, "/" + (":" + n));
    TrimLeftSlash(rest);
    SplitLiteralThenMarker(lit, n);
    assert Segments(path) == [lit, ":" + n];
    ListLiteralThenMarker(lit, n);
  }

  /** A brace group with a `*` before its last name character, like `{a*b}`, is no path parameter. */
  lemma StarInsideSubstitute(seg: string, a: string, b: string)
    requires seg == "{" + a + "*" + b + "}"
    requires (forall i :: 0 <= i < |a| ==> NameChar(a[i])) && ValidName(b)
    ensures Substitute(seg) == seg
  {
    assert seg == "{" + a + "*" + (b + "}");
    ParamAtStarInside(a, b + "}");
    var tail := a + "*" + b + "}";
    assert seg[1..] == tail;
    assert '{' !in tail by {
      assert forall i :: 0 <= i < |tail| ==> tail[i] == '*' || tail[i] == '}' || NameChar(tail[i]);
    }
    SubstituteNoBrace(tail);
    assert seg == [seg[0]] + tail;
  }

  /** Such a brace group stays a quoted literal segment. */
  lemma StarInsideStaysLiteral(seg: string, a: string, b: string)
    requires seg == "{" + a + "*" + b + "}"
    requires (forall i :: 0 <= i < |a| ==> NameChar(a[i])) && ValidName(b)
    requires '/' !in seg
    ensures PathLiteral("/" + seg) == "[\"" + seg + "\"]"
  {
    StarInsideSubstitute(seg, a, b);
    assert '{' !in "/";
    SubstituteLiteralPrefix("/", seg);
    TrimLeftSlash(seg);
    SplitJoin([seg], '/');
    assert Segments("/" + seg) == [seg];
    assert !HasPrefix(seg, ":");
    var texts := SegmentTexts([seg]);
    assert texts == ["\"" + seg + "\""];
    var listed := "[" + Join(texts, ", ") + "]";
    assert listed == "[" + ("\"" + seg + "\"") + "]";
    assert |listed| > 4;
    ConcatAssoc("[", "\"" + seg, "\"");
    ConcatAssoc("[", "\"", seg);
  }
}
