/**
 * The PHP string functions the orchestrator builds its command lines with:
 * `rtrim($s, '/')`, `trim`, `escapeshellarg`, `dirname`, `basename`,
 * `implode`, `strpos(...) === 0`, `sprintf` and the decimal rendering of an
 * integer.
 * Each one comes with the property a caller relies on, and `escapeshellarg`,
 * `implode` and the decimal rendering with the reading that undoes them.
 */
module PhpStrings {
  import opened Wrappers

  /** PHP's conversion of a string to bool: only "" and "0" are false. */
  predicate Truthy(s: string) {
    s != "" && s != "0"
  }

  /** `strpos($s, $prefix) === 0`. */
  predicate StartsWith(s: string, prefix: string) {
    |prefix| <= |s| && s[..|prefix|] == prefix
  }

  predicate EndsWith(s: string, suffix: string) {
    |suffix| <= |s| && s[|s| - |suffix|..] == suffix
  }

  /** What is appended last ends the whole. */
  lemma EndsWithTail(a: string, t: string)
    ensures EndsWith(a + t, t)
  {
    assert (a + t)[|a|..] == t;
  }

  /** The end of text wrapped in a closing part ends the whole. */
  lemma EndsWithWrapped(x: string, y: string, t: string, q: string)
    ensures EndsWith(x + (y + t) + q, t + q)
  {
    assert x + (y + t) + q == (x + y) + (t + q);
    EndsWithTail(x + y, t + q);
  }

  /** A start of `s` that is followed by more text is still a start of `s`. */
  lemma StartsWithLonger(s: string, p: string, x: string, y: string, z: string)
    requires StartsWith(s, p + x + y + z)
    ensures StartsWith(s, p)
  {
    var t := p + x + y + z;
    assert s[..|p|] == s[..|t|][..|p|] == t[..|p|] == p;
  }

  /** Two starts of one string: the shorter is a start of the longer. */
  lemma SharedStart(s: string, p: string, q: string)
    requires StartsWith(s, p) && StartsWith(s, q) && |p| <= |q|
    ensures StartsWith(q, p)
  {
    assert q[..|p|] == s[..|q|][..|p|] == s[..|p|];
  }

  // ---------------------------------------------------------------------------
  // rtrim($s, '/') and trim($s)
  // ---------------------------------------------------------------------------

  /** `rtrim($s, '/')`: the longest prefix of `s` that does not end in a slash. */
  function RTrimSlash(s: string): (r: string)
    ensures |r| <= |s| && r == s[..|r|]
    ensures r == "" || r[|r| - 1] != '/'
    ensures forall i :: |r| <= i < |s| ==> s[i] == '/'
  {
    if s != "" && s[|s| - 1] == '/' then RTrimSlash(s[..|s| - 1]) else s
  }

  /** The characters PHP's `trim` removes by default: " \t\n\r\0\x0B". */
  predicate IsTrimmable(c: char) {
    c == ' ' || c == '\t' || c == '\n' || c == '\r' || c == '\0' || c == '\U{000B}'
  }

  function TrimEnd(s: string): (r: string)
    ensures |r| <= |s| && r == s[..|r|]
    ensures r == "" || !IsTrimmable(r[|r| - 1])
    ensures forall i :: |r| <= i < |s| ==> IsTrimmable(s[i])
  {
    if s != "" && IsTrimmable(s[|s| - 1]) then TrimEnd(s[..|s| - 1]) else s
  }

  function TrimStart(s: string): (r: string)
    ensures |r| <= |s| && r == s[|s| - |r|..]
    ensures r == "" || !IsTrimmable(r[0])
    ensures forall i :: 0 <= i < |s| - |r| ==> IsTrimmable(s[i])
  {
    if s != "" && IsTrimmable(s[0]) then TrimStart(s[1..]) else s
  }

  /** `trim($s)`: `s` without the trimmable characters at either end. The
      result is the slice of `s` starting at some `i` with only trimmable
      characters around it and none at its ends, which leaves exactly one
      possible result (`TrimUnique`). */
  function Trim(s: string): (r: string)
    ensures |r| <= |s|
    ensures exists i :: TrimmedSlice(s, r, i)
    ensures r == "" || (!IsTrimmable(r[0]) && !IsTrimmable(r[|r| - 1]))
    ensures (forall i :: 0 <= i < |s| ==> !IsTrimmable(s[i])) ==> r == s
  {
    var e := TrimEnd(s);
    var r := TrimStart(e);
    TrimSlice(s, e, r);
    r
  }

  /** Trimming the end of `s` to `e`, then the start of `e` to `r`, keeps the
      slice of `s` that starts where the second trim stopped. */
  lemma TrimSlice(s: string, e: string, r: string)
    requires |e| <= |s| && e == s[..|e|] && forall k :: |e| <= k < |s| ==> IsTrimmable(s[k])
    requires e == "" || !IsTrimmable(e[|e| - 1])
    requires |r| <= |e| && r == e[|e| - |r|..] && forall k :: 0 <= k < |e| - |r| ==> IsTrimmable(e[k])
    requires r == "" || !IsTrimmable(r[0])
    ensures TrimmedSlice(s, r, |e| - |r|)
  {
    var i := |e| - |r|;
    if r != "" {
      assert r[|r| - 1] == e[|e| - 1];
    }
    assert s[i..][..|r|] == s[..|e|][i..];
    forall k | 0 <= k < i
      ensures IsTrimmable(s[k])
    {
      assert s[k] == e[k];
    }
  }

  /** `t` is the slice of `s` starting at `i`, with only trimmable
      characters around it and none at its ends. */
  predicate TrimmedSlice(s: string, t: string, i: int) {
    && 0 <= i <= |s| - |t| && t == s[i..][..|t|]
    && (forall k :: 0 <= k < i ==> IsTrimmable(s[k]))
    && (forall k :: i + |t| <= k < |s| ==> IsTrimmable(s[k]))
    && (t == "" || (!IsTrimmable(t[0]) && !IsTrimmable(t[|t| - 1])))
  }

  /** Any slice of `s` with only trimmable characters around it and none at
      its ends is what `trim` returns. */
  lemma TrimUnique(s: string, t: string, i: int)
    requires TrimmedSlice(s, t, i)
    ensures t == Trim(s)
  {
    var r := Trim(s);
    var j :| TrimmedSlice(s, r, j);
    TrimmedSlicesAgree(s, t, i, r, j);
  }

  /** There is at most one trimmed slice of a string. */
  lemma TrimmedSlicesAgree(s: string, t: string, i: int, r: string, j: int)
    requires TrimmedSlice(s, t, i) && TrimmedSlice(s, r, j)
    ensures t == r
  {
    if t != "" {
      SliceEnds(s, t, i);
    }
    if r != "" {
      SliceEnds(s, r, j);
    }
    if t != "" && r != "" {
      assert i == j && |t| == |r|;
    }
  }

  /** The first and last characters of a non-empty slice. */
  lemma SliceEnds(s: string, t: string, i: int)
    requires 0 <= i <= |s| - |t| && t == s[i..][..|t|] && t != ""
    ensures t[0] == s[i] && t[|t| - 1] == s[i + |t| - 1]
  {
  }

  // ---------------------------------------------------------------------------
  // escapeshellarg and how a POSIX shell reads its result back
  // ---------------------------------------------------------------------------

  /** Every single quote of `s` replaced by `'\''`. */
  function QuoteEscaped(s: string): string {
    if s == "" then "" else (if s[0] == '\'' then "'\\''" else [s[0]]) + QuoteEscaped(s[1..])
  }

  /** `escapeshellarg($s)` on a POSIX system: `s` in single quotes, with its own
      single quotes closed, escaped and reopened. */
  function EscapeShellArg(s: string): (r: string)
    ensures |r| >= 2 && r[0] == '\'' && r[|r| - 1] == '\''
  {
    "'" + QuoteEscaped(s) + "'"
  }

  lemma {:induction false} QuoteEscapedAppend(a: string, b: string)
    ensures QuoteEscaped(a + b) == QuoteEscaped(a) + QuoteEscaped(b)
  {
    if a != "" {
      assert (a + b)[0] == a[0] && (a + b)[1..] == a[1..] + b;
      QuoteEscapedAppend(a[1..], b);
    } else {
      assert a + b == b;
    }
  }

  /** Escaping a string with a middle part that escaping leaves alone. */
  lemma EscapeAround(a: string, m: string, b: string)
    requires QuoteEscaped(m) == m
    ensures EscapeShellArg(a + m + b) == "'" + (QuoteEscaped(a) + m + QuoteEscaped(b)) + "'"
  {
    assert a + m + b == a + (m + b);
    QuoteEscapedAppend(a, m + b);
    QuoteEscapedAppend(m, b);
  }

  /** `escapeshellarg` adds no `%`. */
  lemma {:induction false} QuoteEscapedNoPercent(a: string)
    requires '%' !in a
    ensures '%' !in QuoteEscaped(a)
  {
    if a != "" {
      assert a[1..] == a[1..] && forall k :: 0 <= k < |a[1..]| ==> a[1..][k] == a[k + 1];
      QuoteEscapedNoPercent(a[1..]);
    }
  }

  /** Characters that would end, split or expand an unquoted shell word. */
  predicate IsShellSpecial(c: char) {
    c in " \t\n;&|<>()$`\"*?[#~"
  }

  function Prepend(p: string, o: Option<string>): Option<string> {
    match o
    case Some(v) => Some(p + v)
    case None => None
  }

  /** The single word a POSIX shell reads from `w`, outside quotes, or None when
      `w` is not one plain word. A single quote opens a literal run up to the
      next single quote, a backslash takes the next character literally. */
  function ShellWord(w: string): Option<string>
    decreases |w|
  {
    if w == "" then Some("")
    else if w[0] == '\'' then QuotedRun(w[1..])
    else if w[0] == '\\' then (if |w| == 1 then None else Prepend([w[1]], ShellWord(w[2..])))
    else if IsShellSpecial(w[0]) then None
    else Prepend([w[0]], ShellWord(w[1..]))
  }

  /** The rest of a word read inside single quotes. */
  function QuotedRun(w: string): Option<string>
    decreases |w|
  {
    if w == "" then None
    else if w[0] == '\'' then ShellWord(w[1..])
    else Prepend([w[0]], QuotedRun(w[1..]))
  }

  lemma {:induction false} QuotedRunOfEscaped(s: string, rest: string)
    ensures QuotedRun(QuoteEscaped(s) + "'" + rest) == Prepend(s, ShellWord(rest))
  {
    if s == "" {
      var w := "'" + rest;
      assert QuoteEscaped(s) + "'" + rest == w;
      assert w[1..] == rest;
      match ShellWord(rest)
      case Some(v) => assert s + v == v;
      case None =>
    } else {
      var x := QuoteEscaped(s[1..]) + "'" + rest;
      QuotedRunOfEscaped(s[1..], rest);
      PrependPrepend([s[0]], s[1..], ShellWord(rest));
      assert [s[0]] + s[1..] == s;
      if s[0] == '\'' {
        QuotedRunOfEscapedQuote(x);
        assert QuoteEscaped(s) + "'" + rest == "'\\''" + x;
      } else {
        var w := [s[0]] + x;
        assert QuoteEscaped(s) + "'" + rest == w;
        assert w[1..] == x;
      }
    }
  }

  /** An escaped quote `'\''` inside a quoted run reads as one literal quote. */
  lemma QuotedRunOfEscapedQuote(x: string)
    ensures QuotedRun("'\\''" + x) == Prepend("'", QuotedRun(x))
  {
    var w := "'\\''" + x;
    assert w[1..] == "\\''" + x;
    var v := w[1..];
    assert v[0] == '\\' && v[1] == '\'';
    assert v[2..] == "'" + x;
    assert ("'" + x)[1..] == x;
    assert ShellWord("'" + x) == QuotedRun(x);
    assert ShellWord(v) == Prepend([v[1]], ShellWord(v[2..]));
    assert [v[1]] == "'";
    assert QuotedRun(w) == ShellWord(v);
  }

  lemma PrependPrepend(a: string, b: string, o: Option<string>)
    ensures Prepend(a, Prepend(b, o)) == Prepend(a + b, o)
  {
    match o
    case Some(v) => assert a + (b + v) == a + b + v;
    case None =>
  }

  /** A shell reads `escapeshellarg(s)` back as exactly the one word `s`. */
  lemma EscapeShellArgReadsBack(s: string)
    ensures ShellWord(EscapeShellArg(s)) == Some(s)
  {
    QuotedRunOfEscaped(s, "");
    assert QuoteEscaped(s) + "'" + "" == QuoteEscaped(s) + "'";
    assert EscapeShellArg(s)[1..] == QuoteEscaped(s) + "'";
    assert s + "" == s;
  }

  // ---------------------------------------------------------------------------
  // Decimal rendering of a natural number (PHP's int-to-string conversion)
  // ---------------------------------------------------------------------------

  predicate IsDigits(s: string) {
    forall i :: 0 <= i < |s| ==> '0' <= s[i] <= '9'
  }

  function DigitChar(d: nat): (c: char)
    requires d < 10
    ensures '0' <= c <= '9' && c as int - '0' as int == d
  {
    (d + '0' as int) as char
  }

  /** `"$n"` for a non-negative integer: its digits, most significant first. */
  function NatToString(n: nat): (s: string)
    ensures s != "" && IsDigits(s)
    ensures s[0] == '0' ==> n == 0
  {
    if n < 10 then [DigitChar(n)] else NatToString(n / 10) + [DigitChar(n % 10)]
  }

  /** The number a string of decimal digits denotes. */
  function DecimalValue(s: string): nat
    requires IsDigits(s)
  {
    if s == "" then 0 else 10 * DecimalValue(s[..|s| - 1]) + (s[|s| - 1] as int - '0' as int)
  }

  lemma {:induction false} DecimalValueOfNatToString(n: nat)
    ensures DecimalValue(NatToString(n)) == n
  {
    if n >= 10 {
      var s := NatToString(n);
      assert s[..|s| - 1] == NatToString(n / 10);
      DecimalValueOfNatToString(n / 10);
    }
  }

  lemma NatToStringInjective(m: nat, n: nat)
    ensures NatToString(m) == NatToString(n) ==> m == n
  {
    DecimalValueOfNatToString(m);
    DecimalValueOfNatToString(n);
  }

  // ---------------------------------------------------------------------------
  // dirname and basename
  // ---------------------------------------------------------------------------

  /** `s` with its last component removed, the slash before it kept. */
  function DropLastName(s: string): (r: string)
    ensures |r| <= |s| && r == s[..|r|]
    ensures r == "" || r[|r| - 1] == '/'
    ensures forall i :: |r| <= i < |s| ==> s[i] != '/'
  {
    if s != "" && s[|s| - 1] != '/' then DropLastName(s[..|s| - 1]) else s
  }

  /** The last component of `s`: the longest suffix without a slash. */
  function LastName(s: string): (r: string)
    ensures |r| <= |s| && r == s[|s| - |r|..]
    ensures forall i :: |s| - |r| <= i < |s| ==> s[i] != '/'
    ensures |r| < |s| ==> s[|s| - |r| - 1] == '/'
  {
    if s != "" && s[|s| - 1] != '/' then LastName(s[..|s| - 1]) + [s[|s| - 1]] else ""
  }

  /** PHP's `dirname($path)` for a POSIX path. */
  function Dirname(path: string): string {
    if path == "" then ""
    else
      var a := RTrimSlash(path);
      if a == "" then "/"
      else
        var b := DropLastName(a);
        if b == "" then "."
        else
          var c := RTrimSlash(b);
          if c == "" then "/" else c
  }

  /** PHP's `basename($path)` for a POSIX path. */
  function Basename(path: string): string {
    LastName(RTrimSlash(path))
  }

  /** A file `name` inside a directory `dir` that does not end in a slash:
      dirname gives the directory back and basename the file name. */
  lemma DirnameBasenameOfChild(dir: string, name: string)
    requires dir != "" && dir[|dir| - 1] != '/'
    requires name != "" && '/' !in name
    ensures Dirname(dir + "/" + name) == dir
    ensures Basename(dir + "/" + name) == name
  {
    var p := dir + "/" + name;
    assert p[|p| - 1] == name[|name| - 1];
    assert RTrimSlash(p) == p;
    assert p[|dir|] == '/';
    assert forall i :: |dir| < i < |p| ==> p[i] == name[i - |dir| - 1];
    var b := DropLastName(p);
    assert |b| >= |dir| + 1;
    assert |b| <= |dir| + 1;
    assert b == dir + "/";
    assert RTrimSlash(b) == RTrimSlash(dir);
    assert RTrimSlash(dir) == dir;
    var l := LastName(p);
    assert |l| <= |name|;
    assert |l| >= |name|;
    assert l == name;
  }

  // ---------------------------------------------------------------------------
  // implode and its inverse
  // ---------------------------------------------------------------------------

  /** `implode($sep, $parts)`. */
  function Join(parts: seq<string>, sep: string): string {
    if |parts| == 0 then ""
    else if |parts| == 1 then parts[0]
    else parts[0] + sep + Join(parts[1..], sep)
  }

  /** `explode($c, $s)` for a one-character separator. */
  function Split(s: string, c: char): (r: seq<string>)
    ensures |r| >= 1
  {
    if s == "" then [""]
    else
      var rest := Split(s[1..], c);
      if s[0] == c then [""] + rest else [[s[0]] + rest[0]] + rest[1..]
  }

  lemma {:induction false} SplitWithout(s: string, c: char)
    requires c !in s
    ensures Split(s, c) == [s]
  {
    if s != "" {
      SplitWithout(s[1..], c);
      assert [s[0]] + s[1..] == s;
    }
  }

  lemma {:induction false} SplitAfterWord(w: string, c: char, tail: string)
    requires c !in w
    ensures Split(w + [c] + tail, c) == [w] + Split(tail, c)
  {
    if w == "" {
      assert w + [c] + tail == [c] + tail;
      assert ([c] + tail)[1..] == tail;
    } else {
      var x := w[1..] + [c] + tail;
      assert (w + [c] + tail)[1..] == x;
      assert (w + [c] + tail)[0] == w[0];
      SplitAfterWord(w[1..], c, tail);
      assert [w[0]] + w[1..] == w;
    }
  }

  /** Splitting on the separator undoes joining, when no part contains it. */
  lemma {:induction false} SplitJoin(parts: seq<string>, c: char)
    requires |parts| >= 1
    requires forall i :: 0 <= i < |parts| ==> c !in parts[i]
    ensures Split(Join(parts, [c]), c) == parts
  {
    if |parts| == 1 {
      SplitWithout(parts[0], c);
    } else {
      SplitJoin(parts[1..], c);
      SplitAfterWord(parts[0], c, Join(parts[1..], [c]));
      assert [parts[0]] + parts[1..] == parts;
    }
  }

  // ---------------------------------------------------------------------------
  // sprintf
  // ---------------------------------------------------------------------------

  /** `sprintf($format, ...$args)` for the two directives the orchestrator's
      formats rely on: `%s` takes the next argument as it is and `%%` is one
      literal `%`; surplus arguments are ignored. None stands for every other
      case: an argument too few (an `ArgumentCountError` in PHP 8) or any other
      directive, which this model does not interpret. */
  function Sprintf(format: string, args: seq<string>): Option<string>
    decreases |format|
  {
    if format == "" then Some("")
    else if format[0] != '%' then Prepend([format[0]], Sprintf(format[1..], args))
    else if |format| >= 2 && format[1] == '%' then Prepend("%", Sprintf(format[2..], args))
    else if |format| >= 2 && format[1] == 's' && args != [] then Prepend(args[0], Sprintf(format[2..], args[1..]))
    else None
  }

  /** Text without a `%` is copied as it is. */
  lemma {:induction false} SprintfPlain(s: string)
    requires '%' !in s
    ensures Sprintf(s, []) == Some(s)
  {
    if s != "" {
      assert '%' !in s[1..] by {
        assert forall k :: 0 <= k < |s[1..]| ==> s[1..][k] == s[k + 1];
      }
      SprintfPlain(s[1..]);
      assert [s[0]] + s[1..] == s;
    }
  }

  /** A leading part that takes no argument is read on its own: its reading
      comes first and the rest is read with all the arguments. */
  lemma {:induction false} SprintfPrefix(a: string, a': string, rest: string, args: seq<string>)
    requires Sprintf(a, []) == Some(a')
    ensures Sprintf(a + rest, args) == Prepend(a', Sprintf(rest, args))
  {
    var w := a + rest;
    if a == "" {
      assert w == rest;
      match Sprintf(rest, args)
      case Some(v) => assert a' + v == v;
      case None =>
    } else if a[0] != '%' {
      var b' := Sprintf(a[1..], []).value;
      assert a' == [a[0]] + b';
      SprintfPrefix(a[1..], b', rest, args);
      assert w[0] == a[0] && w[1..] == a[1..] + rest;
      PrependPrepend([a[0]], b', Sprintf(rest, args));
    } else {
      assert |a| >= 2 && a[1] == '%';
      var b' := Sprintf(a[2..], []).value;
      assert a' == "%" + b';
      SprintfPrefix(a[2..], b', rest, args);
      assert w[0] == '%' && w[1] == '%' && w[2..] == a[2..] + rest;
      PrependPrepend("%", b', Sprintf(rest, args));
    }
  }

  /** `%s` is replaced by the next argument. */
  lemma SprintfArg(x: string, rest: string, args: seq<string>)
    ensures Sprintf("%s" + rest, [x] + args) == Prepend(x, Sprintf(rest, args))
  {
    var w := "%s" + rest;
    assert w[0] == '%' && w[1] == 's' && w[2..] == rest;
    assert ([x] + args)[0] == x && ([x] + args)[1..] == args;
  }

  /** Text without a `%`, then `%s`: the text and the next argument. */
  lemma SprintfTextArg(text: string, x: string, rest: string, args: seq<string>)
    requires '%' !in text
    ensures Sprintf(text + "%s" + rest, [x] + args) == Prepend(text + x, Sprintf(rest, args))
  {
    SprintfPlain(text);
    SprintfPrefix(text, text, "%s" + rest, [x] + args);
    assert text + "%s" + rest == text + ("%s" + rest);
    SprintfArg(x, rest, args);
    PrependPrepend(text, x, Sprintf(rest, args));
  }

  /** `%%` between texts without `%` is read as one `%`. */
  lemma SprintfPercentPair(p1: string, p2: string)
    requires '%' !in p1 && '%' !in p2
    ensures Sprintf(p1 + "%%" + p2, []) == Some(p1 + "%" + p2)
  {
    SprintfPlain(p1);
    SprintfPlain(p2);
    var w := "%%" + p2;
    assert p1 + "%%" + p2 == p1 + w;
    SprintfPrefix(p1, p1, w, []);
    assert w[0] == '%' && w[1] == '%' && w[2..] == p2;
    assert Sprintf(w, []) == Some("%" + p2);
    assert p1 + ("%" + p2) == p1 + "%" + p2;
  }
}
