/**
 * Text helpers that several parts of the GUI rely on: Python's `str.title`,
 * `str.replace`, `str.join`, substring tests, decimal integers as read by
 * `int(...)` and written by `str(...)`, and the `pathlib` accessors
 * `parent`, `name` and `suffix` on POSIX paths.
 */
module Text {
  import opened Wrappers

  // ---------------------------------------------------------------------------
  // Characters and title case
  // ---------------------------------------------------------------------------

  predicate IsLetter(c: char)
  {
    'a' <= c <= 'z' || 'A' <= c <= 'Z'
  }

  function ToUpper(c: char): char
  {
    if 'a' <= c <= 'z' then (c as int - 32) as char else c
  }

  function ToLower(c: char): char
  {
    if 'A' <= c <= 'Z' then (c as int + 32) as char else c
  }

  /** How `str.title` treats one character, given whether the previous character is a letter. */
  function TitleChar(c: char, afterLetter: bool): char
  {
    if !IsLetter(c) then c else if afterLetter then ToLower(c) else ToUpper(c)
  }

  function TitleFrom(s: string, afterLetter: bool): (r: string)
    ensures |r| == |s|
    ensures |s| > 0 ==> r[0] == TitleChar(s[0], afterLetter)
    ensures forall i :: 0 < i < |s| ==> r[i] == TitleChar(s[i], IsLetter(s[i - 1]))
    decreases |s|
  {
    if s == [] then [] else [TitleChar(s[0], afterLetter)] + TitleFrom(s[1..], IsLetter(s[0]))
  }

  /**
   * Python's `str.title` on ASCII text: a letter is upper-cased when it starts
   * a run of letters and lower-cased otherwise; other characters are kept.
   */
  function Title(s: string): (r: string)
    ensures |r| == |s|
    ensures forall i :: 0 <= i < |s| ==> r[i] == TitleChar(s[i], i > 0 && IsLetter(s[i - 1]))
  {
    TitleFrom(s, false)
  }

  lemma TitleCharKeepsLetters(c: char, b: bool)
    ensures IsLetter(TitleChar(c, b)) == IsLetter(c)
    ensures TitleChar(TitleChar(c, b), b) == TitleChar(c, b)
  {
  }

  /** A title-cased character differs from the original only in case, and a letter is upper-cased iff it starts a word. */
  lemma TitleCharCase(c: char, afterLetter: bool)
    ensures ToLower(TitleChar(c, afterLetter)) == ToLower(c)
    ensures TitleChar(c, afterLetter) == '_' <==> c == '_'
    ensures IsLetter(c) ==> ('A' <= TitleChar(c, afterLetter) <= 'Z' <==> !afterLetter)
  {
  }

  /** Title-casing twice is the same as title-casing once. */
  lemma TitleIdempotent(s: string)
    ensures Title(Title(s)) == Title(s)
  {
    var t := Title(s);
    forall i | 0 <= i < |s|
      ensures Title(t)[i] == t[i]
    {
      if i > 0 {
        TitleCharKeepsLetters(s[i - 1], i > 1 && IsLetter(s[i - 2]));
      }
      TitleCharKeepsLetters(s[i], i > 0 && IsLetter(s[i - 1]));
    }
  }

  // ---------------------------------------------------------------------------
  // Replacing, joining and searching
  // ---------------------------------------------------------------------------

  /** `s.replace(a, b)` for single characters `a` and `b`. */
  function ReplaceChar(s: string, a: char, b: char): (r: string)
    ensures |r| == |s|
    ensures forall i :: 0 <= i < |s| ==> r[i] == (if s[i] == a then b else s[i])
  {
    if s == [] then [] else [if s[0] == a then b else s[0]] + ReplaceChar(s[1..], a, b)
  }

  /** `sub` occurs in `s` starting at index `i`. */
  predicate OccursAt(s: string, sub: string, i: int)
  {
    0 <= i && i + |sub| <= |s| && s[i..i + |sub|] == sub
  }

  /** `sub in s` for strings. */
  predicate Contains(s: string, sub: string)
  {
    exists i :: 0 <= i <= |s| && OccursAt(s, sub, i)
  }

  /** `sep.join(parts)`. */
  function Join(sep: string, parts: seq<string>): string
  {
    if |parts| == 0 then ""
    else if |parts| == 1 then parts[0]
    else parts[0] + sep + Join(sep, parts[1..])
  }

  lemma ContainsInfix(a: string, sub: string, b: string)
    ensures Contains(a + sub + b, sub)
  {
    assert OccursAt(a + sub + b, sub, |a|);
  }

  /** Every part occurs in the joined text. */
  lemma {:induction false} JoinContainsEach(sep: string, parts: seq<string>, k: int)
    requires 0 <= k < |parts|
    ensures Contains(Join(sep, parts), parts[k])
    decreases |parts|
  {
    if |parts| == 1 {
      ContainsInfix("", parts[0], "");
      assert "" + parts[0] + "" == parts[0];
    } else if k == 0 {
      ContainsInfix("", parts[0], sep + Join(sep, parts[1..]));
      assert "" + parts[0] + (sep + Join(sep, parts[1..])) == Join(sep, parts);
    } else {
      JoinContainsEach(sep, parts[1..], k - 1);
      assert parts[1..][k - 1] == parts[k];
      ContainsAfterPrefix(parts[0] + sep, Join(sep, parts[1..]), parts[k]);
    }
  }

  lemma JoinNonEmpty(sep: string, parts: seq<string>)
    requires |parts| > 0 && |parts[0]| > 0
    ensures Join(sep, parts) != ""
  {
    assert Join(sep, parts)[0] == parts[0][0];
  }

  lemma ContainsAfterPrefix(pre: string, s: string, sub: string)
    requires Contains(s, sub)
    ensures Contains(pre + s, sub)
  {
    var i :| 0 <= i <= |s| && OccursAt(s, sub, i);
    assert (pre + s)[|pre| + i..|pre| + i + |sub|] == s[i..i + |sub|];
    assert OccursAt(pre + s, sub, |pre| + i);
  }

  lemma ContainsBeforeSuffix(s: string, post: string, sub: string)
    requires Contains(s, sub)
    ensures Contains(s + post, sub)
  {
    var i :| 0 <= i <= |s| && OccursAt(s, sub, i);
    assert (s + post)[i..i + |sub|] == s[i..i + |sub|];
    assert OccursAt(s + post, sub, i);
  }

  // Python's `str.format` with one positional argument

  /** A text with no brace, which `str.format` copies unchanged. */
  predicate Braceless(s: string)
  {
    '{' !in s && '}' !in s
  }

  lemma BracelessConcat(s: string, t: string)
    requires Braceless(s) && Braceless(t)
    ensures Braceless(s + t)
  {
  }

  function PrefixWith(p: string, r: Option<string>): (q: Option<string>)
    ensures q.Some? <==> r.Some?
  {
    if r.Some? then Some(p + r.value) else None
  }

  lemma PrefixWithConcat(a: string, b: string, r: Option<string>)
    ensures PrefixWith(a, PrefixWith(b, r)) == PrefixWith(a + b, r)
    ensures PrefixWith("", r) == r
  {
    if r.Some? {
      assert a + (b + r.value) == (a + b) + r.value;
      assert "" + r.value == r.value;
    }
  }

  /**
   * `template.format(arg)` for a template that holds the field `{0}`:
   * `{{` and `}}` stand for one brace and `{0}` for `arg`. Any other field
   * (`{b}` raises `KeyError`, `{1}` raises `IndexError`, `{}` cannot be
   * mixed with `{0}`) and any unmatched brace (`ValueError`) makes the call
   * raise, which is `None`.
   */
  function Format(template: string, arg: string): (r: Option<string>)
    decreases |template|
  {
    if template == [] then Some("")
    else if |template| >= 2 && template[..2] == "{{" then PrefixWith("{", Format(template[2..], arg))
    else if |template| >= 2 && template[..2] == "}}" then PrefixWith("}", Format(template[2..], arg))
    else if |template| >= 3 && template[..3] == "{0}" then PrefixWith(arg, Format(template[3..], arg))
    else if template[0] == '{' || template[0] == '}' then None
    else PrefixWith([template[0]], Format(template[1..], arg))
  }

  /** A braceless start of the template is copied unchanged. */
  lemma {:induction false} FormatBraceless(s: string, t: string, arg: string)
    requires Braceless(s)
    ensures Format(s + t, arg) == PrefixWith(s, Format(t, arg))
    decreases |s|
  {
    if s != [] {
      assert (s + t)[0] == s[0];
      assert (s + t)[1..] == s[1..] + t;
      FormatBraceless(s[1..], t, arg);
      assert [s[0]] + s[1..] == s;
      PrefixWithConcat([s[0]], s[1..], Format(t, arg));
    } else {
      assert s + t == t;
      PrefixWithConcat("", "", Format(t, arg));
    }
  }

  /** The one field `{0}` gives the argument. */
  lemma FormatField(t: string, arg: string)
    ensures Format("{0}" + t, arg) == PrefixWith(arg, Format(t, arg))
  {
    var u := "{0}" + t;
    assert u[0] == '{' && u[1] == '0' && u[2] == '}';
    assert u[..2] != "{{" && u[..2] != "}}";
    assert u[..3] == "{0}" && u[3..] == t;
  }

  /** A `{` that starts neither `{{` nor `{0}`, after braceless text, makes the call raise. */
  lemma FormatBadField(s: string, t: string, arg: string)
    requires Braceless(s) && |t| >= 2 && t[0] == '{' && t[1] != '{'
    requires |t| >= 3 ==> t[1] != '0' || t[2] != '}'
    ensures Format(s + t, arg).None?
  {
    FormatBraceless(s, t, arg);
    assert t[..2] != "{{" && t[..2] != "}}";
    assert |t| >= 3 ==> t[..3] != "{0}";
  }

  /** A `}` that does not start `}}`, after braceless text, makes the call raise. */
  lemma FormatStrayClose(s: string, t: string, arg: string)
    requires Braceless(s) && |t| >= 1 && t[0] == '}'
    requires |t| >= 2 ==> t[1] != '}'
    ensures Format(s + t, arg).None?
  {
    FormatBraceless(s, t, arg);
    assert |t| >= 2 ==> t[..2] != "{{" && t[..2] != "}}";
    assert |t| >= 3 ==> t[..3] != "{0}";
  }

  /**
   * A template `h + name + t + "{0}"` whose braceless lead `h` is followed
   * by a name holding a field of letters (`a{b}c`) makes the call raise.
   */
  lemma FormatNameFieldRaises(h: string, a: string, b: string, c: string, t: string, arg: string)
    requires Braceless(h) && Braceless(a) && forall i :: 0 <= i < |b| ==> IsLetter(b[i])
    ensures Format(h + (a + "{" + b + "}" + c) + t + "{0}", arg).None?
  {
    var u := "{" + b + "}" + c + t + "{0}";
    assert h + (a + "{" + b + "}" + c) + t + "{0}" == (h + a) + u;
    BracelessConcat(h, a);
    if |b| > 0 {
      assert u[1] == b[0] && IsLetter(b[0]);
    } else {
      assert u[1] == '}';
    }
    FormatBadField(h + a, u, arg);
  }

  /**
   * A template `h + name + t + "{0}"` whose braceless lead `h` is followed
   * by a name holding a single `}` (`a}c`, with `c` not starting with `}`
   * and `t` not starting with `}` when `c` is empty) makes the call raise.
   */
  lemma FormatNameCloseRaises(h: string, a: string, c: string, t: string, arg: string)
    requires Braceless(h) && Braceless(a) && Braceless(t)
    requires c == [] || c[0] != '}'
    ensures Format(h + (a + "}" + c) + t + "{0}", arg).None?
  {
    var u := "}" + c + t + "{0}";
    assert h + (a + "}" + c) + t + "{0}" == (h + a) + u;
    BracelessConcat(h, a);
    if c == [] {
      assert u[1..] == t + "{0}";
      assert |t| > 0 ==> u[1] == t[0];
      assert |t| == 0 ==> u[1] == '{';
    } else {
      assert u[1] == c[0];
    }
    FormatStrayClose(h + a, u, arg);
  }

  /**
   * A template `h + name + t + "{0}"` whose name is `a{0}c`, all else
   * braceless, gives the argument in place of the name's `{0}` as well.
   */
  lemma FormatNameFieldSubstituted(h: string, a: string, c: string, t: string, arg: string)
    requires Braceless(h) && Braceless(a) && Braceless(c) && Braceless(t)
    ensures Format(h + (a + "{0}" + c) + t + "{0}", arg) == Some(h + a + arg + c + t + arg)
  {
    var front := h + a;
    var rest := c + t;
    assert h + (a + "{0}" + c) + t + "{0}" == front + ("{0}" + (rest + "{0}"));
    BracelessConcat(h, a);
    BracelessConcat(c, t);
    FormatBraceless(front, "{0}" + (rest + "{0}"), arg);
    FormatField(rest + "{0}", arg);
    FormatAfterBraceless(rest, arg);
    assert front + (arg + (rest + arg)) == h + a + arg + c + t + arg;
  }

  /** A formatted template keeps its braceless lead `h` in front of whatever the rest gives. */
  lemma FormatKeepsLead(h: string, name: string, t: string, arg: string)
    requires Braceless(h)
    ensures Format(h + name + t, arg).Some? ==> |Format(h + name + t, arg).value| >= |h|
  {
    assert h + name + t == h + (name + t);
    FormatBraceless(h, name + t, arg);
  }

  /** A braceless text followed by `{0}` formats to the text followed by the argument. */
  lemma FormatAfterBraceless(h: string, arg: string)
    requires Braceless(h)
    ensures Format(h + "{0}", arg) == Some(h + arg)
  {
    FormatBraceless(h, "{0}", arg);
    FormatField("", arg);
    assert "{0}" + "" == "{0}";
    assert arg + "" == arg;
  }

  /** One character as a format template: a brace doubled, anything else as it is. */
  function EscapeChar(c: char): string
  {
    if c == '{' then "{{" else if c == '}' then "}}" else [c]
  }

  /** `s` with each brace doubled, which `str.format` reads back as `s`. */
  function EscapeBraces(s: string): (r: string)
    ensures Braceless(s) ==> r == s
  {
    if s == [] then "" else EscapeChar(s[0]) + EscapeBraces(s[1..])
  }

  lemma FormatEscapedChar(c: char, rest: string, arg: string)
    ensures Format(EscapeChar(c) + rest, arg) == PrefixWith([c], Format(rest, arg))
  {
    var u := EscapeChar(c) + rest;
    if c == '{' || c == '}' {
      assert u[0] == c && u[1] == c;
      assert u[..2] == [c, c] && u[2..] == rest;
    } else {
      assert u[0] == c && u[1..] == rest;
    }
  }

  /** Formatting reads an escaped text back as the text itself, whatever braces it holds. */
  lemma {:induction false} FormatEscaped(s: string, t: string, arg: string)
    ensures Format(EscapeBraces(s) + t, arg) == PrefixWith(s, Format(t, arg))
    decreases |s|
  {
    if s == [] {
      assert EscapeBraces(s) + t == t;
      PrefixWithConcat("", "", Format(t, arg));
    } else {
      var rest := EscapeBraces(s[1..]) + t;
      assert EscapeBraces(s) + t == EscapeChar(s[0]) + rest;
      FormatEscapedChar(s[0], rest, arg);
      FormatEscaped(s[1..], t, arg);
      PrefixWithConcat([s[0]], s[1..], Format(t, arg));
      assert [s[0]] + s[1..] == s;
    }
  }

  /** With the text escaped, the same holds for any text. */
  lemma FormatAfterEscaped(h: string, arg: string)
    ensures Format(EscapeBraces(h) + "{0}", arg) == Some(h + arg)
  {
    FormatEscaped(h, "{0}", arg);
    FormatField("", arg);
    assert "{0}" + "" == "{0}";
    assert arg + "" == arg;
  }

  lemma DigitsBraceless(s: string)
    requires AllDigits(s)
    ensures Braceless(s)
  {
  }

  /** The index of the last occurrence of `c` in `s`, or -1 (`str.rfind`). */
  function LastIndexOf(s: string, c: char): (r: int)
    ensures -1 <= r < |s|
    ensures r >= 0 ==> s[r] == c
    ensures forall j :: r < j < |s| ==> s[j] != c
  {
    if s == [] then -1
    else if s[|s| - 1] == c then |s| - 1
    else LastIndexOf(s[..|s| - 1], c)
  }

  // ---------------------------------------------------------------------------
  // Decimal integers
  // ---------------------------------------------------------------------------

  predicate IsDigit(c: char)
  {
    '0' <= c <= '9'
  }

  predicate AllDigits(s: string)
  {
    forall i :: 0 <= i < |s| ==> IsDigit(s[i])
  }

  function DigitChar(d: nat): char
    requires d < 10
  {
    ('0' as int + d) as char
  }

  /** The number a non-empty string of decimal digits denotes. */
  function DigitsValue(s: string): nat
    requires AllDigits(s)
  {
    if s == [] then 0 else 10 * DigitsValue(s[..|s| - 1]) + (s[|s| - 1] as int - '0' as int)
  }

  /** `str(n)` for a natural number. */
  function NatToString(n: nat): (r: string)
    ensures |r| > 0 && AllDigits(r)
  {
    if n < 10 then [DigitChar(n)] else NatToString(n / 10) + [DigitChar(n % 10)]
  }

  /** Reading back what `NatToString` wrote gives the number. */
  lemma {:induction false} NatToStringValue(n: nat)
    ensures DigitsValue(NatToString(n)) == n
  {
    if n >= 10 {
      NatToStringValue(n / 10);
      var s := NatToString(n);
      assert s[..|s| - 1] == NatToString(n / 10);
    }
  }

  lemma NatToStringInjective(a: nat, b: nat)
    requires NatToString(a) == NatToString(b)
    ensures a == b
  {
    NatToStringValue(a);
    NatToStringValue(b);
  }

  /**
   * `int(s)` on the subset of Python's syntax this model accepts: an optional
   * sign followed by at least one decimal digit. Anything else raises
   * `ValueError`, modelled as `None`.
   */
  function ParseInt(s: string): (r: Option<int>)
    ensures r.Some? <==> (|s| > 0 && AllDigits(s)) || (|s| > 1 && (s[0] == '-' || s[0] == '+') && AllDigits(s[1..]))
  {
    if |s| > 1 && s[0] == '-' && AllDigits(s[1..]) then Some(-(DigitsValue(s[1..]) as int))
    else if |s| > 1 && s[0] == '+' && AllDigits(s[1..]) then Some(DigitsValue(s[1..]))
    else if |s| > 0 && AllDigits(s) then Some(DigitsValue(s))
    else None
  }

  /** `int(str(n)) == n` and `int("-" + str(n)) == -n`. */
  lemma ParseIntRoundTrip(n: nat)
    ensures ParseInt(NatToString(n)) == Some(n)
    ensures ParseInt("-" + NatToString(n)) == Some(-(n as int))
  {
    NatToStringValue(n);
    assert ("-" + NatToString(n))[1..] == NatToString(n);
  }

  // ---------------------------------------------------------------------------
  // POSIX paths (pathlib on paths without trailing or doubled slashes)
  // ---------------------------------------------------------------------------

  /** `PurePosixPath(p).parent`. */
  function Parent(p: string): (r: string)
  {
    var i := LastIndexOf(p, '/');
    if i < 0 then "." else if i == 0 then "/" else p[..i]
  }

  /** `PurePosixPath(p).name`. */
  function Name(p: string): (r: string)
    ensures '/' !in r
  {
    var i := LastIndexOf(p, '/');
    if i < 0 then p else p[i + 1..]
  }

  /** `PurePosixPath(p).suffix`: the final extension of the name, dot included, or "". */
  function Suffix(p: string): (r: string)
  {
    var name := Name(p);
    var i := LastIndexOf(name, '.');
    if 0 < i < |name| - 1 then name[i..] else ""
  }

  /** `str(Path(dir) / rel)` for a directory that does not end with a slash. */
  function JoinPath(dir: string, rel: string): string
  {
    dir + "/" + rel
  }

  /** A directory and a name without slashes are recovered from their join. */
  lemma ParentNameOfJoin(dir: string, name: string)
    requires dir != "" && '/' !in name
    ensures Parent(JoinPath(dir, name)) == dir
    ensures Name(JoinPath(dir, name)) == name
  {
    var p := JoinPath(dir, name);
    var i := LastIndexOf(p, '/');
    assert p[|dir|] == '/';
    assert forall j :: |dir| < j < |p| ==> p[j] == name[j - |dir| - 1];
    assert i == |dir|;
    assert p[..i] == dir;
    assert p[i + 1..] == name;
  }

  /** `str(PurePosixPath(dir) / name)` for a name without slashes. */
  function JoinPosix(dir: string, name: string): string
  {
    if dir == "." then name
    else if |dir| > 0 && dir[|dir| - 1] == '/' then dir + name
    else dir + "/" + name
  }

  /**
   * A path as `pathlib` prints it: not empty, no trailing or doubled slash,
   * and no `.` component.
   */
  predicate Normalised(p: string)
  {
    && p != "" && p[|p| - 1] != '/'
    && (forall i :: 0 < i < |p| && p[i] == '/' ==> p[i - 1] != '/')
    && (forall i :: 0 <= i < |p| && p[i] == '.' && StartsComponent(p, i) ==> i + 1 < |p| && p[i + 1] != '/')
  }

  /** Index `i` of `p` begins a path component. */
  predicate StartsComponent(p: string, i: int)
    requires 0 <= i < |p|
  {
    i == 0 || p[i - 1] == '/'
  }

  /** `str(p.parent / p.name) == str(p)`, and the name is not empty. */
  lemma JoinParentName(p: string)
    requires Normalised(p)
    ensures JoinPosix(Parent(p), Name(p)) == p
    ensures Name(p) != ""
  {
    var i := LastIndexOf(p, '/');
    assert i < |p| - 1;
    if i > 0 {
      var dir := p[..i];
      assert dir[|dir| - 1] == p[i - 1] != '/';
      if i == 1 {
        assert p[1] == '/' && StartsComponent(p, 0);
      }
      assert Parent(p) == dir && Name(p) == p[i + 1..];
      assert dir != "." && dir != "";
      assert JoinPosix(dir, p[i + 1..]) == dir + "/" + p[i + 1..];
      assert dir + "/" + p[i + 1..] == p;
    } else if i == 0 {
      assert "/" + p[1..] == p;
    }
  }
}
