/** Splitting a command string into an xAPI command name and a raw argument
    string (`parse_xapi_command`). */
module CommandString {
  import opened Wrappers
  import opened Json

  /** Python's `str.isspace` on one character: the whitespace that both the
      argument-less `str.split` and `str.strip` skip. */
  predicate IsSpace(c: char) {
    var n := c as int;
    (0x09 <= n <= 0x0D) || (0x1C <= n <= 0x20) || n == 0x85 || n == 0xA0 || n == 0x1680
    || (0x2000 <= n <= 0x200A) || n == 0x2028 || n == 0x2029 || n == 0x202F || n == 0x205F
    || n == 0x3000
  }

  /** The ASCII whitespace of `str.isspace` is the six C whitespace
      characters and the four separators U+001C..U+001F; every whitespace
      character lies in U+0009..U+3000; the zero-width space and the byte
      order mark are not whitespace. */
  lemma PythonWhitespace(c: char)
    ensures c as int < 0x80 ==> (IsSpace(c) <==> c in " \t\n\r\U{0B}\U{0C}\U{1C}\U{1D}\U{1E}\U{1F}")
    ensures IsSpace(c) ==> 0x09 <= c as int <= 0x3000
    ensures c as int == 0x200B || c as int == 0xFEFF ==> !IsSpace(c)
  {
  }

  predicate AllSpace(s: string) {
    forall i :: 0 <= i < |s| ==> IsSpace(s[i])
  }

  predicate NoSpace(s: string) {
    forall i :: 0 <= i < |s| ==> !IsSpace(s[i])
  }

  /** A non-empty string that neither starts nor ends with whitespace. */
  predicate Trimmed(s: string) {
    s != [] && !IsSpace(s[0]) && !IsSpace(s[|s| - 1])
  }

  /** The first index at or after `i` that is not whitespace, or `|s|`. */
  function SkipSpaces(s: string, i: nat): (j: nat)
    requires i <= |s|
    ensures i <= j <= |s|
    ensures forall k :: i <= k < j ==> IsSpace(s[k])
    ensures j < |s| ==> !IsSpace(s[j])
    decreases |s| - i
  {
    if i == |s| || !IsSpace(s[i]) then i else SkipSpaces(s, i + 1)
  }

  /** The first index at or after `i` that is whitespace, or `|s|`. */
  function SkipToken(s: string, i: nat): (j: nat)
    requires i <= |s|
    ensures i <= j <= |s|
    ensures forall k :: i <= k < j ==> !IsSpace(s[k])
    ensures j < |s| ==> IsSpace(s[j])
    decreases |s| - i
  {
    if i == |s| || IsSpace(s[i]) then i else SkipToken(s, i + 1)
  }

  /** Scanning back from `e` towards `i`: the end of `s[i..e]` once its
      trailing whitespace is cut off. */
  function TrimEnd(s: string, i: nat, e: nat): (j: nat)
    requires i <= e <= |s|
    ensures i <= j <= e
    ensures forall k :: j <= k < e ==> IsSpace(s[k])
    ensures i < j ==> !IsSpace(s[j - 1])
    decreases e - i
  {
    if e == i || !IsSpace(s[e - 1]) then e else TrimEnd(s, i, e - 1)
  }

  /** Python's `s.strip()`. */
  function Strip(s: string): (r: string)
    ensures r == [] <==> AllSpace(s)
    ensures r != [] ==> Trimmed(r)
  {
    var a := SkipSpaces(s, 0);
    s[a..TrimEnd(s, a, |s|)]
  }

  /** Python's `s.split(None, 1)`: skip leading whitespace, cut the first
      token, skip the whitespace after it and keep the rest, unstripped at its
      end, as the second part if anything is left. */
  function SplitOnce(s: string): (parts: seq<string>)
    ensures |parts| <= 2
    ensures parts == [] <==> AllSpace(s)
    ensures |parts| >= 1 ==> parts[0] != [] && NoSpace(parts[0])
    ensures |parts| == 2 ==> parts[1] != [] && !IsSpace(parts[1][0])
  {
    var a := SkipSpaces(s, 0);
    if a == |s| then []
    else
      var n := SkipToken(s, a);
      var b := SkipSpaces(s, n);
      if b == |s| then [s[a..n]] else [s[a..n], s[b..]]
  }

  /** What `parse_xapi_command` returns: the command name and the raw
      argument string, and whether it printed the "not in JSON format"
      warning. */
  datatype ParsedCommand = ParsedCommand(name: string, arguments: Option<string>, warned: bool)

  /** What Python raises on `parts[0]` when the string has no token. */
  const NoCommandName := "IndexError: list index out of range"

  /** `parse_xapi_command`: the argument text is kept raw whether or not
      `loads` accepts it; a failed parse only raises the warning flag. */
  function ParseCommand(commandString: string, loads: JsonLoader): (r: Result<ParsedCommand, string>)
    ensures r.Failure? <==> AllSpace(commandString)
    ensures r.Failure? ==> r.error == NoCommandName
    ensures r.Success? ==> r.value.name != [] && NoSpace(r.value.name)
    ensures r.Success? && r.value.arguments.Some? ==> Trimmed(r.value.arguments.value)
    ensures r.Success? ==>
      (r.value.warned <==> r.value.arguments.Some? && loads(r.value.arguments.value).Failure?)
  {
    var parts := SplitOnce(commandString);
    if parts == [] then Failure(NoCommandName)
    else
      var arguments := if |parts| > 1 then Some(Strip(parts[1])) else None;
      var warned := arguments.Some? && loads(arguments.value).Failure?;
      Success(ParsedCommand(parts[0], arguments, warned))
  }

  /** The three scans are determined by the property their contracts state. */
  lemma SkipSpacesExact(s: string, i: nat, j: nat)
    requires i <= j <= |s|
    requires forall k :: i <= k < j ==> IsSpace(s[k])
    requires j < |s| ==> !IsSpace(s[j])
    ensures SkipSpaces(s, i) == j
  {
  }

  lemma SkipTokenExact(s: string, i: nat, j: nat)
    requires i <= j <= |s|
    requires forall k :: i <= k < j ==> !IsSpace(s[k])
    requires j < |s| ==> IsSpace(s[j])
    ensures SkipToken(s, i) == j
  {
  }

  lemma TrimEndExact(s: string, i: nat, e: nat, j: nat)
    requires i <= j <= e <= |s|
    requires forall k :: j <= k < e ==> IsSpace(s[k])
    requires i < j ==> !IsSpace(s[j - 1])
    ensures TrimEnd(s, i, e) == j
  {
  }

  /** Stripping a trimmed text padded with whitespace gives the text back. */
  lemma StripPadded(w1: string, x: string, w3: string)
    requires AllSpace(w1) && AllSpace(w3) && Trimmed(x)
    ensures Strip(w1 + x + w3) == x
  {
    var s := w1 + x + w3;
    var a, e := |w1|, |w1| + |x|;
    assert forall k :: 0 <= k < a ==> s[k] == w1[k];
    assert s[a] == x[0] && s[e - 1] == x[|x| - 1];
    assert forall k :: e <= k < |s| ==> s[k] == w3[k - e];
    SkipSpacesExact(s, 0, a);
    TrimEndExact(s, a, |s|, e);
    assert s[a..e] == x;
  }

  /** Every string is its stripped form with whitespace on either side. */
  lemma StripSplit(s: string) returns (w1: string, w3: string)
    ensures AllSpace(w1) && AllSpace(w3) && s == w1 + Strip(s) + w3
    ensures |w1| == SkipSpaces(s, 0)
  {
    var a := SkipSpaces(s, 0);
    var e := TrimEnd(s, a, |s|);
    w1, w3 := s[..a], s[e..];
    assert s == w1 + s[a..e] + w3;
  }

  /** How `split(None, 1)` cuts a string made of leading whitespace, a token,
      a whitespace gap and a rest that does not start with whitespace. */
  lemma SplitOnceShape(w1: string, name: string, w2: string, rest: string)
    requires AllSpace(w1) && AllSpace(w2) && name != [] && NoSpace(name)
    requires rest == [] || (w2 != [] && !IsSpace(rest[0]))
    ensures SplitOnce(w1 + name + w2 + rest) == if rest == [] then [name] else [name, rest]
  {
    var s := w1 + name + w2 + rest;
    var a, n, b := |w1|, |w1| + |name|, |w1| + |name| + |w2|;
    assert forall k :: 0 <= k < a ==> s[k] == w1[k];
    assert forall k :: a <= k < n ==> s[k] == name[k - a];
    assert forall k :: n <= k < b ==> s[k] == w2[k - n];
    assert b < |s| ==> s[b] == rest[0];
    SkipSpacesExact(s, 0, a);
    SkipTokenExact(s, a, n);
    SkipSpacesExact(s, n, b);
    assert s[a..n] == name && s[b..] == rest;
  }

  /** A name alone, with any surrounding whitespace, parses to that name and
      no arguments. */
  lemma ParseBareName(w1: string, name: string, w3: string, loads: JsonLoader)
    requires AllSpace(w1) && AllSpace(w3) && name != [] && NoSpace(name)
    ensures ParseCommand(w1 + name + w3, loads) == Success(ParsedCommand(name, None, false))
  {
    SplitOnceShape(w1, name, w3, []);
    assert w1 + name + w3 + [] == w1 + name + w3;
  }

  /** A name, a whitespace gap and a trimmed argument text, padded with any
      whitespace, parse to that name and that exact argument text. */
  lemma ParseNameAndArguments(w1: string, name: string, w2: string, args: string, w3: string, loads: JsonLoader)
    requires AllSpace(w1) && AllSpace(w2) && AllSpace(w3) && w2 != []
    requires name != [] && NoSpace(name) && Trimmed(args)
    ensures ParseCommand(w1 + name + w2 + args + w3, loads)
         == Success(ParsedCommand(name, Some(args), loads(args).Failure?))
  {
    SplitOnceShape(w1, name, w2, args + w3);
    assert w1 + name + w2 + (args + w3) == w1 + name + w2 + args + w3;
    StripPadded([], args, w3);
    assert [] + args + w3 == args + w3;
  }

  /** The pieces `split(None, 1)` cuts out of a string with a token. */
  lemma SplitOnceDecomposition(s: string) returns (w1: string, w2: string)
    requires SplitOnce(s) != []
    ensures AllSpace(w1) && AllSpace(w2)
    ensures |SplitOnce(s)| == 1 ==> s == w1 + SplitOnce(s)[0] + w2
    ensures |SplitOnce(s)| == 2 ==> w2 != [] && s == w1 + SplitOnce(s)[0] + w2 + SplitOnce(s)[1]
  {
    var a := SkipSpaces(s, 0);
    var n := SkipToken(s, a);
    var b := SkipSpaces(s, n);
    w1, w2 := s[..a], s[n..b];
    assert SplitOnce(s)[0] == s[a..n];
    assert w1 + s[a..n] == s[..n];
    assert w1 + s[a..n] + w2 == s[..b];
    if b == |s| {
      assert s[..b] == s;
    } else {
      assert SplitOnce(s)[1] == s[b..];
      assert s[..b] + s[b..] == s;
    }
  }

  /** Conversely, every successful parse comes from a string of exactly that
      shape; together with the two lemmas above this pins down the parse. */
  lemma ParseDecomposition(s: string, loads: JsonLoader) returns (w1: string, w2: string, w3: string)
    requires ParseCommand(s, loads).Success?
    ensures AllSpace(w1) && AllSpace(w2) && AllSpace(w3)
    ensures var p := ParseCommand(s, loads).value;
      match p.arguments
      case None => w2 == [] && s == w1 + p.name + w3
      case Some(a) => w2 != [] && s == w1 + p.name + w2 + a + w3
  {
    var parts := SplitOnce(s);
    var g1, g2 := SplitOnceDecomposition(s);
    if |parts| == 1 {
      w1, w2, w3 := g1, [], g2;
    } else {
      var u1, u3 := StripSplit(parts[1]);
      assert u1 == [] by { assert SkipSpaces(parts[1], 0) == 0; }
      var a := Strip(parts[1]);
      assert ParseCommand(s, loads).value.arguments == Some(a);
      assert parts[1] == a + u3 by { assert u1 + a + u3 == a + u3; }
      w1, w2, w3 := g1, g2, u3;
      assert s == w1 + parts[0] + w2 + (a + w3);
      assert w1 + parts[0] + w2 + (a + w3) == w1 + parts[0] + w2 + a + w3;
    }
  }

  /** Printable ASCII other than the space is not whitespace. */
  lemma AsciiNameHasNoSpace(s: string)
    requires forall i :: 0 <= i < |s| ==> 0x21 <= s[i] as int <= 0x7E
    ensures NoSpace(s)
  {
  }

  /** The documented example without arguments. */
  lemma ParseBootExample(loads: JsonLoader)
    ensures ParseCommand("SystemUnit.Boot", loads) == Success(ParsedCommand("SystemUnit.Boot", None, false))
  {
    ParseBareName([], "SystemUnit.Boot", [], loads);
    assert [] + "SystemUnit.Boot" + [] == "SystemUnit.Boot";
  }

  /** A name and trimmed arguments joined by one space, as the command line
      is usually written. */
  lemma ParseSpaceSeparated(name: string, args: string, loads: JsonLoader)
    requires name != [] && NoSpace(name) && Trimmed(args)
    ensures ParseCommand(name + " " + args, loads) == Success(ParsedCommand(name, Some(args), loads(args).Failure?))
  {
    ParseNameAndArguments([], name, " ", args, [], loads);
    assert [] + name + " " + args + [] == name + " " + args;
  }

  /** The documented JSON example: the argument text is returned as it was
      written, not decoded, and no warning is raised when it parses. */
  lemma ParseJsonArgumentsExample(name: string, args: string, loads: JsonLoader)
    requires name == "Audio.Volume.Set" && args == "{\"Level\": 50}"
    ensures ParseCommand(name + " " + args, loads) == Success(ParsedCommand(name, Some(args), loads(args).Failure?))
  {
    AsciiNameHasNoSpace(name);
    assert Trimmed(args) by { assert !IsSpace(args[0]) && !IsSpace(args[|args| - 1]); }
    ParseSpaceSeparated(name, args, loads);
  }

  /** A `key:value` argument is passed through as the raw text; there is no
      coercion to `{"Level": 50}`. */
  lemma ParseKeyValueExample(name: string, args: string, loads: JsonLoader)
    requires name == "Audio.Volume.Set" && args == "Level:50"
    ensures ParseCommand(name + " " + args, loads) == Success(ParsedCommand(name, Some(args), loads(args).Failure?))
  {
    AsciiNameHasNoSpace(name);
    assert Trimmed(args) by { assert !IsSpace(args[0]) && !IsSpace(args[|args| - 1]); }
    ParseSpaceSeparated(name, args, loads);
  }

  /** The command name and the arguments do not depend on the JSON check. */
  lemma ArgumentsIgnoreJsonCheck(s: string, loads1: JsonLoader, loads2: JsonLoader)
    ensures ParseCommand(s, loads1).Success? == ParseCommand(s, loads2).Success?
    ensures ParseCommand(s, loads1).Success? ==>
      ParseCommand(s, loads1).value.name == ParseCommand(s, loads2).value.name &&
      ParseCommand(s, loads1).value.arguments == ParseCommand(s, loads2).value.arguments
  {
  }
}
