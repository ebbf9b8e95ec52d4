/** The parts of the Python runtime that the lead-generation pipeline leans on:
    dynamically typed values, truthiness, `dict.get`, `or`, `str()`, `str.strip`,
    `str.splitlines`, `str.join`, `str.isdigit`/`int()`, slicing and `list(set(...))`.
    Every component module imports this one. */
module Python {

  datatype Option<T> = None | Some(value: T)

  /** A JSON-compatible Python value (floats are not modelled). */
  datatype Value =
    | Null                               // None
    | Bool(b: bool)
    | Int(i: int)
    | Str(s: string)
    | List(items: seq<Value>)
    | Dict(fields: map<string, Value>)

  /** A Python dict with string keys, as the components pass records around. */
  type Record = map<string, Value>

  /** The exception classes that can leave a component. */
  datatype Exception =
    | RuntimeError       // raised explicitly, e.g. for a missing API key
    | RequestException   // transport failure or a non-2xx status from `requests`
    | JSONDecodeError    // a response body that is not JSON
    | AttributeError     // `.get` or `.strip` on a value that does not have it
    | TypeError          // iterating over a value that is not iterable
    | APIError           // the language-model service failed

  /** What a call yields: its return value, or the exception it raised. */
  datatype Outcome<T> = Returned(value: T) | Raised(error: Exception)

  /** What `json.loads` makes of a text: an object, some other JSON value, or a decode error. */
  datatype Json = Object(fields: map<string, Value>) | NonObject | DecodeError

  /** What the language-model client yields: the reply's `message.content` (which the
      client types as optional), or a failure of the service call. */
  datatype Completion = Reply(content: Option<string>) | ServiceFailure

  // ---------------------------------------------------------------- values

  /** Python truthiness (`bool(v)`). */
  predicate Truthy(v: Value) {
    match v
    case Null => false
    case Bool(b) => b
    case Int(i) => i != 0
    case Str(s) => s != ""
    case List(items) => items != []
    case Dict(fields) => fields != map[]
  }

  /** The falsy values are exactly None, False, 0 and the empty string, list and dict. */
  lemma FalsyValues(v: Value)
    ensures !Truthy(v) <==> v in {Null, Bool(false), Int(0), Str(""), List([]), Dict(map[])}
  {
  }

  /** `d.get(key, default)`. */
  function Get(d: Record, key: string, default: Value): (v: Value)
    ensures key in d ==> v == d[key]
    ensures key !in d ==> v == default
  {
    if key in d then d[key] else default
  }

  /** Python's `a or b`: the first operand when it is truthy, otherwise the second. */
  function Or(a: Value, b: Value): (r: Value)
    ensures Truthy(a) ==> r == a
    ensures !Truthy(a) ==> r == b
    ensures Truthy(r) <==> Truthy(a) || Truthy(b)
  {
    if Truthy(a) then a else b
  }

  /** `str(v)` when `quoted` is false, `repr(v)` when it is true. Strings are quoted
      with single quotes and no escaping; a non-empty dict is shown as `{...}`. */
  function Render(v: Value, quoted: bool): (r: string)
    ensures r == "" <==> v == Str("") && !quoted
    decreases v
  {
    match v
    case Null => "None"
    case Bool(b) => if b then "True" else "False"
    case Int(i) => IntString(i)
    case Str(s) => if quoted then "'" + s + "'" else s
    case List(items) =>
      "[" + Join(", ", seq(|items|, k requires 0 <= k < |items| => Render(items[k], true))) + "]"
    case Dict(fields) => if fields == map[] then "{}" else "{...}"
  }

  /** `str(v)`, as an f-string placeholder formats it. */
  function PyStr(v: Value): (r: string)
    ensures v.Str? ==> r == v.s
    ensures r == "" <==> v == Str("")
  {
    Render(v, false)
  }

  /** `repr(v)`. */
  function Repr(v: Value): string {
    Render(v, true)
  }

  // ---------------------------------------------------------------- strings

  /** The characters for which Python's `str.isspace()` holds. */
  const Whitespace: set<char> := {
    ' ', '\t', '\n', '\U{0B}', '\U{0C}', '\r', '\U{1C}', '\U{1D}', '\U{1E}', '\U{1F}',
    '\U{85}', '\U{A0}', '\U{1680}',
    '\U{2000}', '\U{2001}', '\U{2002}', '\U{2003}', '\U{2004}', '\U{2005}',
    '\U{2006}', '\U{2007}', '\U{2008}', '\U{2009}', '\U{200A}',
    '\U{2028}', '\U{2029}', '\U{202F}', '\U{205F}', '\U{3000}'
  }

  /** How many of the leading characters of `s` are in `chars`. */
  function LeadingIn(s: string, chars: set<char>): (n: nat)
    ensures n <= |s|
    ensures forall k :: 0 <= k < n ==> s[k] in chars
    ensures n < |s| ==> s[n] !in chars
  {
    if s != [] && s[0] in chars then 1 + LeadingIn(s[1..], chars) else 0
  }

  /** How many of the trailing characters of `s` are in `chars`. */
  function TrailingIn(s: string, chars: set<char>): (n: nat)
    ensures n <= |s|
    ensures forall k :: |s| - n <= k < |s| ==> s[k] in chars
    ensures n < |s| ==> s[|s| - n - 1] !in chars
  {
    if s != [] && s[|s| - 1] in chars then 1 + TrailingIn(s[..|s| - 1], chars) else 0
  }

  /** Removes the leading characters that are in `chars`. */
  function TrimStart(s: string, chars: set<char>): (r: string)
    ensures |r| <= |s| && r == s[|s| - |r|..]
    ensures r != [] ==> r[0] !in chars
    ensures forall k :: 0 <= k < |s| - |r| ==> s[k] in chars
  {
    s[LeadingIn(s, chars)..]
  }

  /** Removes the trailing characters that are in `chars`. */
  function TrimEnd(s: string, chars: set<char>): (r: string)
    ensures |r| <= |s| && r == s[..|r|]
    ensures r != [] ==> r[|r| - 1] !in chars
    ensures forall k :: |r| <= k < |s| ==> s[k] in chars
  {
    s[..|s| - TrailingIn(s, chars)]
  }

  /** `s.strip(chars)`; `s.strip()` is `Strip(s, Whitespace)`. */
  function Strip(s: string, chars: set<char>): (r: string)
    ensures r != [] ==> r[0] !in chars && r[|r| - 1] !in chars
    ensures r == [] <==> forall k :: 0 <= k < |s| ==> s[k] in chars
  {
    var t := TrimStart(s, chars);
    var r := TrimEnd(t, chars);
    assert r != [] ==> r[0] == t[0];
    r
  }

  /** `s.strip(chars)` is the slice `s[i..j]` left after removing the leading and trailing
      characters in `chars`: everything before `i` and from `j` on is in `chars`. */
  lemma StripIsSlice(s: string, chars: set<char>) returns (i: nat, j: nat)
    ensures i <= j <= |s|
    ensures Strip(s, chars) == s[i..j]
    ensures forall k :: 0 <= k < i ==> s[k] in chars
    ensures forall k :: j <= k < |s| ==> s[k] in chars
  {
    StripTrims(s, chars);
    i, j := TrimsSlice(s, chars);
  }

  /** Trimming the start and then the end leaves a slice. */
  lemma TrimsSlice(s: string, chars: set<char>) returns (i: nat, j: nat)
    ensures i <= j <= |s|
    ensures TrimEnd(TrimStart(s, chars), chars) == s[i..j]
    ensures forall k :: 0 <= k < i ==> s[k] in chars
    ensures forall k :: j <= k < |s| ==> s[k] in chars
  {
    var t := TrimStart(s, chars);
    var r := TrimEnd(t, chars);
    var n := |s| - |t|;
    assert t == s[n..];
    assert r == t[..|r|];
    SliceOfSuffix(s, t, r, n, chars);
    i, j := n, n + |r|;
  }

  /** `Strip` trims the start, then the end. */
  lemma StripTrims(s: string, chars: set<char>)
    ensures Strip(s, chars) == TrimEnd(TrimStart(s, chars), chars)
  {
  }

  /** A prefix `r` of the suffix `t == s[i..]` is the slice `s[i..i + |r|]`, and what follows
      it in `t` follows it in `s`. */
  lemma SliceOfSuffix(s: string, t: string, r: string, i: nat, chars: set<char>)
    requires i <= |s| && t == s[i..]
    requires |r| <= |t| && r == t[..|r|]
    requires forall k :: |r| <= k < |t| ==> t[k] in chars
    ensures r == s[i..i + |r|]
    ensures forall k :: i + |r| <= k < |s| ==> s[k] in chars
  {
    forall k | i + |r| <= k < |s| ensures s[k] in chars {
      assert s[k] == t[k - i];
    }
  }

  /** Stripping takes a slice, so it adds no line break. */
  lemma StripNoLineBreak(s: string, chars: set<char>)
    ensures NoLineBreak(s) ==> NoLineBreak(Strip(s, chars))
  {
    var t := TrimStart(s, chars);
    var r := TrimEnd(t, chars);
    if NoLineBreak(s) {
      forall j | 0 <= j < |r| ensures !IsLineBreak(r[j]) {
        assert r[j] == t[j] == s[|s| - |t| + j];
      }
    }
  }

  /** `resp.choices[0].message.content.strip()`: the text of a language-model reply, or the exception reading it raises. */
  function ReplyText(reply: Completion): (r: Outcome<string>)
    ensures r.Returned? <==> reply.Reply? && reply.content.Some?
    ensures r.Returned? ==> r.value == Strip(reply.content.value, Whitespace)
    ensures r.Raised? ==> r.error == (if reply.ServiceFailure? then APIError else AttributeError)
  {
    match reply
    case ServiceFailure => Raised(APIError)
    case Reply(None) => Raised(AttributeError)
    case Reply(Some(text)) => Returned(Strip(text, Whitespace))
  }

  /** The characters at which Python's `str.splitlines()` breaks a line. */
  predicate IsLineBreak(c: char) {
    || '\n' <= c <= '\r' || '\U{1C}' <= c <= '\U{1E}'
    || c == '\U{85}' || c == '\U{2028}' || c == '\U{2029}'
  }

  predicate NoLineBreak(line: string) {
    forall j :: 0 <= j < |line| ==> !IsLineBreak(line[j])
  }

  /** The index of the first line break in `s`, or `|s|` when there is none. */
  function LineEnd(s: string): (n: nat)
    ensures n <= |s|
    ensures NoLineBreak(s[..n])
    ensures n < |s| ==> IsLineBreak(s[n])
  {
    if s == [] || IsLineBreak(s[0]) then 0
    else
      var n := 1 + LineEnd(s[1..]);
      assert s[..n] == [s[0]] + s[1..][..n - 1];
      n
  }

  /** `s.splitlines()`: the lines of `s` without their line breaks, `\r\n` counting as one
      break and a final break not starting an empty last line. */
  function SplitLines(s: string): (lines: seq<string>)
    ensures forall k :: 0 <= k < |lines| ==> NoLineBreak(lines[k])
    ensures s != [] <==> lines != []
    decreases |s|
  {
    if s == [] then []
    else
      var n := LineEnd(s);
      if n == |s| then [s]
      else
        var width := if n + 1 < |s| && s[n] == '\r' && s[n + 1] == '\n' then 2 else 1;
        [s[..n]] + SplitLines(s[n + width..])
  }

  /** `sep.join(parts)`. */
  function Join(sep: string, parts: seq<string>): string {
    if parts == [] then ""
    else if |parts| == 1 then parts[0]
    else parts[0] + sep + Join(sep, parts[1..])
  }

  /** The total length of `parts`. */
  function TotalLength(parts: seq<string>): nat {
    if parts == [] then 0 else |parts[0]| + TotalLength(parts[1..])
  }

  /** The length of a join is the parts' total length plus one separator per gap. */
  lemma {:induction false} JoinLength(sep: string, parts: seq<string>)
    requires parts != []
    ensures |Join(sep, parts)| == TotalLength(parts) + (|parts| - 1) * |sep|
  {
    if |parts| > 1 {
      JoinLength(sep, parts[1..]);
      assert (|parts| - 1) * |sep| == (|parts[1..]| - 1) * |sep| + |sep|;
    }
  }

  /** A join splits at every gap: the parts up to `k`, one separator, and the parts after. */
  lemma {:induction false} JoinAt(sep: string, parts: seq<string>, k: nat)
    requires k < |parts| - 1
    ensures Join(sep, parts) == Join(sep, parts[..k + 1]) + sep + Join(sep, parts[k + 1..])
  {
    if k > 0 {
      var rest := parts[1..];
      JoinAt(sep, rest, k - 1);
      assert rest[..k] == parts[1..k + 1] && rest[k..] == parts[k + 1..];
      var init := parts[..k + 1];
      assert init[0] == parts[0] && init[1..] == parts[1..k + 1];
    } else {
      assert parts[..1] == [parts[0]] && parts[1..] == parts[k + 1..];
    }
  }

  /** Joining a first part to a non-empty rest puts one separator between them. */
  lemma JoinCons(sep: string, first: string, rest: seq<string>)
    requires rest != []
    ensures Join(sep, [first] + rest) == first + sep + Join(sep, rest)
  {
    assert ([first] + rest)[0] == first && ([first] + rest)[1..] == rest;
  }

  /** A text whose first line ends at a `\n` splits into that line and the lines after it. */
  lemma SplitLinesAtNewline(s: string)
    requires LineEnd(s) < |s| && s[LineEnd(s)] == '\n'
    ensures SplitLines(s) == [s[..LineEnd(s)]] + SplitLines(s[LineEnd(s) + 1..])
  {
  }

  /** Only `\n` breaks lines in `s`. */
  predicate OnlyNewlineBreaks(s: string) {
    forall k :: 0 <= k < |s| && IsLineBreak(s[k]) ==> s[k] == '\n'
  }

  /** A suffix of a text that breaks lines only with `\n` does so too. */
  lemma OnlyNewlineBreaksSuffix(s: string, m: nat)
    requires OnlyNewlineBreaks(s) && m <= |s|
    ensures OnlyNewlineBreaks(s[m..])
  {
    forall k | 0 <= k < |s| - m && IsLineBreak(s[m..][k]) ensures s[m..][k] == '\n' {
      assert s[m..][k] == s[m + k];
    }
  }

  /** A text is its part before `n`, the character at `n`, and its part after `n`. */
  lemma SplitAround(s: string, n: nat)
    requires n < |s|
    ensures s == s[..n] + [s[n]] + s[n + 1..]
  {
  }

  /** Joining the lines of a text that breaks lines only with `\n`, and does not end with
      one, gives the text back. */
  lemma {:induction false} JoinSplitLines(s: string)
    requires OnlyNewlineBreaks(s)
    requires s == [] || s[|s| - 1] != '\n'
    ensures Join("\n", SplitLines(s)) == s
    decreases |s|
  {
    if s != [] {
      var n := LineEnd(s);
      if n < |s| {
        var rest := s[n + 1..];
        assert s[n] == '\n';
        assert rest != [] && rest[|rest| - 1] == s[|s| - 1];
        OnlyNewlineBreaksSuffix(s, n + 1);
        SplitLinesAtNewline(s);
        JoinSplitLines(rest);
        JoinCons("\n", s[..n], SplitLines(rest));
        SplitAround(s, n);
      }
    }
  }

  /** `s[:n]`. */
  function Take<T>(s: seq<T>, n: nat): (r: seq<T>)
    ensures |r| == if |s| < n then |s| else n
    ensures r == s[..|r|]
  {
    if |s| <= n then s else s[..n]
  }

  // ---------------------------------------------------------------- numbers

  /** `s.isdigit()`, restricted to the ASCII digits. */
  predicate IsAsciiDigits(s: string) {
    |s| > 0 && forall k :: 0 <= k < |s| ==> '0' <= s[k] <= '9'
  }

  /** `int(s)` for a string of digits (leading zeros allowed). */
  function ParseDecimal(s: string): nat
    requires forall k :: 0 <= k < |s| ==> '0' <= s[k] <= '9'
  {
    if s == [] then 0
    else ParseDecimal(s[..|s| - 1]) * 10 + (s[|s| - 1] as int - '0' as int)
  }

  /** `int("0" + s) == int(s)`: leading zeros do not change the value. */
  lemma {:induction false} ParseDecimalLeadingZero(s: string)
    requires forall k :: 0 <= k < |s| ==> '0' <= s[k] <= '9'
    ensures ParseDecimal("0" + s) == ParseDecimal(s)
  {
    if s != [] {
      var init := s[..|s| - 1];
      assert ("0" + s)[..|"0" + s| - 1] == "0" + init;
      ParseDecimalLeadingZero(init);
    }
  }

  /** `isdigit()` rejects the empty string and a sign, so `int()` is only applied to
      non-negative numbers. */
  lemma IsAsciiDigitsRejectsSigns(s: string)
    ensures !IsAsciiDigits("")
    ensures !IsAsciiDigits("-" + s) && !IsAsciiDigits("+" + s)
  {
    assert ("-" + s)[0] == '-' && ("+" + s)[0] == '+';
  }

  /** `str(n)` for a natural number, in decimal without leading zeros. */
  function DecimalString(n: nat): (s: string)
    ensures IsAsciiDigits(s)
    ensures s[0] == '0' ==> n == 0
  {
    var digit := ('0' as int + n % 10) as char;
    if n < 10 then [digit] else DecimalString(n / 10) + [digit]
  }

  /** `int(str(n)) == n`: reading back a rendered count gives the count. */
  lemma {:induction false} ParseDecimalString(n: nat)
    ensures ParseDecimal(DecimalString(n)) == n
  {
    var s := DecimalString(n);
    if n >= 10 {
      ParseDecimalString(n / 10);
      assert s[..|s| - 1] == DecimalString(n / 10);
    }
  }

  /** `str(i)` for an integer. */
  function IntString(i: int): string {
    if i < 0 then "-" + DecimalString(-i) else DecimalString(i)
  }

  // ---------------------------------------------------------------- collections

  predicate NoDuplicates(s: seq<string>) {
    forall i, j :: 0 <= i < j < |s| ==> s[i] != s[j]
  }

  /** `list(set(s))`: each element of `s` once. Python leaves the order unspecified. */
  function Distinct(s: seq<string>): (r: seq<string>)
    ensures NoDuplicates(r)
    ensures forall x :: x in r <==> x in s
  {
    if s == [] then []
    else
      var rest := Distinct(s[1..]);
      if s[0] in rest then rest else [s[0]] + rest
  }
}
