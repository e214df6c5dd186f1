/** Positional-argument handling of the command-line entry point: the
    usage check, the defaults of the optional arguments, the comma-split
    format list with whitespace stripped, the digit-only page limit and the
    case-insensitive content-filter flag. */
module CommandLine {
  import opened Wrappers

  const UsageMessage := "Usage: firecrawl.py <action> <url_or_query> [formats] [limit] [only_main_content] [prompt] [schema]"
  const DefaultFormats := "markdown"
  /** The format list of the default argument, already split and stripped:
      `DefaultFormatList` proves it equal to `Formats(DefaultFormats)`. */
  const DefaultFormatsParsed: seq<string> := ["markdown"]
  const DefaultLimit: nat := 10

  /** The parsed positional arguments. */
  datatype Invocation = Invocation(
    action: string,
    target: string,
    formats: seq<string>,
    limit: nat,
    onlyMainContent: bool,
    prompt: string,
    schema: string)

  // ---------------------------------------------------------------------
  // str.split(sep) and str.strip()
  // ---------------------------------------------------------------------

  /** `s.split(sep)` for a one-character separator: always at least one
      piece, and the empty string gives `[""]`. */
  function Split(s: string, sep: char): (parts: seq<string>)
    ensures |parts| >= 1
    decreases |s|
  {
    if s == [] then [""]
    else
      var rest := Split(s[1..], sep);
      if s[0] == sep then [""] + rest
      else [[s[0]] + rest[0]] + rest[1..]
  }

  /** `sep.join(parts)`, the inverse of `Split`. */
  function Join(parts: seq<string>, sep: char): string
    decreases |parts|
  {
    if parts == [] then ""
    else if |parts| == 1 then parts[0]
    else parts[0] + [sep] + Join(parts[1..], sep)
  }

  lemma {:induction false} SplitThenJoin(s: string, sep: char)
    ensures Join(Split(s, sep), sep) == s
    decreases |s|
  {
    if s != [] {
      var rest := Split(s[1..], sep);
      if s[0] == sep {
        calc {
          Join(Split(s, sep), sep);
          { assert ([""] + rest)[1..] == rest; }
          "" + [sep] + Join(rest, sep);
          { SplitThenJoin(s[1..], sep); }
          [s[0]] + s[1..];
        }
      } else {
        calc {
          Join(Split(s, sep), sep);
          Join([[s[0]] + rest[0]] + rest[1..], sep);
          { JoinExtendsFirst(s[0], rest, sep); }
          [s[0]] + Join(rest, sep);
          { SplitThenJoin(s[1..], sep); }
          [s[0]] + s[1..];
        }
      }
      assert [s[0]] + s[1..] == s;
    }
  }

  /** Prepending a character to the first piece prepends it to the join. */
  lemma JoinExtendsFirst(c: char, parts: seq<string>, sep: char)
    requires |parts| >= 1
    ensures Join([[c] + parts[0]] + parts[1..], sep) == [c] + Join(parts, sep)
  {
    var ext := [[c] + parts[0]] + parts[1..];
    assert ext[0] == [c] + parts[0];
    if |parts| > 1 {
      assert ext[1..] == parts[1..];
    }
  }

  lemma {:induction false} SplitPiecesHaveNoSeparator(s: string, sep: char)
    ensures forall k :: 0 <= k < |Split(s, sep)| ==> sep !in Split(s, sep)[k]
    decreases |s|
  {
    if s != [] {
      SplitPiecesHaveNoSeparator(s[1..], sep);
    }
  }

  /** Without a separator there is one piece, the whole string. */
  lemma {:induction false} SplitWithoutSeparator(s: string, sep: char)
    requires sep !in s
    ensures Split(s, sep) == [s]
    decreases |s|
  {
    if s != [] {
      assert sep !in s[1..] by {
        forall c | c in s[1..] ensures c != sep { }
      }
      SplitWithoutSeparator(s[1..], sep);
      assert [s[0]] + s[1..] == s;
    }
  }

  /** Python's `str.isspace` on one character (the full Unicode set). */
  predicate IsSpace(c: char) {
    || c == ' ' || '\t' <= c <= '\r' || '\U{1C}' <= c <= '\U{1F}'
    || c == '\U{85}' || c == '\U{A0}' || c == '\U{1680}'
    || '\U{2000}' <= c <= '\U{200A}' || c == '\U{2028}' || c == '\U{2029}'
    || c == '\U{202F}' || c == '\U{205F}' || c == '\U{3000}'
  }

  function LStrip(s: string): string
    decreases |s|
  {
    if s != [] && IsSpace(s[0]) then LStrip(s[1..]) else s
  }

  function RStrip(s: string): string
    decreases |s|
  {
    if s != [] && IsSpace(s[|s| - 1]) then RStrip(s[..|s| - 1]) else s
  }

  /** `s.strip()`. */
  function Strip(s: string): string {
    RStrip(LStrip(s))
  }

  lemma {:induction false} LStripSlice(s: string) returns (i: nat)
    ensures i <= |s| && LStrip(s) == s[i..]
    ensures forall k :: 0 <= k < i ==> IsSpace(s[k])
    ensures i < |s| ==> !IsSpace(s[i])
    decreases |s|
  {
    if s != [] && IsSpace(s[0]) {
      var i' := LStripSlice(s[1..]);
      i := i' + 1;
      assert s[1..][i'..] == s[i..];
      forall k | 0 <= k < i ensures IsSpace(s[k]) {
        if k > 0 { assert s[k] == s[1..][k - 1]; }
      }
    } else {
      i := 0;
    }
  }

  lemma {:induction false} RStripSlice(s: string) returns (j: nat)
    ensures j <= |s| && RStrip(s) == s[..j]
    ensures forall k :: j <= k < |s| ==> IsSpace(s[k])
    ensures j > 0 ==> !IsSpace(s[j - 1])
    decreases |s|
  {
    if s != [] && IsSpace(s[|s| - 1]) {
      var init := s[..|s| - 1];
      j := RStripSlice(init);
      assert init[..j] == s[..j];
      forall k | j <= k < |s| ensures IsSpace(s[k]) {
        if k < |s| - 1 { assert s[k] == init[k]; }
      }
    } else {
      j := |s|;
    }
  }

  /** `s.strip()` is the slice of `s` left once the leading and trailing
      whitespace is removed: everything cut off is whitespace, and the
      result neither starts nor ends with whitespace. */
  lemma StripSlice(s: string) returns (i: nat, j: nat)
    ensures i <= j <= |s| && Strip(s) == s[i..j]
    ensures forall k :: 0 <= k < i ==> IsSpace(s[k])
    ensures forall k :: j <= k < |s| ==> IsSpace(s[k])
    ensures Strip(s) != [] ==> !IsSpace(Strip(s)[0]) && !IsSpace(Strip(s)[|Strip(s)| - 1])
  {
    i := LStripSlice(s);
    var t := s[i..];
    var j' := RStripSlice(t);
    j := i + j';
    assert t[..j'] == s[i..j];
    forall k | j <= k < |s| ensures IsSpace(s[k]) {
      assert s[k] == t[k - i];
    }
    if Strip(s) != [] {
      assert Strip(s)[0] == s[i];
    }
  }

  /** The list comprehension `[f.strip() for f in formats_str.split(",")]`. */
  function Formats(formatsArg: string): (fs: seq<string>)
    ensures |fs| == |Split(formatsArg, ',')|
    ensures forall k :: 0 <= k < |fs| ==> fs[k] == Strip(Split(formatsArg, ',')[k])
  {
    var parts := Split(formatsArg, ',');
    seq(|parts|, k requires 0 <= k < |parts| => Strip(parts[k]))
  }

  /** The default format argument gives the one-element list `["markdown"]`. */
  lemma DefaultFormatList()
    ensures Formats(DefaultFormats) == DefaultFormatsParsed
  {
    SplitWithoutSeparator(DefaultFormats, ',');
    assert LStrip("markdown") == "markdown";
    assert RStrip("markdown") == "markdown";
  }

  // ---------------------------------------------------------------------
  // str.isdigit() and int()
  // ---------------------------------------------------------------------

  predicate IsDigit(c: char) {
    '0' <= c <= '9'
  }

  /** `s.isdigit()`: non-empty and digits only. */
  predicate IsDigits(s: string) {
    s != [] && forall k :: 0 <= k < |s| ==> IsDigit(s[k])
  }

  /** `int(s)` of a digit string. */
  function DecimalValue(s: string): nat
    requires forall k :: 0 <= k < |s| ==> IsDigit(s[k])
    decreases |s|
  {
    if s == [] then 0
    else
      var last := s[|s| - 1];
      assert IsDigit(last);
      DecimalValue(s[..|s| - 1]) * 10 + (last as int - '0' as int)
  }

  /** `str(n)`: the canonical decimal rendering of a natural number. */
  function DecimalString(n: nat): string
    decreases n
  {
    var last := [('0' as int + n % 10) as char];
    if n < 10 then last else DecimalString(n / 10) + last
  }

  lemma {:induction false} DecimalRoundTrip(n: nat)
    ensures IsDigits(DecimalString(n))
    ensures DecimalValue(DecimalString(n)) == n
    decreases n
  {
    var last := [('0' as int + n % 10) as char];
    if n >= 10 {
      DecimalRoundTrip(n / 10);
      var s := DecimalString(n / 10) + last;
      assert s[..|s| - 1] == DecimalString(n / 10);
    }
  }

  /** Leading zeros do not change the value: `int("007") == 7`. */
  lemma {:induction false} LeadingZero(s: string)
    requires forall k :: 0 <= k < |s| ==> IsDigit(s[k])
    ensures DecimalValue("0" + s) == DecimalValue(s)
    decreases |s|
  {
    if s != [] {
      var init := s[..|s| - 1];
      LeadingZero(init);
      assert ("0" + s)[..|s|] == "0" + init;
    }
  }

  // ---------------------------------------------------------------------
  // str.lower() == "true"
  // ---------------------------------------------------------------------

  function LowerChar(c: char): char {
    if 'A' <= c <= 'Z' then (c as int - 'A' as int + 'a' as int) as char else c
  }

  function Lower(s: string): string {
    seq(|s|, k requires 0 <= k < |s| => LowerChar(s[k]))
  }

  /** `arg.lower() == "true"`. */
  predicate FlagValue(arg: string) {
    Lower(arg) == "true"
  }

  /** The flag is set by exactly the sixteen spellings of "true" in any
      mixture of cases. */
  lemma FlagValueCases(arg: string)
    ensures FlagValue(arg) <==>
      |arg| == 4 && arg[0] in "tT" && arg[1] in "rR" && arg[2] in "uU" && arg[3] in "eE"
  {
    if |arg| == 4 {
      assert Lower(arg)[0] == LowerChar(arg[0]);
      assert Lower(arg)[1] == LowerChar(arg[1]);
      assert Lower(arg)[2] == LowerChar(arg[2]);
      assert Lower(arg)[3] == LowerChar(arg[3]);
    }
  }

  // ---------------------------------------------------------------------
  // argv
  // ---------------------------------------------------------------------

  /** `sys.argv` (with the script name at index 0) to the parsed arguments,
      or the usage message when the action or the target is missing. The
      default format argument is not split here again: its list is
      `DefaultFormatsParsed`, which `DefaultFormatList` proves is what
      splitting and stripping `"markdown"` gives. */
  function ParseInvocation(argv: seq<string>): (r: Result<Invocation, string>)
    ensures r.Err? <==> |argv| < 3
    ensures r.Err? ==> r.error == UsageMessage
    ensures r.Ok? ==> r.value.action == argv[1] && r.value.target == argv[2]
    ensures r.Ok? && |argv| > 3 ==> r.value.formats == Formats(argv[3])
    ensures r.Ok? && |argv| <= 3 ==> r.value.formats == ["markdown"]
    ensures r.Ok? && |argv| > 4 && IsDigits(argv[4]) ==> r.value.limit == DecimalValue(argv[4])
    ensures r.Ok? && !(|argv| > 4 && IsDigits(argv[4])) ==> r.value.limit == DefaultLimit
    ensures r.Ok? ==> r.value.onlyMainContent == (if |argv| > 5 then FlagValue(argv[5]) else true)
    ensures r.Ok? ==> r.value.prompt == (if |argv| > 6 then argv[6] else "")
    ensures r.Ok? ==> r.value.schema == (if |argv| > 7 then argv[7] else "")
  {
    if |argv| < 3 then Err(UsageMessage)
    else
      Ok(Invocation(
        action := argv[1],
        target := argv[2],
        formats := if |argv| > 3 then Formats(argv[3]) else DefaultFormatsParsed,
        limit := if |argv| > 4 && IsDigits(argv[4]) then DecimalValue(argv[4]) else DefaultLimit,
        onlyMainContent := if |argv| > 5 then FlagValue(argv[5]) else true,
        prompt := if |argv| > 6 then argv[6] else "",
        schema := if |argv| > 7 then argv[7] else ""))
  }

  /** With only an action and a target, every optional argument takes its
      default. */
  lemma OmittedArgumentsDefault(argv: seq<string>)
    requires |argv| == 3
    ensures ParseInvocation(argv).Ok?
    ensures ParseInvocation(argv).value.formats == ["markdown"]
    ensures ParseInvocation(argv).value.limit == 10
    ensures ParseInvocation(argv).value.onlyMainContent
    ensures ParseInvocation(argv).value.prompt == "" && ParseInvocation(argv).value.schema == ""
  {
  }

  /** A limit written in decimal is read back as that number; anything that
      is not all digits (a sign, a blank, an empty string) gives 10. */
  lemma LimitArgument(argv: seq<string>, n: nat)
    requires |argv| > 4
    ensures argv[4] == DecimalString(n) ==> ParseInvocation(argv).value.limit == n
    ensures !IsDigits(argv[4]) ==> ParseInvocation(argv).value.limit == DefaultLimit
  {
    DecimalRoundTrip(n);
  }

  /** The format list has one entry per comma-separated piece of the
      argument, each the stripped piece, and re-joining the unstripped
      pieces gives back the argument. */
  lemma FormatsArgument(argv: seq<string>)
    requires |argv| > 3
    ensures var fs := ParseInvocation(argv).value.formats;
      && |fs| == |Split(argv[3], ',')|
      && (forall k :: 0 <= k < |fs| ==> fs[k] == Strip(Split(argv[3], ',')[k]) && ',' !in fs[k])
      && Join(Split(argv[3], ','), ',') == argv[3]
  {
    SplitThenJoin(argv[3], ',');
    SplitPiecesHaveNoSeparator(argv[3], ',');
    var parts := Split(argv[3], ',');
    forall k | 0 <= k < |parts| ensures ',' !in Strip(parts[k]) {
      var i, j := StripSlice(parts[k]);
    }
  }
}
