/**
 * The port resolver of src/index.js (`ensureRdpPort`): find the browser's
 * remote-debugging-port flag among the launch arguments and read its port,
 * or, when there is none, add a flag with a port chosen in [40000, 65000].
 *
 * The JavaScript string operations it relies on are written out:
 * `slice(0, n)`, `split("=")`, `Number(text)` and the decimal rendering of a
 * port inside a template string.
 */
module PortResolver {
  import opened Wrappers

  /** The flag name, 23 characters long; an argument starting with it is a port flag. */
  const PortFlagName: string := "--remote-debugging-port"

  /** The lowest port the resolver picks, and the width of the range above it. */
  const MinPort: nat := 40000
  const PortSpan: nat := 25000

  /** JavaScript's `s.slice(0, n)` for `n >= 0`: the first `n` characters, or all of a shorter string. */
  function SliceFromStart(s: string, n: nat): (r: string)
    ensures |r| <= n && r <= s
    ensures |s| >= n ==> |r| == n
    ensures |s| < n ==> r == s
  {
    if n <= |s| then s[..n] else s
  }

  /**
   * The test inside `args.find`: the first 23 characters are the flag name,
   * which is to say the argument starts with the flag name.
   */
  function HasPortPrefix(arg: string): (b: bool)
    ensures b <==> PortFlagName <= arg
  {
    SliceFromStart(arg, 23) == PortFlagName
  }

  /** `args.find(HasPortPrefix)`, as the index of the first argument that passes the test. */
  function FirstPortFlag(args: seq<string>): (r: Option<nat>)
    ensures r.None? <==> forall k :: 0 <= k < |args| ==> !HasPortPrefix(args[k])
    ensures r.Some? ==> r.value < |args| && HasPortPrefix(args[r.value])
    ensures r.Some? ==> forall k :: 0 <= k < r.value ==> !HasPortPrefix(args[k])
  {
    if args == [] then None
    else if HasPortPrefix(args[0]) then Some(0)
    else match FirstPortFlag(args[1..])
      case None => None
      case Some(i) => Some(i + 1)
  }

  /** The position of the first occurrence of a character in a string. */
  function IndexOf(s: string, c: char): (i: nat)
    requires c in s
    ensures i < |s| && s[i] == c && c !in s[..i]
  {
    if s[0] == c then 0 else 1 + IndexOf(s[1..], c)
  }

  /** The pieces of a string put back together with the separator between them. */
  function Join(parts: seq<string>, sep: char): string
    requires |parts| >= 1
  {
    if |parts| == 1 then parts[0] else parts[0] + [sep] + Join(parts[1..], sep)
  }

  /**
   * JavaScript's `s.split(sep)` for a one-character separator: the pieces
   * between the separators, as many as there are separators plus one.
   */
  function Split(s: string, sep: char): (parts: seq<string>)
    ensures |parts| >= 1
    ensures forall i :: 0 <= i < |parts| ==> sep !in parts[i]
    ensures Join(parts, sep) == s
    decreases |s|
  {
    if sep !in s then [s]
    else
      var i := IndexOf(s, sep);
      var rest := Split(s[i + 1..], sep);
      assert s == s[..i] + [sep] + s[i + 1..];
      [s[..i]] + rest
  }

  /** A string with exactly one separator splits into the text before it and the text after it. */
  lemma SplitOnce(a: string, sep: char, b: string)
    requires sep !in a && sep !in b
    ensures Split(a + [sep] + b, sep) == [a, b]
  {
    var s := a + [sep] + b;
    assert sep in s by { assert s[|a|] == sep; }
    var i := IndexOf(s, sep);
    assert i == |a|;
    assert s[..i] == a && s[i + 1..] == b;
    assert Split(b, sep) == [b];
  }

  predicate IsDigit(c: char)
  {
    '0' <= c <= '9'
  }

  predicate AllDigits(s: string)
  {
    forall i :: 0 <= i < |s| ==> IsDigit(s[i])
  }

  /** The value of a string of decimal digits, read most significant first. */
  function DecimalValue(s: string): nat
    requires AllDigits(s)
  {
    if s == [] then 0 else 10 * DecimalValue(s[..|s| - 1]) + (s[|s| - 1] - '0') as nat
  }

  /** The decimal rendering of a natural number, without leading zeros. */
  function DecimalString(n: nat): (s: string)
    ensures |s| >= 1 && AllDigits(s)
  {
    var d := ['0' + (n % 10) as char];
    if n < 10 then d else DecimalString(n / 10) + d
  }

  /** Reading back the decimal rendering of a number gives the number. */
  lemma {:induction false} DecimalRoundTrip(n: nat)
    ensures DecimalValue(DecimalString(n)) == n
  {
    var s := DecimalString(n);
    assert s[..|s| - 1] == if n < 10 then [] else DecimalString(n / 10);
    if n >= 10 {
      DecimalRoundTrip(n / 10);
    }
  }

  /**
   * The largest integer up to which every integer is a double, 2^53: a run of
   * decimal digits whose value is at most this is read exactly by `Number`.
   */
  const MaxExactInteger: nat := 0x20_0000_0000_0000

  /**
   * What `Number(...)` makes of the text after the `=` of a port flag.
   * `NaNOfUndefined` is `Number(undefined)`, which is NaN: the result when the
   * flag has no `=`, so that `split("=")[1]` is undefined. `Unevaluated`
   * stands for `Number` of any other text that is neither empty
   * nor a run of decimal digits of value at most 2^53 (signs, spaces,
   * hexadecimal, exponents, fractions, other characters, and digit runs that a
   * double rounds), whose value this model does not compute.
   */
  datatype PortNumber = Port(n: nat) | NaNOfUndefined | Unevaluated(text: string)

  /** `Number(text)`: the empty text is 0, a run of decimal digits no larger than 2^53 is its value. */
  function NumberOf(text: string): (r: PortNumber)
    ensures AllDigits(text) && DecimalValue(text) <= MaxExactInteger ==> r == Port(DecimalValue(text))
    ensures !(AllDigits(text) && DecimalValue(text) <= MaxExactInteger) ==> r == Unevaluated(text)
  {
    if AllDigits(text) && DecimalValue(text) <= MaxExactInteger then Port(DecimalValue(text)) else Unevaluated(text)
  }

  /** The text after the first `=` of a string, up to the next `=` or the end. */
  function AfterFirstSeparator(s: string): string
    requires '=' in s
  {
    var rest := s[IndexOf(s, '=') + 1..];
    if '=' in rest then rest[..IndexOf(rest, '=')] else rest
  }

  /** With an `=` in the string, `split("=")[1]` exists and is the text after the first `=`, up to the next. */
  lemma SecondPiece(s: string)
    requires '=' in s
    ensures |Split(s, '=')| >= 2 && Split(s, '=')[1] == AfterFirstSeparator(s)
  {
    var rest := s[IndexOf(s, '=') + 1..];
    assert Split(s, '=') == [s[..IndexOf(s, '=')]] + Split(rest, '=');
  }

  /**
   * `Number(flag.split("=")[1])`: `Number(undefined)` when the flag has no
   * `=`, and otherwise `Number` of the text between its first `=` and the next.
   */
  function ParsePortFlag(flag: string): (r: PortNumber)
    ensures '=' !in flag ==> r == NaNOfUndefined
    ensures '=' in flag ==> r == NumberOf(AfterFirstSeparator(flag))
  {
    var parts := Split(flag, '=');
    if |parts| < 2 then NaNOfUndefined
    else
      SecondPiece(flag);
      NumberOf(parts[1])
  }

  /** A port flag whose value contains no further `=` reads as `Number` of that whole value. */
  lemma FlagValueIsParsed(value: string)
    requires '=' !in value
    ensures ParsePortFlag(PortFlagName + "=" + value) == NumberOf(value)
  {
    assert PortFlagName + "=" + value == PortFlagName + ['='] + value;
    assert '=' !in PortFlagName;
    SplitOnce(PortFlagName, '=', value);
  }

  /** The flag the resolver adds: `--remote-debugging-port=<port>`. */
  function PortFlag(port: nat): (f: string)
    ensures |f| > |PortFlagName| && PortFlagName <= f && f[|PortFlagName|] == '='
    ensures f[|PortFlagName| + 1..] == DecimalString(port)
  {
    PortFlagName + "=" + DecimalString(port)
  }

  /** The flag the resolver adds is recognised as a port flag and reads back as its port. */
  lemma PortFlagRoundTrip(port: nat)
    requires port <= MaxExactInteger
    ensures HasPortPrefix(PortFlag(port))
    ensures ParsePortFlag(PortFlag(port)) == Port(port)
  {
    var digits := DecimalString(port);
    assert PortFlag(port) == PortFlagName + ['='] + digits;
    assert '=' !in PortFlagName;
    SplitOnce(PortFlagName, '=', digits);
    DecimalRoundTrip(port);
  }

  /** An existing `--remote-debugging-port=9222` flag reads as port 9222. */
  lemma ExistingFlagReadsPort()
    ensures ParsePortFlag("--remote-debugging-port=9222") == Port(9222)
  {
    assert DecimalString(9) == "9";
    assert DecimalString(92) == "92";
    assert DecimalString(922) == "922";
    assert DecimalString(9222) == "9222";
    assert PortFlag(9222) == "--remote-debugging-port=9222";
    PortFlagRoundTrip(9222);
  }

  /** A bare `--remote-debugging-port` flag, with no `=`, reads as `Number(undefined)` (NaN) rather than failing. */
  lemma FlagWithoutValueIsNaN()
    ensures ParsePortFlag(PortFlagName) == NaNOfUndefined
  {
    assert '=' !in PortFlagName;
  }

  /**
   * Once the resolver has added its flag to arguments that had none, the
   * first port flag is the added one and it reads back as the chosen port:
   * resolving the same arguments again returns that port and adds nothing.
   */
  lemma AddedFlagIsFound(args: seq<string>, port: nat)
    requires FirstPortFlag(args).None? && port <= MaxExactInteger
    ensures FirstPortFlag(args + [PortFlag(port)]) == Some(|args|)
    ensures ParsePortFlag((args + [PortFlag(port)])[|args|]) == Port(port)
  {
    var args' := args + [PortFlag(port)];
    PortFlagRoundTrip(port);
    assert args'[|args|] == PortFlag(port);
    var r := FirstPortFlag(args');
    assert r.Some?;
    assert r.value == |args|;
  }

  /** The launch argument list, which the resolver may grow in place. */
  class LaunchArgs {
    var args: seq<string>

    constructor (args: seq<string>)
      ensures this.args == args
    {
      this.args := args;
    }
  }

  /**
   * `ensureRdpPort(args)`. With a port flag present, the port of the first one
   * is returned and the arguments are left alone. Otherwise the port
   * `40000 + offset` is returned and exactly one flag carrying it is appended;
   * `offset` stands for `Math.round(Math.random() * 25000)`.
   */
  method EnsureRdpPort(launch: LaunchArgs, offset: nat) returns (port: PortNumber)
    requires offset <= PortSpan
    modifies launch
    ensures match FirstPortFlag(old(launch.args))
      case Some(i) => launch.args == old(launch.args) && port == ParsePortFlag(old(launch.args)[i])
      case None => launch.args == old(launch.args) + [PortFlag(MinPort + offset)] && port == Port(MinPort + offset)
    ensures FirstPortFlag(old(launch.args)).None? ==> port.Port? && 40000 <= port.n <= 65000
  {
    var existing := FirstPortFlag(launch.args);
    if existing.Some? {
      port := ParsePortFlag(launch.args[existing.value]);
      return;
    }
    var chosen := MinPort + offset;
    launch.args := launch.args + [PortFlag(chosen)];
    port := Port(chosen);
  }
}
