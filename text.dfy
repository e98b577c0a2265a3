/** Text helpers the chart builder relies on: decimal rendering of an `int`
    (`fmt.Sprintf("%v", i)` for the "category i" and "slice i" labels) and
    `strings.Join`, each with the inverse that shows it loses nothing. */
module Text {
  import opened Grouping

  /** The ASCII digit for 0 <= d < 10. */
  function Digit(d: nat): char
    requires d < 10
  {
    (48 + d) as char
  }

  /** Decimal rendering of a non-negative integer, without leading zeros. */
  function NatToDecimal(n: nat): (s: string)
    ensures 1 <= |s|
    ensures forall k :: 0 <= k < |s| ==> '0' <= s[k] <= '9'
  {
    if n < 10 then [Digit(n)] else NatToDecimal(n / 10) + [Digit(n % 10)]
  }

  /** The value of a string of decimal digits (the inverse of NatToDecimal). */
  function DecimalValue(s: string): nat
    requires forall k :: 0 <= k < |s| ==> '0' <= s[k] <= '9'
  {
    if s == [] then 0
    else 10 * DecimalValue(s[..|s| - 1]) + (s[|s| - 1] as int - 48)
  }

  lemma {:induction false} DecimalRoundTrip(n: nat)
    ensures DecimalValue(NatToDecimal(n)) == n
  {
    var s := NatToDecimal(n);
    if n >= 10 {
      DecimalRoundTrip(n / 10);
      assert s[..|s| - 1] == NatToDecimal(n / 10);
    }
  }

  /** Distinct numbers render to distinct strings, so "category i" labels never collide. */
  lemma DecimalInjective(a: nat, b: nat)
    ensures NatToDecimal(a) == NatToDecimal(b) ==> a == b
  {
    DecimalRoundTrip(a);
    DecimalRoundTrip(b);
  }

  /** `strings.Join`: the parts separated by sep. */
  function Join(parts: seq<string>, sep: string): string
  {
    if |parts| == 0 then ""
    else if |parts| == 1 then parts[0]
    else parts[0] + sep + Join(parts[1..], sep)
  }

  /** `strings.Split` on a one-character separator (the inverse of Join). */
  function Split(s: string, c: char): (parts: seq<string>)
    ensures 1 <= |parts|
    decreases |s|
  {
    if c !in s then [s]
    else
      var i := IndexOf(s, c);
      [s[..i]] + Split(s[i + 1..], c)
  }

  /** Splitting at the first separator gives the part before it and the rest. */
  lemma SplitFirst(a: string, c: char, b: string)
    requires c !in a
    ensures Split(a + [c] + b, c) == [a] + Split(b, c)
  {
    var s := a + [c] + b;
    assert s[|a|] == c;
    var i := IndexOf(s, c);
    assert i == |a|;
    assert s[..i] == a;
    assert s[i + 1..] == b;
  }

  lemma {:induction false} SplitJoin(parts: seq<string>, c: char)
    requires 1 <= |parts|
    requires forall k :: 0 <= k < |parts| ==> c !in parts[k]
    ensures Split(Join(parts, [c]), c) == parts
  {
    if |parts| > 1 {
      SplitFirst(parts[0], c, Join(parts[1..], [c]));
      SplitJoin(parts[1..], c);
      assert parts == [parts[0]] + parts[1..];
    }
  }

  /** A string between two backticks. */
  function Backticked(s: string): string
  {
    "`" + s + "`"
  }

  function BacktickedAll(parts: seq<string>): (r: seq<string>)
    ensures |r| == |parts|
    ensures forall k :: 0 <= k < |parts| ==> r[k] == Backticked(parts[k])
  {
    seq(|parts|, k requires 0 <= k < |parts| => Backticked(parts[k]))
  }

  /** Joining with "`,`" between backticks is the comma-joined list of
      backticked parts: each time label becomes one JavaScript template literal. */
  lemma {:induction false} JoinBackticked(parts: seq<string>)
    requires 1 <= |parts|
    ensures Backticked(Join(parts, "`,`")) == Join(BacktickedAll(parts), ",")
  {
    if |parts| > 1 {
      JoinBackticked(parts[1..]);
      assert BacktickedAll(parts)[1..] == BacktickedAll(parts[1..]);
      calc {
        Backticked(Join(parts, "`,`"));
        "`" + (parts[0] + "`,`" + Join(parts[1..], "`,`")) + "`";
        { assert "`,`" == "`" + "," + "`"; }
        ("`" + parts[0] + "`") + "," + ("`" + Join(parts[1..], "`,`") + "`");
        Backticked(parts[0]) + "," + Join(BacktickedAll(parts[1..]), ",");
        Join(BacktickedAll(parts), ",");
      }
    }
  }
}
