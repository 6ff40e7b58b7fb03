/**
 * The small amount of text handling the monitor does: splitting tool output
 * into lines, joining report lines, and writing a count in decimal.
 */
module Text {

  /** Joins lines with a newline between neighbours; no lines give the empty string. */
  function JoinLines(lines: seq<string>): (s: string)
    ensures |lines| == 0 ==> s == ""
    ensures |lines| > 0 ==> lines[0] <= s
    ensures |lines| > 1 ==> |lines[0]| < |s| && s[|lines[0]|] == '\n'
  {
    if |lines| == 0 then ""
    else if |lines| == 1 then lines[0]
    else lines[0] + "\n" + JoinLines(lines[1..])
  }

  /** Joining two non-empty groups of lines puts one newline between the two joined texts. */
  lemma {:induction false} JoinLinesAppend(a: seq<string>, b: seq<string>)
    requires |a| >= 1 && |b| >= 1
    ensures JoinLines(a + b) == JoinLines(a) + "\n" + JoinLines(b)
    decreases |a|
  {
    if |a| == 1 {
      assert (a + b)[1..] == b;
    } else {
      JoinLinesAppend(a[1..], b);
      assert (a + b)[1..] == a[1..] + b;
    }
  }

  /** A line, a blank line and another line, joined. */
  lemma JoinAroundBlank(a: string, c: string)
    ensures JoinLines([a, "", c]) == a + "\n\n" + c
  {
    var lines := [a, "", c];
    assert lines[1..] == ["", c];
    assert lines[1..][1..] == [c];
    assert JoinLines(lines[1..]) == "\n" + c;
  }

  /** A blank line followed by a line, joined. */
  lemma JoinAfterBlank(t: string)
    ensures JoinLines(["", t]) == "\n" + t
  {
  }

  /** A line, a blank line, another line and then further lines, joined. */
  lemma JoinHeadThenLines(a: string, c: string, middle: seq<string>)
    requires |middle| >= 1
    ensures JoinLines([a, "", c] + middle) == a + "\n\n" + c + "\n" + JoinLines(middle)
  {
    JoinLinesAppend([a, "", c], middle);
    JoinAroundBlank(a, c);
  }

  /** Further lines, then a blank line and a last line, joined. */
  lemma JoinLinesThenBlank(lines: seq<string>, t: string)
    requires |lines| >= 1
    ensures JoinLines(lines + ["", t]) == JoinLines(lines) + "\n\n" + t
  {
    JoinLinesAppend(lines, ["", t]);
    JoinAfterBlank(t);
    DoubleNewline(JoinLines(lines), t);
  }

  lemma DoubleNewline(p: string, t: string)
    ensures p + "\n" + ("\n" + t) == p + "\n\n" + t
  {
  }

  /**
   * The layout "a, blank line, c, the middle lines, blank line, t", joined:
   * the blank lines become doubled newlines.
   */
  lemma JoinFramed(a: string, c: string, middle: seq<string>, t: string)
    requires |middle| >= 1
    ensures JoinLines([a, "", c] + middle + ["", t])
         == a + "\n\n" + c + "\n" + JoinLines(middle) + "\n\n" + t
  {
    JoinLinesThenBlank([a, "", c] + middle, t);
    JoinHeadThenLines(a, c, middle);
  }

  /** Splits text at every newline; text without newlines is one line, so is the empty text. */
  function SplitLines(s: string): (r: seq<string>)
    ensures |r| >= 1
    ensures forall i :: 0 <= i < |r| ==> '\n' !in r[i]
  {
    if |s| == 0 then [""]
    else
      var rest := SplitLines(s[1..]);
      if s[0] == '\n' then [""] + rest
      else [[s[0]] + rest[0]] + rest[1..]
  }

  /** Splitting loses nothing: joining the lines back gives the original text. */
  lemma {:induction false} SplitThenJoin(s: string)
    ensures JoinLines(SplitLines(s)) == s
  {
    if |s| > 0 {
      var rest := SplitLines(s[1..]);
      SplitThenJoin(s[1..]);
      if s[0] == '\n' {
        assert ([""] + rest)[1..] == rest;
      } else {
        var r := [[s[0]] + rest[0]] + rest[1..];
        assert r[1..] == rest[1..];
        if |rest| > 1 {
          assert rest[1..][0] == rest[1];
          assert JoinLines(rest) == rest[0] + "\n" + JoinLines(rest[1..]);
        }
      }
    }
  }

  /** Splitting text that starts with a newline-free piece keeps that piece in the first line. */
  lemma {:induction false} SplitPrefix(w: string, t: string)
    requires '\n' !in w
    ensures SplitLines(w + t) == [w + SplitLines(t)[0]] + SplitLines(t)[1..]
    decreases |w|
  {
    if |w| > 0 {
      assert (w + t)[1..] == w[1..] + t;
      assert (w + t)[0] == w[0];
      SplitPrefix(w[1..], t);
      assert [w[0]] + (w[1..] + SplitLines(t)[0]) == w + SplitLines(t)[0];
    } else {
      var r := SplitLines(t);
      assert w + t == t;
      assert w + r[0] == r[0];
      assert [r[0]] + r[1..] == r;
    }
  }

  /** Joining newline-free lines and splitting again gives the same lines back. */
  lemma {:induction false} JoinThenSplit(lines: seq<string>)
    requires |lines| >= 1
    requires forall i :: 0 <= i < |lines| ==> '\n' !in lines[i]
    ensures SplitLines(JoinLines(lines)) == lines
  {
    if |lines| == 1 {
      SplitPrefix(lines[0], "");
      assert lines[0] + "" == lines[0];
    } else {
      var tail := JoinLines(lines[1..]);
      JoinThenSplit(lines[1..]);
      assert lines[0] + "\n" + tail == lines[0] + ("\n" + tail);
      SplitPrefix(lines[0], "\n" + tail);
      assert ("\n" + tail)[1..] == tail;
      assert SplitLines("\n" + tail) == [""] + lines[1..];
      assert lines[0] + "" == lines[0];
      assert [lines[0]] + lines[1..] == lines;
    }
  }

  function DigitChar(d: nat): (c: char)
    requires d < 10
    ensures '0' <= c <= '9'
  {
    ('0' as int + d) as char
  }

  function DigitValue(c: char): nat
    requires '0' <= c <= '9'
  {
    c as int - '0' as int
  }

  predicate AllDigits(s: string) {
    forall i :: 0 <= i < |s| ==> '0' <= s[i] <= '9'
  }

  /** The value of a string of decimal digits, most significant first. */
  function DecimalValue(s: string): nat
    requires AllDigits(s)
  {
    if |s| == 0 then 0 else 10 * DecimalValue(s[..|s| - 1]) + DigitValue(s[|s| - 1])
  }

  /** Decimal rendering of a count, as Python formats an int: no sign, no leading zero. */
  function NatToString(n: nat): (s: string)
    ensures |s| >= 1
    ensures AllDigits(s)
    ensures s[0] == '0' ==> n == 0
  {
    if n < 10 then [DigitChar(n)] else NatToString(n / 10) + [DigitChar(n % 10)]
  }

  /** Reading the rendered count back gives the count. */
  lemma {:induction false} NatToStringRoundTrip(n: nat)
    ensures DecimalValue(NatToString(n)) == n
  {
    var s := NatToString(n);
    if n >= 10 {
      NatToStringRoundTrip(n / 10);
      assert s[..|s| - 1] == NatToString(n / 10);
    }
  }
}
