/** String operations the pipeline relies on: JavaScript's `includes`,
    the decimal rendering of a number inside a template string, and the
    filling of a fixed template with values (and reading them back). */
module Text {
  import opened Wrappers

  predicate StartsWith(s: string, prefix: string)
  {
    |prefix| <= |s| && s[..|prefix|] == prefix
  }

  /** `hay.includes(needle)`: tries every start position from the left. */
  function Contains(hay: string, needle: string): bool
    decreases |hay|
  {
    StartsWith(hay, needle) || (|hay| > 0 && Contains(hay[1..], needle))
  }

  /** The reference reading of "needle occurs in hay": some slice equals it. */
  ghost predicate OccursAt(hay: string, needle: string, i: int)
  {
    0 <= i && i + |needle| <= |hay| && hay[i..i + |needle|] == needle
  }

  ghost predicate Occurs(hay: string, needle: string)
  {
    exists i :: OccursAt(hay, needle, i)
  }

  lemma {:induction false} ContainsIffOccurs(hay: string, needle: string)
    ensures Contains(hay, needle) <==> Occurs(hay, needle)
    decreases |hay|
  {
    if StartsWith(hay, needle) {
      assert OccursAt(hay, needle, 0);
    } else if |hay| > 0 {
      var tail := hay[1..];
      ContainsIffOccurs(tail, needle);
      if Occurs(tail, needle) {
        var i :| OccursAt(tail, needle, i);
        assert hay[i + 1..i + 1 + |needle|] == tail[i..i + |needle|];
        assert OccursAt(hay, needle, i + 1);
      }
      if Occurs(hay, needle) {
        var i :| OccursAt(hay, needle, i);
        assert i != 0;
        assert tail[i - 1..i - 1 + |needle|] == hay[i..i + |needle|];
        assert OccursAt(tail, needle, i - 1);
      }
    }
  }

  /** Decimal digits, as a template string renders a non-negative number. */
  function Digit(d: nat): char
    requires d < 10
  {
    "0123456789"[d]
  }

  function DigitValue(c: char): nat
  {
    if '0' <= c <= '9' then (c as int - '0' as int) as nat else 0
  }

  function Decimal(n: nat): string
    decreases n
  {
    if n < 10 then [Digit(n)] else Decimal(n / 10) + [Digit(n % 10)]
  }

  /** Reads a string of decimal digits back as a number. */
  function ParseDecimal(s: string): nat
    decreases |s|
  {
    if s == [] then 0 else ParseDecimal(s[..|s| - 1]) * 10 + DigitValue(s[|s| - 1])
  }

  lemma {:induction false} DecimalRoundTrip(n: nat)
    ensures |Decimal(n)| > 0
    ensures ParseDecimal(Decimal(n)) == n
    decreases n
  {
    var s := Decimal(n);
    if n < 10 {
      assert s[..|s| - 1] == [];
    } else {
      DecimalRoundTrip(n / 10);
      assert s[..|s| - 1] == Decimal(n / 10);
    }
  }

  /** Splits at the first newline: the text before it, and the rest
      starting at the newline (empty when there is none). */
  function SplitLine(s: string): (string, string)
    decreases |s|
  {
    if s == [] then ([], [])
    else if s[0] == '\n' then ([], s)
    else
      var (line, rest) := SplitLine(s[1..]);
      ([s[0]] + line, rest)
  }

  lemma {:induction false} SplitLineAppend(v: string, rest: string)
    requires '\n' !in v
    requires rest == [] || rest[0] == '\n'
    ensures SplitLine(v + rest) == (v, rest)
    decreases |v|
  {
    if v == [] {
      assert v + rest == rest;
    } else {
      assert (v + rest)[1..] == v[1..] + rest;
      SplitLineAppend(v[1..], rest);
      assert [v[0]] + v[1..] == v;
    }
  }

  /** A template with one slot between consecutive separators:
      seps[0] + vals[0] + seps[1] + ... + vals[n-1] + seps[n]. */
  function Fill(seps: seq<string>, vals: seq<string>): string
    requires |seps| == |vals| + 1
    decreases |vals|
  {
    if vals == [] then seps[0] else seps[0] + (vals[0] + Fill(seps[1..], vals[1..]))
  }

  /** Reads the slot values back out of a filled template; each slot
      ends at the first newline after its separator. */
  function Parse(seps: seq<string>, s: string): Option<seq<string>>
    requires |seps| > 0
    decreases |seps|
  {
    if |seps| == 1 then
      if s == seps[0] then Some([]) else None
    else if !StartsWith(s, seps[0]) then None
    else
      var (v, rest) := SplitLine(s[|seps[0]|..]);
      match Parse(seps[1..], rest)
      case None => None
      case Some(vs) => Some([v] + vs)
  }

  /** Every separator after the first opens a new line. */
  ghost predicate LineSeparated(seps: seq<string>)
  {
    forall i :: 1 <= i < |seps| ==> |seps[i]| > 0 && seps[i][0] == '\n'
  }

  ghost predicate SingleLine(vals: seq<string>)
  {
    forall i :: 0 <= i < |vals| ==> '\n' !in vals[i]
  }

  /** Filling a line-separated template with single-line values loses
      nothing: parsing gives the values back. */
  lemma {:induction false} ParseFill(seps: seq<string>, vals: seq<string>)
    requires |seps| == |vals| + 1
    requires LineSeparated(seps)
    requires SingleLine(vals)
    ensures Parse(seps, Fill(seps, vals)) == Some(vals)
    decreases |vals|
  {
    if vals != [] {
      var tail := Fill(seps[1..], vals[1..]);
      var s := Fill(seps, vals);
      assert s == seps[0] + (vals[0] + tail);
      assert StartsWith(s, seps[0]);
      assert s[|seps[0]|..] == vals[0] + tail;
      assert tail[..|seps[1]|] == seps[1] by {
        if |vals| == 1 {
          assert tail == seps[1];
        } else {
          assert tail == seps[1] + (vals[1] + Fill(seps[2..], vals[2..]));
        }
      }
      assert tail[0] == '\n';
      SplitLineAppend(vals[0], tail);
      assert LineSeparated(seps[1..]) by {
        forall i | 1 <= i < |seps[1..]| ensures |seps[1..][i]| > 0 && seps[1..][i][0] == '\n' {
          assert seps[1..][i] == seps[i + 1];
        }
      }
      assert SingleLine(vals[1..]) by {
        forall i | 0 <= i < |vals[1..]| ensures '\n' !in vals[1..][i] {
          assert vals[1..][i] == vals[i + 1];
        }
      }
      ParseFill(seps[1..], vals[1..]);
      assert [vals[0]] + vals[1..] == vals;
    }
  }
}
