/**
 * The text-level building blocks the unparser writes with: indentation
 * (`ASTnode.printSpace`), comma-separated lists, decimal integers
 * (`PrintWriter.print(int)`), and a scanner that checks that a pair of
 * delimiters is balanced in a piece of output.
 */
module Text {
  import opened Wrappers

  predicate StartsWith(s: string, prefix: string) {
    prefix <= s
  }

  predicate EndsWith(s: string, suffix: string) {
    |suffix| <= |s| && s[|s| - |suffix|..] == suffix
  }

  // ---------------------------------------------------------------------------
  // Indentation
  // ---------------------------------------------------------------------------

  /** Regrouping a concatenation of three texts does not change it. */
  lemma ConcatAssoc(x: string, y: string, z: string)
    ensures x + (y + z) == (x + y) + z
  {
  }

  /** The output of `printSpace(p, indent)`: `indent` blanks, none when `indent <= 0`. */
  function Spaces(indent: int): (r: string)
    ensures |r| == if indent <= 0 then 0 else indent
    ensures forall k :: 0 <= k < |r| ==> r[k] == ' '
    decreases indent
  {
    if indent <= 0 then "" else Spaces(indent - 1) + " "
  }

  /** `printSpace`: the counting loop that prints one blank per step. */
  method PrintSpace(indent: int) returns (out: string)
    ensures out == Spaces(indent)
  {
    out := "";
    var k := 0;
    while k < indent
      invariant 0 <= k && (k <= indent || k == 0)
      invariant out == Spaces(k)
    {
      out := out + " ";
      k := k + 1;
    }
  }

  // ---------------------------------------------------------------------------
  // Comma-separated lists
  // ---------------------------------------------------------------------------

  /** The parts in order with ", " between neighbours: "" for no parts, no leading or trailing separator. */
  function CommaList(parts: seq<string>): string
  {
    if |parts| == 0 then ""
    else if |parts| == 1 then parts[0]
    else CommaList(parts[..|parts| - 1]) + ", " + parts[|parts| - 1]
  }

  /** Appending one part adds it after a separator, or alone when it is the first. */
  lemma CommaListSnoc(parts: seq<string>, last: string)
    ensures CommaList(parts + [last]) == if |parts| == 0 then last else CommaList(parts) + ", " + last
  {
    assert (parts + [last])[..|parts|] == parts;
  }

  /** Splitting the parts anywhere splits the text at exactly one separator. */
  lemma {:induction false} CommaListConcat(a: seq<string>, b: seq<string>)
    requires |a| > 0 && |b| > 0
    ensures CommaList(a + b) == CommaList(a) + ", " + CommaList(b)
    decreases |b|
  {
    var ab := a + b;
    if |b| == 1 {
      assert ab[..|ab| - 1] == a;
    } else {
      var b' := b[..|b| - 1];
      CommaListConcat(a, b');
      assert ab[..|ab| - 1] == a + b';
      assert b'[..] == b[..|b| - 1];
    }
  }

  // ---------------------------------------------------------------------------
  // Decimal integers
  // ---------------------------------------------------------------------------

  predicate IsDigit(c: char) {
    '0' <= c <= '9'
  }

  function DigitChar(d: int): (c: char)
    requires 0 <= d < 10
    ensures IsDigit(c)
  {
    (d + '0' as int) as char
  }

  /** The decimal numeral of `n`: digits only, and no leading zero unless `n` is zero. */
  function NatToString(n: nat): (r: string)
    ensures |r| > 0
    ensures forall k :: 0 <= k < |r| ==> IsDigit(r[k])
    ensures r[0] == '0' ==> n == 0
    decreases n
  {
    if n < 10 then [DigitChar(n)] else NatToString(n / 10) + [DigitChar(n % 10)]
  }

  /** Decimal text of an integer as Java's `print(int)` writes it: a minus sign, then the magnitude. */
  function IntToString(i: int): (r: string)
    ensures |r| > 0
    ensures r[0] == '-' <==> i < 0
    ensures forall k :: (if i < 0 then 1 else 0) <= k < |r| ==> IsDigit(r[k])
  {
    if i < 0 then "-" + NatToString(-i) else NatToString(i)
  }

  /** Reads a run of digits back to its value (the reference inverse of `NatToString`). */
  function ParseDigits(s: string): int
  {
    if |s| == 0 then 0 else ParseDigits(s[..|s| - 1]) * 10 + (s[|s| - 1] as int - '0' as int)
  }

  /** Reads an optionally signed numeral back to its value. */
  function ParseInt(s: string): int
  {
    if |s| > 0 && s[0] == '-' then -ParseDigits(s[1..]) else ParseDigits(s)
  }

  lemma {:induction false} NatToStringRoundTrip(n: nat)
    ensures ParseDigits(NatToString(n)) == n
    decreases n
  {
    if n >= 10 {
      NatToStringRoundTrip(n / 10);
      var s := NatToString(n / 10);
      assert (s + [DigitChar(n % 10)])[..|s|] == s;
    }
  }

  /** Printing an integer loses nothing: the numeral reads back to the same value. */
  lemma IntToStringRoundTrip(i: int)
    ensures ParseInt(IntToString(i)) == i
  {
    if i < 0 {
      NatToStringRoundTrip(-i);
      assert IntToString(i)[1..] == NatToString(-i);
    } else {
      NatToStringRoundTrip(i);
    }
  }

  // ---------------------------------------------------------------------------
  // Balanced delimiters
  // ---------------------------------------------------------------------------

  /** The two delimiter pairs the unparser writes: parentheses and braces. */
  predicate DelimPair(open: char, close: char) {
    (open == '(' && close == ')') || (open == '{' && close == '}')
  }

  /** Nesting depth after reading `s` from depth `d`; `None` once a closer has no opener. */
  function Scan(s: string, open: char, close: char, d: nat): Option<nat>
    decreases |s|
  {
    if |s| == 0 then Some(d)
    else if s[0] == open then Scan(s[1..], open, close, d + 1)
    else if s[0] == close then (if d == 0 then None else Scan(s[1..], open, close, d - 1))
    else Scan(s[1..], open, close, d)
  }

  /** Every closer matches an earlier opener and every opener is closed. */
  predicate Balanced(s: string, open: char, close: char) {
    Scan(s, open, close, 0) == Some(0)
  }

  /** Neither delimiter of the pair occurs in `s`. */
  predicate Free(s: string, open: char, close: char) {
    open !in s && close !in s
  }

  /** A delimiter of either pair. */
  predicate IsDelim(c: char) {
    c == '(' || c == ')' || c == '{' || c == '}'
  }

  /** No delimiter of either pair occurs in `s` (what identifier and string payloads must satisfy). */
  predicate Plain(s: string) {
    forall i :: 0 <= i < |s| ==> !IsDelim(s[i])
  }

  lemma PlainConcat(a: string, b: string)
    requires Plain(a) && Plain(b)
    ensures Plain(a + b)
  {
    forall i | 0 <= i < |a + b|
      ensures !IsDelim((a + b)[i])
    {
      if i < |a| {
        assert (a + b)[i] == a[i];
      } else {
        assert (a + b)[i] == b[i - |a|];
      }
    }
  }

  lemma {:induction false} ScanAppend(a: string, b: string, open: char, close: char, d: nat)
    ensures Scan(a + b, open, close, d) ==
            match Scan(a, open, close, d)
            case None => None
            case Some(e) => Scan(b, open, close, e)
    decreases |a|
  {
    if |a| > 0 {
      assert (a + b)[1..] == a[1..] + b;
      assert (a + b)[0] == a[0];
      if a[0] == open {
        ScanAppend(a[1..], b, open, close, d + 1);
      } else if a[0] == close {
        if d > 0 {
          ScanAppend(a[1..], b, open, close, d - 1);
        }
      } else {
        ScanAppend(a[1..], b, open, close, d);
      }
    } else {
      assert a + b == b;
    }
  }

  lemma {:induction false} ScanShift(s: string, open: char, close: char, d: nat, k: nat)
    requires Scan(s, open, close, d).Some?
    ensures Scan(s, open, close, d + k) == Some(Scan(s, open, close, d).value + k)
    decreases |s|
  {
    if |s| > 0 {
      if s[0] == open {
        ScanShift(s[1..], open, close, d + 1, k);
      } else if s[0] == close {
        ScanShift(s[1..], open, close, d - 1, k);
      } else {
        ScanShift(s[1..], open, close, d, k);
      }
    }
  }

  lemma {:induction false} ScanFree(s: string, open: char, close: char, d: nat)
    requires Free(s, open, close)
    ensures Scan(s, open, close, d) == Some(d)
    decreases |s|
  {
    if |s| > 0 {
      assert s[0] in s;
      assert forall x :: x in s[1..] ==> x in s;
      ScanFree(s[1..], open, close, d);
    }
  }

  lemma BalancedFree(s: string, open: char, close: char)
    requires Free(s, open, close)
    ensures Balanced(s, open, close)
  {
    ScanFree(s, open, close, 0);
  }

  /** A text without delimiters is balanced for either pair. */
  lemma BalancedPlain(s: string, open: char, close: char)
    requires DelimPair(open, close) && Plain(s)
    ensures Balanced(s, open, close)
  {
    BalancedFree(s, open, close);
  }

  lemma BalancedConcat(a: string, b: string, open: char, close: char)
    requires Balanced(a, open, close) && Balanced(b, open, close)
    ensures Balanced(a + b, open, close)
  {
    ScanAppend(a, b, open, close, 0);
  }

  /** Enclosing a balanced text in one more opener and closer keeps it balanced. */
  lemma BalancedEnclose(a: string, open: char, close: char)
    requires open != close && Balanced(a, open, close)
    ensures Balanced([open] + a + [close], open, close)
  {
    ScanAppend([open], a, open, close, 0);
    ScanAppend([open] + a, [close], open, close, 0);
    ScanShift(a, open, close, 0, 1);
  }

  /** Putting a balanced text between parentheses keeps both delimiter pairs balanced. */
  lemma BalancedParenthesized(a: string, open: char, close: char)
    requires DelimPair(open, close) && Balanced(a, open, close)
    ensures Balanced("(" + a + ")", open, close)
  {
    if open == '(' {
      assert "(" + a + ")" == [open] + a + [close];
      BalancedEnclose(a, open, close);
    } else {
      BalancedFree("(", open, close);
      BalancedFree(")", open, close);
      BalancedConcat("(", a, open, close);
      BalancedConcat("(" + a, ")", open, close);
    }
  }

  lemma {:induction false} CommaListBalanced(parts: seq<string>, open: char, close: char)
    requires DelimPair(open, close)
    requires forall i :: 0 <= i < |parts| ==> Balanced(parts[i], open, close)
    ensures Balanced(CommaList(parts), open, close)
    decreases |parts|
  {
    if |parts| == 0 {
    } else if |parts| == 1 {
    } else {
      var init := parts[..|parts| - 1];
      CommaListBalanced(init, open, close);
      BalancedFree(", ", open, close);
      BalancedConcat(CommaList(init), ", ", open, close);
      BalancedConcat(CommaList(init) + ", ", parts[|parts| - 1], open, close);
    }
  }
}
