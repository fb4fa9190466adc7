/** The pieces of Python string formatting the reports rely on: the decimal
    text an f-string gives an `int`, and counting the lines of a text. */
module Text {

  /** The character of decimal digit `d`. */
  function Digit(d: nat): (c: char)
    requires d < 10
    ensures '0' <= c <= '9'
    ensures c as int - '0' as int == d
  {
    ('0' as int + d) as char
  }

  /** A non-empty run of decimal digits. */
  predicate IsDecimal(s: string)
  {
    |s| > 0 && forall i :: 0 <= i < |s| ==> '0' <= s[i] <= '9'
  }

  /** The numeric value of a run of decimal digits, most significant first. */
  function DecimalValue(s: string): nat
    requires forall i :: 0 <= i < |s| ==> '0' <= s[i] <= '9'
  {
    if s == [] then 0
    else DecimalValue(s[..|s| - 1]) * 10 + (s[|s| - 1] as int - '0' as int)
  }

  /** What `f"{n}"` renders for a non-negative `int`: its decimal digits, with
      no sign, no separators and no leading zero. */
  function NatToDecimal(n: nat): (s: string)
    ensures IsDecimal(s)
    ensures s[0] == '0' ==> n == 0
    decreases n
  {
    if n < 10 then [Digit(n)] else NatToDecimal(n / 10) + [Digit(n % 10)]
  }

  /** Reading the digits back gives the number: the rendering loses nothing. */
  lemma {:induction false} DecimalRoundTrip(n: nat)
    ensures DecimalValue(NatToDecimal(n)) == n
  {
    if n >= 10 {
      var s := NatToDecimal(n);
      assert s[..|s| - 1] == NatToDecimal(n / 10);
      DecimalRoundTrip(n / 10);
    }
  }

  /** The decimal text of a number holds no line break. */
  lemma DecimalSingleLine(n: nat)
    ensures '\n' !in NatToDecimal(n)
  {
    var s := NatToDecimal(n);
    assert forall i :: 0 <= i < |s| ==> s[i] != '\n';
  }

  /** Distinct counts render as distinct texts. */
  lemma NatToDecimalInjective(m: nat, n: nat)
    requires NatToDecimal(m) == NatToDecimal(n)
    ensures m == n
  {
    DecimalRoundTrip(m);
    DecimalRoundTrip(n);
  }

  /** The number of newline characters in `s`; a text that ends in a newline
      holds exactly this many newline-terminated lines. */
  function NewlineCount(s: string): nat
  {
    multiset(s)['\n']
  }

  /** Line breaks of a joined text are those of its two halves. */
  lemma NewlineCountAppend(a: string, b: string)
    ensures NewlineCount(a + b) == NewlineCount(a) + NewlineCount(b)
  {
    assert multiset(a + b) == multiset(a) + multiset(b);
  }

  /** A text followed by a line break. */
  function Line(s: string): string
  {
    s + "\n"
  }

  /** A line whose text holds no line break is exactly one line. */
  lemma LineNewlines(s: string)
    requires '\n' !in s
    ensures NewlineCount(Line(s)) == 1
  {
    NewlineCountAppend(s, "\n");
  }

  /** The texts of `parts` joined in order with nothing in between. */
  function Concat(parts: seq<string>): string
  {
    if parts == [] then "" else Concat(parts[..|parts| - 1]) + parts[|parts| - 1]
  }

  /** Joining two runs of parts one after the other joins each and then the
      two results. */
  lemma {:induction false} ConcatAppend(a: seq<string>, b: seq<string>)
    ensures Concat(a + b) == Concat(a) + Concat(b)
    decreases |b|
  {
    if b == [] {
      assert a + b == a;
    } else {
      var b', last := b[..|b| - 1], b[|b| - 1];
      assert a + b == (a + b') + [last];
      ConcatSnoc(a + b', last);
      ConcatAppend(a, b');
      ConcatSnoc(b', last);
      AppendAssociative(Concat(a), Concat(b'), last);
    }
  }

  /** Joining one more part appends it. */
  lemma ConcatSnoc(parts: seq<string>, last: string)
    ensures Concat(parts + [last]) == Concat(parts) + last
  {
    assert (parts + [last])[..|parts|] == parts;
  }

  /** Appending texts is associative. */
  lemma AppendAssociative(x: string, y: string, z: string)
    ensures (x + y) + z == x + (y + z)
  {
  }

  /** Part i of a join sits between the join of the parts before it and the
      join of the parts after it. */
  lemma ConcatAt(parts: seq<string>, i: nat)
    requires i < |parts|
    ensures Concat(parts) == Concat(parts[..i]) + parts[i] + Concat(parts[i + 1..])
  {
    var before, x, after := parts[..i], parts[i], parts[i + 1..];
    SplitAt(parts, i);
    ConcatAppend(before + [x], after);
    ConcatSnoc(before, x);
  }

  /** A join of parts that each hold `k` newlines holds `k` per part. */
  lemma {:induction false} ConcatNewlines(parts: seq<string>, k: nat)
    requires forall i :: 0 <= i < |parts| ==> NewlineCount(parts[i]) == k
    ensures NewlineCount(Concat(parts)) == k * |parts|
  {
    if parts != [] {
      var init, last := parts[..|parts| - 1], parts[|parts| - 1];
      ConcatNewlines(init, k);
      NewlineCountAppend(Concat(init), last);
      assert NewlineCount(last) == k;
      MultiplySuccessor(k, |init|);
    }
  }

  /** `k` copies of `n + 1` parts are `k` more than `k` copies of `n`. */
  lemma MultiplySuccessor(k: nat, n: nat)
    ensures k * (n + 1) == k * n + k
  {
  }

  /** The prefix of length `i + 1` is the prefix of length `i` and element `i`. */
  lemma TakeOneMore<T>(s: seq<T>, i: nat)
    requires i < |s|
    ensures s[..i + 1] == s[..i] + [s[i]]
  {
  }

  /** A sequence is its prefix before `i`, its element at `i` and its suffix
      after `i`. */
  lemma SplitAt<T>(s: seq<T>, i: nat)
    requires i < |s|
    ensures s == (s[..i] + [s[i]]) + s[i + 1..]
  {
  }

  /** Five parts that each end in a line break, one after the other: a text
      that starts with the first part and ends in a line break, holding five
      line breaks when each part holds one. */
  lemma FiveLines(a: string, b: string, c: string, d: string, e: string)
    requires |e| > 0 && e[|e| - 1] == '\n'
    ensures var text := a + b + c + d + e;
            && |a| <= |text| && text[..|a|] == a
            && text[|text| - 1] == '\n'
    ensures (&& NewlineCount(a) == 1 && NewlineCount(b) == 1 && NewlineCount(c) == 1
             && NewlineCount(d) == 1 && NewlineCount(e) == 1)
            ==> NewlineCount(a + b + c + d + e) == 5
  {
    AppendAssociative(a, b, c);
    AppendAssociative(a, b + c, d);
    AppendAssociative(a, b + c + d, e);
    JoinStartsWith(a, b + c + d + e);
    JoinEndsWith(a + b + c + d, e);
    NewlineCountAppend(a, b);
    NewlineCountAppend(a + b, c);
    NewlineCountAppend(a + b + c, d);
    NewlineCountAppend(a + b + c + d, e);
  }

  /** Four single lines, one after the other, hold four line breaks. */
  lemma FourLines(a: string, b: string, c: string, d: string)
    requires NewlineCount(a) == 1 && NewlineCount(b) == 1
    requires NewlineCount(c) == 1 && NewlineCount(d) == 1
    ensures NewlineCount(a + b + c + d) == 4
  {
    NewlineCountAppend(a, b);
    NewlineCountAppend(a + b, c);
    NewlineCountAppend(a + b + c, d);
  }

  /** A join starts with its first part. */
  lemma JoinStartsWith<T>(a: seq<T>, rest: seq<T>)
    ensures |a| <= |a + rest| && (a + rest)[..|a|] == a
  {
  }

  /** A join ends with the end of its last part. */
  lemma JoinEndsWith<T>(a: seq<T>, b: seq<T>)
    requires |b| > 0
    ensures (a + b)[|a + b| - 1] == b[|b| - 1]
  {
  }
}
