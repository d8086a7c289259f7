/** The little string handling that the models share. */
module Text {
  /** The blanks of ASCII: space, tab to carriage return, and the four separators. */
  predicate Space(c: char) {
    c == ' ' || '\t' <= c <= '\r' || '\U{1c}' <= c <= '\U{1f}'
  }

  predicate Blank(s: string) {
    forall i | 0 <= i < |s| :: Space(s[i])
  }

  function Strip(s: string): string
    decreases |s|
  {
    if s == "" then s
    else if Space(s[0]) then Strip(s[1..])
    else if Space(s[|s| - 1]) then Strip(s[..|s| - 1])
    else s
  }

  lemma SpaceMeans(c: char)
    ensures Space(c) <==> c as int in {9, 10, 11, 12, 13, 28, 29, 30, 31, 32}
  {
  }

  /** Text is blank exactly if stripping leaves nothing. */
  lemma {:induction false} BlankIffStripped(s: string)
    ensures Blank(s) <==> Strip(s) == ""
    decreases |s|
  {
    if s != "" {
      if Space(s[0]) {
        BlankIffStripped(s[1..]);
        assert forall i :: 1 <= i < |s| ==> s[i] == s[1..][i - 1];
      } else if Space(s[|s| - 1]) {
        BlankIffStripped(s[..|s| - 1]);
        assert s[..|s| - 1][0] == s[0];
      }
    }
  }

  // ---------------------------------------------------------------- splitting and joining

  function Split(s: string, c: char): (parts: seq<string>)
    ensures |parts| >= 1
  {
    if s == "" then [""]
    else
      var rest := Split(s[1..], c);
      if s[0] == c then [""] + rest else [[s[0]] + rest[0]] + rest[1..]
  }

  function Join(parts: seq<string>, c: char): string
    requires parts != []
  {
    if |parts| == 1 then parts[0] else parts[0] + ([c] + Join(parts[1..], c))
  }

  lemma {:induction false} SplitOff(a: string, c: char, rest: string)
    requires c !in a
    ensures Split(a, c) == [a]
    ensures Split(a + ([c] + rest), c) == [a] + Split(rest, c)
  {
    if a == "" {
      assert "" + ([c] + rest) == [c] + rest;
      assert ([c] + rest)[1..] == rest;
    } else {
      SplitOff(a[1..], c, rest);
      assert (a + ([c] + rest))[1..] == a[1..] + ([c] + rest);
      assert a == [a[0]] + a[1..];
    }
  }

  /** Splitting undoes joining, if no part contains the separator. */
  lemma {:induction false} SplitJoin(parts: seq<string>, c: char)
    requires parts != [] && forall i :: 0 <= i < |parts| ==> c !in parts[i]
    ensures Split(Join(parts, c), c) == parts
  {
    if |parts| == 1 {
      SplitOff(parts[0], c, "");
    } else {
      SplitJoin(parts[1..], c);
      SplitOff(parts[0], c, Join(parts[1..], c));
    }
  }

  // ---------------------------------------------------------------- decimal numbers

  predicate Digit(c: char) {
    '0' <= c <= '9'
  }

  /** `str.isdigit` for ASCII text. */
  predicate AllDigits(s: string) {
    s != "" && forall i | 0 <= i < |s| :: Digit(s[i])
  }

  function Number(s: string): nat
    requires forall i :: 0 <= i < |s| ==> Digit(s[i])
  {
    if s == "" then 0
    else
      assert Digit(s[|s| - 1]);
      10 * Number(s[..|s| - 1]) + (s[|s| - 1] as int - '0' as int)
  }

  /** `str` of a non-negative integer. */
  function Decimal(n: nat): string {
    var last := ['0' + (n % 10) as char];
    if n < 10 then last else Decimal(n / 10) + last
  }

  lemma {:induction false} DecimalRoundTrip(n: nat)
    ensures AllDigits(Decimal(n)) && Number(Decimal(n)) == n
  {
    var last := ['0' + (n % 10) as char];
    if n < 10 {
      assert last[..0] == "";
    } else {
      DecimalRoundTrip(n / 10);
      assert Decimal(n)[..|Decimal(n)| - 1] == Decimal(n / 10);
    }
  }

  /** Text without space at either end is its own stripped form. */
  lemma StripTight(s: string)
    requires s != "" ==> !Space(s[0]) && !Space(s[|s| - 1])
    ensures Strip(s) == s
  {
  }

  lemma JoinEnds(parts: seq<string>, c: char)
    requires parts != [] && forall i :: 0 <= i < |parts| ==> parts[i] != ""
    ensures Join(parts, c) != ""
    ensures Join(parts, c)[0] == parts[0][0]
    ensures Join(parts, c)[|Join(parts, c)| - 1] == parts[|parts| - 1][|parts[|parts| - 1]| - 1]
  {
  }
}
