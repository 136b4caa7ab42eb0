/** Small pieces shared by every component: an optional value and the
    whitespace trimming of Java's String.trim. */
module Common {

  datatype Option<T> = None | Some(value: T)

  /** True when `c` is one of the characters String.trim removes
      (every code point up to and including U+0020). */
  predicate IsTrimmed(c: char) {
    c <= ' '
  }

  /** The number of characters String.trim strips from the front of `s`. */
  function LeadingBlanks(s: string): (n: nat)
    ensures n <= |s|
    ensures forall j :: 0 <= j < n ==> IsTrimmed(s[j])
    ensures n < |s| ==> !IsTrimmed(s[n])
  {
    if s == [] || !IsTrimmed(s[0]) then 0 else 1 + LeadingBlanks(s[1..])
  }

  /** The number of characters String.trim strips from the back of `s`. */
  function TrailingBlanks(s: string): (n: nat)
    ensures n <= |s|
    ensures forall j :: |s| - n <= j < |s| ==> IsTrimmed(s[j])
    ensures n < |s| ==> !IsTrimmed(s[|s| - 1 - n])
  {
    if s == [] || !IsTrimmed(s[|s| - 1]) then 0 else 1 + TrailingBlanks(s[..|s| - 1])
  }

  /** `r` is the stretch of `s` starting at index `i`, and every character
      of `s` outside that stretch is blank. */
  predicate BlankAround(s: string, i: int, r: string) {
    && 0 <= i && i + |r| <= |s| && r == s[i..i + |r|]
    && (forall j :: 0 <= j < i ==> IsTrimmed(s[j]))
    && (forall j :: i + |r| <= j < |s| ==> IsTrimmed(s[j]))
  }

  /** Java's String.trim: `s` without its leading and trailing blanks.
      The result is the stretch of `s` that starts at its first non-blank
      character and ends at its last one; everything cut off is blank. */
  function Trim(s: string): (r: string)
    ensures |r| <= |s|
    ensures r == [] || (!IsTrimmed(r[0]) && !IsTrimmed(r[|r| - 1]))
    ensures (s == [] || (!IsTrimmed(s[0]) && !IsTrimmed(s[|s| - 1]))) ==> r == s
    ensures exists i :: BlankAround(s, i, r)
  {
    var i := LeadingBlanks(s);
    var n := TrailingBlanks(s[i..]);
    TrimmedStretch(s, i, n);
    s[i..|s| - n]
  }

  /** What the two blank counts say about the stretch between them. */
  lemma TrimmedStretch(s: string, i: nat, n: nat)
    requires i == LeadingBlanks(s) && n == TrailingBlanks(s[i..])
    ensures i <= |s| - n
    ensures var r := s[i..|s| - n];
      && (r == [] || (!IsTrimmed(r[0]) && !IsTrimmed(r[|r| - 1])))
      && ((s == [] || (!IsTrimmed(s[0]) && !IsTrimmed(s[|s| - 1]))) ==> r == s)
      && BlankAround(s, i, r)
  {
    var t := s[i..];
    var r := s[i..|s| - n];
    assert r == t[..|t| - n];
    BlankTail(s, i, n);
    if r != [] {
      assert r[0] == t[0] && r[|r| - 1] == t[|t| - 1 - n];
    }
    if s != [] && !IsTrimmed(s[0]) && !IsTrimmed(s[|s| - 1]) {
      assert i == 0 && t == s;
    }
  }

  /** Blanks at the end of a suffix of `s` are blanks at the end of `s`. */
  lemma BlankTail(s: string, i: nat, n: nat)
    requires i + n <= |s|
    requires forall j :: |s[i..]| - n <= j < |s[i..]| ==> IsTrimmed(s[i..][j])
    ensures forall j :: |s| - n <= j < |s| ==> IsTrimmed(s[j])
  {
    forall j | |s| - n <= j < |s|
      ensures IsTrimmed(s[j])
    {
      assert s[j] == s[i..][j - i];
    }
  }

  /** A trim that keeps the full length keeps the string itself. */
  lemma TrimFullLength(s: string)
    requires |Trim(s)| == |s|
    ensures Trim(s) == s
  {
    var t := s[LeadingBlanks(s)..];
    assert |Trim(s)| == |t| - TrailingBlanks(t);
    assert LeadingBlanks(s) == 0;
    assert t == s;
  }
}
