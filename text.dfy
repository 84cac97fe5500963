/** String operations the renderer applies to style strings and to text literals:
    the style-letter toggles of the emphasis and strong handlers, the newline
    folding and left-trimming of the text handler, and the decimal rendering of
    an ordered-list item number. */
module Text {

  /** The style string with letter `c` added unless it is already present
      (the `strings.Contains` guard followed by `+=`). */
  function AddFlag(s: string, c: char): (r: string)
    ensures c in r
    ensures c in s ==> r == s
    ensures forall d :: d != c ==> (d in r <==> d in s)
    ensures multiset(r)[c] == if c in s then multiset(s)[c] else 1
    ensures s <= r && |r| <= |s| + 1
  {
    if c in s then s else s + [c]
  }

  /** The style string with every occurrence of `c` removed
      (`strings.Replace(s, c, "", -1)`). */
  function RemoveAll(s: string, c: char): (r: string)
    ensures c !in r
    ensures forall d :: d != c ==> (d in r <==> d in s)
    ensures |r| <= |s|
  {
    if s == [] then []
    else (if s[0] == c then [] else [s[0]]) + RemoveAll(s[1..], c)
  }

  /** Removal takes out exactly the occurrences of `c` and keeps every other
      letter as often as it occurred. */
  lemma {:induction false} RemoveAllCounts(s: string, c: char)
    ensures multiset(RemoveAll(s, c))[c] == 0
    ensures forall d :: d != c ==> multiset(RemoveAll(s, c))[d] == multiset(s)[d]
    ensures |RemoveAll(s, c)| == |s| - multiset(s)[c]
  {
    if s != [] {
      RemoveAllCounts(s[1..], c);
      assert s == [s[0]] + s[1..];
    }
  }

  /** Removing a letter the string does not hold changes nothing. */
  lemma {:induction false} RemoveAbsent(s: string, c: char)
    requires c !in s
    ensures RemoveAll(s, c) == s
  {
    if s != [] {
      RemoveAbsent(s[1..], c);
    }
  }

  /** Removal distributes over concatenation: the other letters keep their order. */
  lemma {:induction false} RemoveAllAppend(s: string, t: string, c: char)
    ensures RemoveAll(s + t, c) == RemoveAll(s, c) + RemoveAll(t, c)
  {
    if s == [] {
      assert s + t == t;
    } else {
      assert (s + t)[0] == s[0] && (s + t)[1..] == s[1..] + t;
      RemoveAllAppend(s[1..], t, c);
    }
  }

  /** Adding a letter twice is the same as adding it once. */
  lemma AddFlagIdempotent(s: string, c: char)
    ensures AddFlag(AddFlag(s, c), c) == AddFlag(s, c)
  {
  }

  /** Entering and then leaving a style scope on a string that lacked the
      letter gives back the original string exactly. */
  lemma AddThenRemove(s: string, c: char)
    requires c !in s
    ensures RemoveAll(AddFlag(s, c), c) == s
  {
    RemoveAllAppend(s, [c], c);
    RemoveAbsent(s, c);
  }

  /** Leaving an inner scope clears the letter even when an outer scope added it
      first: presence is set membership, not a counter. */
  lemma NestedLeaveClears(s: string, c: char)
    ensures c !in RemoveAll(AddFlag(AddFlag(s, c), c), c)
  {
  }

  /** Every newline replaced by a space (`strings.Replace(s, "\n", " ", -1)`). */
  function FoldNewlines(s: string): (r: string)
    ensures |r| == |s|
    ensures forall k :: 0 <= k < |s| ==> r[k] == if s[k] == '\n' then ' ' else s[k]
    ensures '\n' !in r
  {
    if s == [] then []
    else [if s[0] == '\n' then ' ' else s[0]] + FoldNewlines(s[1..])
  }

  /** Leading spaces removed (`strings.TrimLeft(s, " ")`). */
  function TrimLeftSpaces(s: string): (r: string)
    ensures |r| <= |s| && r == s[|s| - |r|..]
    ensures forall k :: 0 <= k < |s| - |r| ==> s[k] == ' '
    ensures r == [] || r[0] != ' '
  {
    if s != [] && s[0] == ' ' then TrimLeftSpaces(s[1..]) else s
  }

  /** Trimming is idempotent: a second trim finds nothing to strip. */
  lemma TrimTwice(s: string)
    ensures TrimLeftSpaces(TrimLeftSpaces(s)) == TrimLeftSpaces(s)
  {
  }

  /** The text a text node contributes: newlines folded, then, when the
      trim-next flag is set, leading spaces stripped. */
  function Cleaned(literal: string, trim: bool): (r: string)
    ensures '\n' !in r
    ensures |r| <= |literal|
    ensures trim ==> r == [] || r[0] != ' '
    ensures !trim ==> |r| == |literal|
  {
    var folded := FoldNewlines(literal);
    if trim then TrimLeftSpaces(folded) else folded
  }

  /** A text node shows nothing exactly when its literal is empty or, when
      trimming, holds only spaces and newlines. */
  lemma CleanedEmpty(literal: string, trim: bool)
    ensures Cleaned(literal, trim) == [] <==>
              literal == [] || (trim && forall k :: 0 <= k < |literal| ==> literal[k] in " \n")
  {
    var folded := FoldNewlines(literal);
    if trim && TrimLeftSpaces(folded) == [] {
      forall k | 0 <= k < |literal| ensures literal[k] in " \n" {
        assert folded[k] == ' ';
      }
    }
  }

  /** The character of a decimal digit. */
  function DigitChar(d: nat): (c: char)
    requires d < 10
    ensures '0' <= c <= '9'
    ensures c as int - '0' as int == d
  {
    (48 + d) as char
  }

  predicate IsDigits(s: string)
  {
    forall k :: 0 <= k < |s| ==> '0' <= s[k] <= '9'
  }

  /** `n` in decimal, as the `%v` verb prints a non-negative integer. */
  function Decimal(n: nat): (r: string)
    ensures |r| >= 1 && IsDigits(r)
    ensures (r[0] == '0') <==> n == 0
    decreases n
  {
    if n < 10 then [DigitChar(n)] else Decimal(n / 10) + [DigitChar(n % 10)]
  }

  /** The number a string of decimal digits denotes. */
  function DecimalValue(s: string): nat
    requires IsDigits(s)
  {
    if s == [] then 0
    else DecimalValue(s[..|s| - 1]) * 10 + (s[|s| - 1] as int - '0' as int)
  }

  /** Reading back a printed number gives the number. */
  lemma {:induction false} DecimalRoundTrip(n: nat)
    ensures DecimalValue(Decimal(n)) == n
    decreases n
  {
    if n >= 10 {
      DecimalRoundTrip(n / 10);
      var r := Decimal(n);
      assert r[..|r| - 1] == Decimal(n / 10);
    }
  }

  /** Distinct numbers print as distinct strings. */
  lemma DecimalInjective(m: nat, n: nat)
    requires Decimal(m) == Decimal(n)
    ensures m == n
  {
    DecimalRoundTrip(m);
    DecimalRoundTrip(n);
  }

  /** The label an ordered-list item prints, `fmt.Sprintf("%v.", n)`. */
  function Ordinal(n: nat): (r: string)
    ensures |r| >= 2 && r[|r| - 1] == '.' && IsDigits(r[..|r| - 1])
    ensures DecimalValue(r[..|r| - 1]) == n
    ensures r[0] == '0' <==> n == 0
  {
    DecimalRoundTrip(n);
    assert (Decimal(n) + ".")[..|Decimal(n)|] == Decimal(n);
    Decimal(n) + "."
  }
}
