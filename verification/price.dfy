/** The price parser: the first `$<digits>[.<two digits>]` in a piece of text,
    as a number of cents.

    The scanner (`ExtractPrice`, `ScanFrom`, `ReadWhole`, `ReadAmount`) walks
    the text once, left to right. The reference side (`StartsMatch`,
    `IsRunEnd`, `MatchValue`) says what the pattern `\$(\d+(?:\.\d{2})?)`
    matches, and the lemmas at the end tie the two together. */
module PriceParser {
  import opened Wrappers
  import opened Text

  /** An amount of money in cents; "$49.99" is 4999. */
  type Cents = nat

  // ---------------------------------------------------------------------
  // What the pattern matches
  // ---------------------------------------------------------------------

  /** A match of the pattern starts at `i`: a `$` followed by a digit. */
  predicate StartsMatch(s: string, i: int) {
    0 <= i && i + 1 < |s| && s[i] == '$' && IsDigit(s[i + 1])
  }

  /** The leftmost place where a match starts. */
  predicate IsLeftmostMatch(s: string, i: int) {
    StartsMatch(s, i) && forall j :: 0 <= j < i ==> !StartsMatch(s, j)
  }

  predicate AllDigits(ds: string) {
    forall k :: 0 <= k < |ds| ==> IsDigit(ds[k])
  }

  /** `s[j..e]` is the longest run of digits starting at `j` (what the greedy
      `\d+` consumes once it has started). */
  predicate IsRunEnd(s: string, j: int, e: int) {
    0 <= j <= e <= |s| && AllDigits(s[j..e]) && (e == |s| || !IsDigit(s[e]))
  }

  /** A `.` and exactly two digits follow position `e`. */
  predicate HasCents(s: string, e: int) {
    0 <= e && e + 2 < |s| && s[e] == '.' && IsDigit(s[e + 1]) && IsDigit(s[e + 2])
  }

  /** The value of a string of decimal digits, most significant first. */
  function DecimalValue(ds: string): nat
    requires AllDigits(ds)
  {
    if |ds| == 0 then 0 else DecimalValue(ds[..|ds| - 1]) * 10 + DigitValue(ds[|ds| - 1])
  }

  /** The amount the match starting at `i` denotes, in cents, when the digit
      run after the `$` ends at `e`. */
  function MatchValue(s: string, i: int, e: int): Cents
    requires StartsMatch(s, i) && IsRunEnd(s, i + 1, e)
  {
    DecimalValue(s[i + 1..e]) * 100 + (if HasCents(s, e) then DecimalValue(s[e + 1..e + 3]) else 0)
  }

  // ---------------------------------------------------------------------
  // The scanner
  // ---------------------------------------------------------------------

  /** Reads digits from `j` on, accumulating them onto `acc`; returns the
      value and the position after the last digit. */
  function ReadWhole(s: string, j: nat, acc: nat): (r: (nat, nat))
    requires j <= |s|
    ensures j <= r.1 <= |s|
    decreases |s| - j
  {
    if j < |s| && IsDigit(s[j]) then ReadWhole(s, j + 1, acc * 10 + DigitValue(s[j])) else (acc, j)
  }

  /** The amount in cents of the digits starting at `j`, with the cents
      taken only when a `.` and two digits follow them. */
  function ReadAmount(s: string, j: nat): Cents
    requires j <= |s|
  {
    var (whole, e) := ReadWhole(s, j, 0);
    whole * 100
      + if e + 2 < |s| && s[e] == '.' && IsDigit(s[e + 1]) && IsDigit(s[e + 2])
        then DigitValue(s[e + 1]) * 10 + DigitValue(s[e + 2])
        else 0
  }

  /** Looks for the first `$` followed by a digit at or after `i`. */
  function ScanFrom(s: string, i: nat): Option<Cents>
    decreases |s| - i
  {
    if i + 1 >= |s| then None
    else if s[i] == '$' && IsDigit(s[i + 1]) then Some(ReadAmount(s, i + 1))
    else ScanFrom(s, i + 1)
  }

  /** `extract_price(text)`: nothing for a missing or empty text, otherwise
      the amount of the first match in it, if any. */
  function ExtractPrice(text: Option<string>): (r: Option<Cents>)
    ensures text == None || text == Some("") ==> r == None
    ensures r.Some? ==> exists i :: StartsMatch(text.value, i)
  {
    if text.None? || |text.value| == 0 then None
    else
      var s := text.value;
      ScanFromNone(s, 0);
      ScanFrom(s, 0)
  }

  // ---------------------------------------------------------------------
  // The scanner finds exactly the leftmost match
  // ---------------------------------------------------------------------

  lemma {:induction false} ReadWholeReadsRun(s: string, start: nat, j: nat, e: nat)
    requires start <= j && IsRunEnd(s, start, e) && j <= e
    ensures AllDigits(s[start..j])
    ensures ReadWhole(s, j, DecimalValue(s[start..j])) == (DecimalValue(s[start..e]), e)
    decreases e - j
  {
    assert s[start..j] == s[start..e][..j - start];
    if j < e {
      assert IsDigit(s[j]) by { assert s[j] == s[start..e][j - start]; }
      assert s[start..j + 1][..j - start] == s[start..j];
      ReadWholeReadsRun(s, start, j + 1, e);
    }
  }

  lemma ReadAmountIsMatchValue(s: string, i: nat, e: nat)
    requires StartsMatch(s, i) && IsRunEnd(s, i + 1, e)
    ensures ReadAmount(s, i + 1) == MatchValue(s, i, e)
  {
    assert s[i + 1..i + 1] == [];
    ReadWholeReadsRun(s, i + 1, i + 1, e);
    if HasCents(s, e) {
      TwoDigitValue(s[e + 1..e + 3]);
    }
  }

  lemma TwoDigitValue(c: string)
    requires |c| == 2 && AllDigits(c)
    ensures DecimalValue(c) == DigitValue(c[0]) * 10 + DigitValue(c[1])
  {
    var first := c[..1];
    assert first[0] == c[0] && first[..0] == [];
    assert DecimalValue(first) == DigitValue(c[0]);
  }

  lemma {:induction false} ScanFromNone(s: string, k: nat)
    ensures ScanFrom(s, k).None? <==> forall i :: k <= i < |s| ==> !StartsMatch(s, i)
    decreases |s| - k
  {
    if k + 1 >= |s| {
    } else if s[k] == '$' && IsDigit(s[k + 1]) {
      assert StartsMatch(s, k);
    } else {
      ScanFromNone(s, k + 1);
      assert !StartsMatch(s, k);
    }
  }

  lemma {:induction false} ScanFromFinds(s: string, k: nat, i: nat, e: nat)
    requires k <= i && StartsMatch(s, i) && IsRunEnd(s, i + 1, e)
    requires forall j :: k <= j < i ==> !StartsMatch(s, j)
    ensures ScanFrom(s, k) == Some(MatchValue(s, i, e))
    decreases i - k
  {
    if k < i {
      assert !StartsMatch(s, k);
      ScanFromFinds(s, k + 1, i, e);
    } else {
      ReadAmountIsMatchValue(s, i, e);
    }
  }

  /** Every digit run has an end. */
  lemma {:induction false} RunEndExists(s: string, j: nat)
    requires j <= |s|
    ensures exists e :: IsRunEnd(s, j, e)
    decreases |s| - j
  {
    if j < |s| && IsDigit(s[j]) {
      RunEndExists(s, j + 1);
      var e :| IsRunEnd(s, j + 1, e);
      assert s[j..e] == [s[j]] + s[j + 1..e];
      assert IsRunEnd(s, j, e);
    } else {
      assert IsRunEnd(s, j, j);
    }
  }

  /** `extract_price` gives nothing exactly when no `$` in the text is
      immediately followed by a digit. */
  lemma NoMatchNoPrice(s: string)
    ensures ExtractPrice(Some(s)) == None <==> forall i :: 0 <= i < |s| ==> !StartsMatch(s, i)
  {
    ScanFromNone(s, 0);
  }

  /** When there is a match, `extract_price` gives the amount of the
      leftmost one; later amounts are ignored. */
  lemma LeftmostMatchPrice(s: string, i: nat, e: nat)
    requires IsLeftmostMatch(s, i) && IsRunEnd(s, i + 1, e)
    ensures ExtractPrice(Some(s)) == Some(MatchValue(s, i, e))
  {
    ScanFromFinds(s, 0, i, e);
  }

  /** Some text with a match always yields a price, and it is the value of
      the leftmost match. */
  lemma {:induction false} MatchYieldsLeftmostPrice(s: string, m: nat)
    requires StartsMatch(s, m)
    ensures exists i, e :: IsLeftmostMatch(s, i) && IsRunEnd(s, i + 1, e)
                          && ExtractPrice(Some(s)) == Some(MatchValue(s, i, e))
    decreases m
  {
    if exists j :: 0 <= j < m && StartsMatch(s, j) {
      var j :| 0 <= j < m && StartsMatch(s, j);
      MatchYieldsLeftmostPrice(s, j);
    } else {
      RunEndExists(s, m + 1);
      var e :| IsRunEnd(s, m + 1, e);
      LeftmostMatchPrice(s, m, e);
    }
  }

  // ---------------------------------------------------------------------
  // Worked examples
  // ---------------------------------------------------------------------

  /** "$49.99/mo" is 49.99. */
  lemma PriceWithCentsExample()
    ensures ExtractPrice(Some("$49.99/mo")) == Some(4999)
  {
    var s := "$49.99/mo";
    assert IsRunEnd(s, 1, 3) && HasCents(s, 3);
    TwoDigitValue(s[1..3]);
    TwoDigitValue(s[4..6]);
    LeftmostMatchPrice(s, 0, 3);
  }

  /** "$49.9" ignores a one-digit fraction and "$49.999" keeps only the
      first two fraction digits. */
  lemma FractionExamples()
    ensures ExtractPrice(Some("$49.9")) == Some(4900)
    ensures ExtractPrice(Some("$49.999")) == Some(4999)
  {
    var b := "$49.9";
    assert IsRunEnd(b, 1, 3) && !HasCents(b, 3);
    TwoDigitValue(b[1..3]);
    LeftmostMatchPrice(b, 0, 3);
    var c := "$49.999";
    assert IsRunEnd(c, 1, 3) && HasCents(c, 3);
    TwoDigitValue(c[1..3]);
    TwoDigitValue(c[4..6]);
    LeftmostMatchPrice(c, 0, 3);
  }

  /** "$1,299" stops at the comma: one dollar. */
  lemma ThousandsSeparatorExample()
    ensures ExtractPrice(Some("$1,299")) == Some(100)
  {
    var d := "$1,299";
    assert IsRunEnd(d, 1, 2) && !HasCents(d, 2);
    assert d[1..2][..0] == [];
    LeftmostMatchPrice(d, 0, 2);
  }

  /** Text without a `$`-amount has no price; of two amounts, the first wins. */
  lemma NoPriceAndFirstWinsExamples()
    ensures ExtractPrice(Some("Contact us")) == None
    ensures ExtractPrice(Some("$30 now, $45 later")) == Some(3000)
  {
    NoMatchNoPrice("Contact us");
    var s := "$30 now, $45 later";
    assert IsRunEnd(s, 1, 3) && !HasCents(s, 3);
    TwoDigitValue(s[1..3]);
    LeftmostMatchPrice(s, 0, 3);
  }
}
