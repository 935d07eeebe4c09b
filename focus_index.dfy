// Focus indexes of the big-picture screen: dotted strings such as "1.7",
// where the part after the last dot is the position inside a group. Moving
// the focus rewrites that last part with wrap-around; the game grid moves by
// four to go down or up one row.
module FocusIndex {
  import opened Common

  /** `s.includes('.')` */
  predicate HasDot(s: string) {
    exists i | 0 <= i < |s| :: s[i] == '.'
  }

  function DotAt(s: string): (p: nat)
    requires HasDot(s)
    ensures p < |s| && s[p] == '.'
  {
    LastIndexOf(s, '.').value
  }

  /** `s.slice(0, s.lastIndexOf('.'))` */
  function Parent(s: string): string
    requires HasDot(s)
  {
    s[..DotAt(s)]
  }

  /** The last element of `s.split('.')`. */
  function LastPart(s: string): string
    requires HasDot(s)
  {
    s[DotAt(s) + 1..]
  }

  /** A JavaScript number as this code can produce it: a natural number, or `NaN` as `None`. */
  type Num = Option<nat>

  /** `n.toString()` */
  function NumText(v: Num): string {
    if v.None? then "NaN" else NatToString(v.value)
  }

  /** Joining a prefix and a number with a dot can be split back into the two. */
  lemma SplitJoin(prefix: string, v: Num)
    ensures HasDot(prefix + "." + NumText(v))
    ensures Parent(prefix + "." + NumText(v)) == prefix
    ensures ParseInt(LastPart(prefix + "." + NumText(v))) == v
  {
    var t := NumText(v);
    var s := prefix + "." + t;
    assert s[|prefix|] == '.';
    if v.Some? {
      NatToStringHasNoDot(v.value);
      ParseIntOfNatToString(v.value);
    } else {
      assert LeadingDigits(t) == 0;
    }
    forall i | |prefix| < i < |s| ensures s[i] != '.' {
      assert s[i] == t[i - |prefix| - 1];
    }
    assert LastIndexOf(s, '.') == Some(|prefix|);
    assert s[..|prefix|] == prefix;
    assert s[|prefix| + 1..] == t;
  }

  // ---------------------------------------------------------------------
  // The arithmetic on the last part

  /**
   * The new last part when moving forward by `amount` in a group of `len`
   * elements: past the end it wraps to 1, or, for a step other than 1, to the
   * same column of the first row (`next % amount`, or `amount` when that is 0).
   */
  function IncreasedLast(last: Num, len: nat, amount: nat): Num {
    if last.None? then None
    else
      var next := last.value + amount;
      if next > len then
        if amount != 1 then
          if amount == 0 then None
          else if next % amount == 0 then Some(amount) else Some(next % amount)
        else Some(1)
      else Some(next)
  }

  /** The new last part when moving back by `amount`: below 1 it wraps to the group's length. */
  function DecreasedLast(last: Num, len: nat, amount: nat): Num {
    if last.None? then None
    else if last.value - amount < 1 then Some(len)
    else Some(last.value - amount)
  }

  /** `lastIncreasedFocusIndex(currentIndex, focusableLength, increaseAmount)` */
  function IncreasedFocusIndex(current: string, len: nat, amount: nat): (r: string)
    ensures HasDot(r)
    ensures !HasDot(current) ==> Parent(r) == current && ParseInt(LastPart(r)) == Some(1)
    ensures HasDot(current) ==>
      Parent(r) == Parent(current)
      && ParseInt(LastPart(r)) == IncreasedLast(ParseInt(LastPart(current)), len, amount)
  {
    if !HasDot(current) then
      SplitJoin(current, Some(1));
      assert NumText(Some(1)) == "1";
      assert current + ".1" == current + "." + NumText(Some(1));
      current + ".1"
    else
      var v := IncreasedLast(ParseInt(LastPart(current)), len, amount);
      SplitJoin(Parent(current), v);
      Parent(current) + "." + NumText(v)
  }

  /** `lastDecreasedFocusIndex(currentIndex, focusableLength, decreaseAmount)` */
  function DecreasedFocusIndex(current: string, len: nat, amount: nat): (r: string)
    ensures HasDot(r)
    ensures !HasDot(current) ==> Parent(r) == current && ParseInt(LastPart(r)) == Some(len)
    ensures HasDot(current) ==>
      Parent(r) == Parent(current)
      && ParseInt(LastPart(r)) == DecreasedLast(ParseInt(LastPart(current)), len, amount)
  {
    if !HasDot(current) then
      SplitJoin(current, Some(len));
      current + "." + NatToString(len)
    else
      var v := DecreasedLast(ParseInt(LastPart(current)), len, amount);
      SplitJoin(Parent(current), v);
      Parent(current) + "." + NumText(v)
  }

  // ---------------------------------------------------------------------
  // What the moves promise

  /** Stepping by one stays inside 1..len, and one step forward is undone by one step back. */
  lemma StepByOne(last: nat, len: nat)
    requires 1 <= last <= len
    ensures IncreasedLast(Some(last), len, 1).Some?
    ensures 1 <= IncreasedLast(Some(last), len, 1).value <= len
    ensures DecreasedLast(IncreasedLast(Some(last), len, 1), len, 1) == Some(last)
    ensures DecreasedLast(Some(last), len, 1).Some?
    ensures 1 <= DecreasedLast(Some(last), len, 1).value <= len
    ensures IncreasedLast(DecreasedLast(Some(last), len, 1), len, 1) == Some(last)
  {
  }

  /** `(last + k) % k == last % k`, written out for the solver. */
  lemma AddModulus(last: nat, k: nat)
    requires k > 0
    ensures (last + k) % k == last % k
  {
    var q := last / k;
    var m := last % k;
    assert last == q * k + m;
    assert last + k == (q + 1) * k + m;
    assert 0 <= m < k;
    DivModUnique(last + k, k, q + 1, m);
  }

  /** A positive multiple of `k` is at least `k`. */
  lemma {:induction false} MulAtLeast(d: nat, k: nat)
    requires d >= 1
    ensures d * k >= k
    decreases d
  {
    if d > 1 {
      MulAtLeast(d - 1, k);
      assert d * k == (d - 1) * k + k;
    }
  }

  /** A quotient and remainder in range are the ones Dafny's `/` and `%` give. */
  lemma DivModUnique(n: nat, k: nat, q: nat, m: nat)
    requires k > 0 && m < k && n == q * k + m
    ensures n % k == m
  {
    var q' := n / k;
    var m' := n % k;
    assert n == q' * k + m';
    if q > q' {
      assert (q - q') * k == q * k - q' * k;
      MulAtLeast(q - q', k);
    } else if q < q' {
      assert (q' - q) * k == q' * k - q * k;
      MulAtLeast(q' - q, k);
    }
  }

  /** A value whose remainder by `k` is 0 is at least `k` once it is positive. */
  lemma MultipleAtLeastModulus(last: nat, k: nat)
    requires k > 0 && last >= 1 && last % k == 0
    ensures last >= k
  {
    var q := last / k;
    assert last == q * k;
    assert q >= 1;
  }

  /** A remainder below the modulus is its own remainder. */
  lemma ModOfSmall(m: nat, k: nat)
    requires m < k
    ensures m % k == m
  {
    DivModUnique(m, k, 0, m);
  }

  /** The remainder of a natural number is at most the number. */
  lemma ModAtMost(last: nat, k: nat)
    requires k > 0
    ensures last % k <= last
  {
    var q := last / k;
    assert last == q * k + last % k;
    if q >= 1 {
      MulAtLeast(q, k);
    }
  }

  /**
   * A grid step of `k` keeps the column: the new position and the old one
   * leave the same remainder by `k`; and from a position inside 1..len the
   * step lands inside 1..len.
   */
  lemma GridStepKeepsColumn(last: nat, len: nat, k: nat)
    requires k > 1
    ensures IncreasedLast(Some(last), len, k).Some?
    ensures IncreasedLast(Some(last), len, k).value % k == last % k
    ensures 1 <= last <= len ==> 1 <= IncreasedLast(Some(last), len, k).value <= len
  {
    AddModulus(last, k);
    if last + k > len {
      if (last + k) % k == 0 {
        WrapToFullColumn(last, len, k);
      } else {
        WrapToColumn(last, len, k);
      }
    }
  }

  /** The wrap that lands on the last column of the first row. */
  lemma WrapToFullColumn(last: nat, len: nat, k: nat)
    requires k > 1 && last + k > len && (last + k) % k == 0 && (last + k) % k == last % k
    ensures IncreasedLast(Some(last), len, k) == Some(k)
    ensures k % k == last % k
    ensures 1 <= last <= len ==> 1 <= k <= len
  {
    ModOfZero(k);
    if last >= 1 {
      MultipleAtLeastModulus(last, k);
    }
  }

  lemma ModOfZero(k: nat)
    requires k > 0
    ensures k % k == 0
  {
    DivModUnique(k, k, 1, 0);
  }

  /** The wrap that lands on the same column of the first row. */
  lemma WrapToColumn(last: nat, len: nat, k: nat)
    requires k > 1 && last + k > len && (last + k) % k != 0 && (last + k) % k == last % k
    ensures IncreasedLast(Some(last), len, k) == Some(last % k)
    ensures (last % k) % k == last % k
    ensures 1 <= last <= len ==> 1 <= last % k <= len
  {
    ModOfSmall(last % k, k);
    ModAtMost(last, k);
  }

  /** The grid step on a whole index `prefix.k`: same group, same column, still inside 1..len. */
  lemma GridIndexStep(prefix: string, k: nat, len: nat, amount: nat)
    requires 1 <= k <= len && amount > 1
    ensures var r := IncreasedFocusIndex(prefix + "." + NatToString(k), len, amount);
      HasDot(r) && Parent(r) == prefix
      && ParseInt(LastPart(r)).Some?
      && ParseInt(LastPart(r)).value % amount == k % amount
      && 1 <= ParseInt(LastPart(r)).value <= len
  {
    SplitJoin(prefix, Some(k));
    GridStepKeepsColumn(k, len, amount);
  }

  /** A step back of `k` keeps the column unless it wraps, and from inside 1..len it lands inside 1..len. */
  lemma StepBackStaysInRange(last: nat, len: nat, k: nat)
    requires 1 <= last <= len
    ensures DecreasedLast(Some(last), len, k).Some?
    ensures 1 <= DecreasedLast(Some(last), len, k).value <= len
    ensures last > k ==> k > 0 ==> DecreasedLast(Some(last), len, k).value % k == last % k
  {
    if last > k && k > 0 {
      AddModulus(last - k, k);
    }
  }

  /**
   * Going up from any element of the first row of a grid with `columns`
   * columns lands on the last element, whatever the column; going down by
   * a row from it lands in the same column when that element exists.
   */
  lemma UpFromFirstRowWrapsToLast(position: nat, len: nat, columns: nat)
    requires 1 <= position <= columns
    ensures DecreasedLast(Some(position), len, columns) == Some(len)
    ensures position + columns <= len ==>
      IncreasedLast(Some(position), len, columns) == Some(position + columns)
  {
  }
}
