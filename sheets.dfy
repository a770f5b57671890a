/**
 * The list-of-sheets structure all three front ends keep: `sheets` is a list
 * of sheets and each sheet a list of tabs. What differs between the front ends
 * is how an index given by the caller is checked before the append.
 */
module Sheets {
  import opened Outcomes
  import opened Strings

  /** Python's `lst[i]` for a list of length `n`: a negative index counts from
      the end, anything outside `[-n, n)` raises `IndexError`. */
  function PyIndex(i: int, n: nat): (r: Option<nat>)
    ensures r.Some? <==> -(n as int) <= i < n
    ensures r.Some? ==> r.value < n && r.value % n == i % n
    ensures r.Some? && i >= 0 ==> r.value == i
  {
    if 0 <= i < n then Some(i)
    else if -(n as int) <= i < 0 then
      FromEndMod(i, n);
      Some(n + i)
    else None
  }

  /** A negative index within range and its count from the front agree modulo `n`. */
  lemma FromEndMod(i: int, n: nat)
    requires -(n as int) <= i < 0
    ensures (n + i) % n == i % n
  {
    var q := -1;
    assert i == q * n + (n + i) && 0 <= n + i < n;
    assert (n + i) % n == n + i;
  }

  /** `after` is `before` with `x` appended to sheet `j` and every other sheet untouched. */
  ghost predicate AppendedAt<T>(before: seq<seq<T>>, after: seq<seq<T>>, j: nat, x: T) {
    && |after| == |before|
    && j < |before|
    && after[j] == before[j] + [x]
    && forall k :: 0 <= k < |before| && k != j ==> after[k] == before[k]
  }

  /**
   * `add_tab_to_sheet` of main.py and new.py: `IndexError` when the index is at
   * least the number of sheets; otherwise `self.sheets[sheet_index].append(tab)`,
   * whose subscript follows Python's rules, so a negative index within range
   * names a sheet counted from the end and one below `-len` raises.
   */
  function AppendUpperChecked<T>(sheets: seq<seq<T>>, i: int, x: T): (r: Option<seq<seq<T>>>)
    ensures r.Some? <==> -|sheets| <= i < |sheets|
    ensures r.Some? ==> AppendedAt(sheets, r.value, if i >= 0 then i else |sheets| + i, x)
  {
    if i >= |sheets| then None
    else
      match PyIndex(i, |sheets|)
      case None => None
      case Some(j) => Some(sheets[j := sheets[j] + [x]])
  }

  /** `add_tab_to_sheet` of streamlit.py: `IndexError` for an index below 0 or
      at least the number of sheets; otherwise append to that sheet. */
  function AppendRangeChecked<T>(sheets: seq<seq<T>>, i: int, x: T): (r: Option<seq<seq<T>>>)
    ensures r.Some? <==> 0 <= i < |sheets|
    ensures r.Some? ==> AppendedAt(sheets, r.value, i, x)
  {
    if i < 0 || i >= |sheets| then None else Some(sheets[i := sheets[i] + [x]])
  }

  /** On a non-negative index the two checks behave alike. */
  lemma ChecksAgreeOnNonNegative<T>(sheets: seq<seq<T>>, i: int, x: T)
    requires i >= 0
    ensures AppendUpperChecked(sheets, i, x) == AppendRangeChecked(sheets, i, x)
  {
  }

  /** On a negative index within `-len` the one-sided check appends to a sheet
      counted from the end, where the two-sided check raises. */
  lemma ChecksDifferOnNegative<T>(sheets: seq<seq<T>>, i: int, x: T)
    requires -|sheets| <= i < 0
    ensures AppendRangeChecked(sheets, i, x).None?
    ensures AppendUpperChecked(sheets, i, x) == Some(sheets[|sheets| + i := sheets[|sheets| + i] + [x]])
  {
  }

  /** Invariant of the active-sheet index: 0 while there is no sheet, and a
      valid position once there is one. */
  predicate ActiveInRange(count: nat, active: int) {
    if count == 0 then active == 0 else 0 <= active < count
  }

  /** The captions `Sheet 1`, `Sheet 2`, ... of the sheet navigation buttons; no two alike. */
  function SheetCaptions(n: nat): (r: seq<string>)
    ensures |r| == n
    ensures forall i :: 0 <= i < n ==> r[i] == "Sheet " + NatToString(i + 1)
    ensures forall i, j :: 0 <= i < j < n ==> r[i] != r[j]
  {
    var r := seq(n, i requires 0 <= i < n => "Sheet " + NatToString(i + 1));
    assert forall i, j :: 0 <= i < j < n ==> r[i] != r[j] by {
      forall i, j | 0 <= i < j < n ensures r[i] != r[j] {
        if r[i] == r[j] {
          assert r[i][6..] == NatToString(i + 1);
          assert r[j][6..] == NatToString(j + 1);
          NatToStringInjective(i + 1, j + 1);
        }
      }
    }
    r
  }
}
