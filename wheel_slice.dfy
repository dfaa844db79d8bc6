/** The eight fixed slices of the wheel, the index lookup the spin uses, and
    the text each slice shows. */
module WheelSlices {
  import opened Text

  datatype WheelSlice = Points(value: int) | Bankrupt | ExtraTurn

  /** The wheel in order: 2 x 100, 2 x 200, 2 x 300, one Bankrupt, one ExtraTurn. */
  const AllSlices: seq<WheelSlice> := [
    Points(100), Points(200), Points(300), Bankrupt,
    Points(100), Points(200), Points(300), ExtraTurn
  ]

  /** The slice at an index, wrapping modulo the wheel size. */
  function GetSliceAtIndex(index: nat): (s: WheelSlice)
    ensures s in AllSlices
    ensures s == AllSlices[index % 8]
  {
    AllSlices[index % |AllSlices|]
  }

  /** The lookup has period 8. */
  lemma SlicePeriodic(index: nat, k: nat)
    ensures GetSliceAtIndex(index + 8 * k) == GetSliceAtIndex(index)
  {
    assert (index + 8 * k) % 8 == index % 8;
  }

  /** Bankrupt sits only at position 3 and ExtraTurn only at position 7; every
      other position is a Points slice worth 100, 200 or 300. */
  lemma SliceKinds(index: nat)
    ensures GetSliceAtIndex(index) == Bankrupt <==> index % 8 == 3
    ensures GetSliceAtIndex(index) == ExtraTurn <==> index % 8 == 7
    ensures GetSliceAtIndex(index).Points? <==> index % 8 !in {3, 7}
    ensures GetSliceAtIndex(index).Points? ==>
              GetSliceAtIndex(index).value == 100 * (index % 4 + 1)
  {
  }

  /** Number of positions holding slice `s`. */
  function Occurrences(s: WheelSlice): nat {
    |set i | 0 <= i < 8 && AllSlices[i] == s|
  }

  /** Each Points value of 100, 200 and 300 appears exactly twice, Bankrupt
      and ExtraTurn once each, and no other Points value appears. */
  lemma SliceCounts(v: int)
    ensures Occurrences(Points(v)) == if v in {100, 200, 300} then 2 else 0
    ensures Occurrences(Bankrupt) == 1 && Occurrences(ExtraTurn) == 1
  {
    var pv := set i | 0 <= i < 8 && AllSlices[i] == Points(v);
    var q := v / 100 - 1;
    if v in {100, 200, 300} {
      assert pv == {q, q + 4};
    } else {
      assert pv == {};
    }
    assert (set i | 0 <= i < 8 && AllSlices[i] == Bankrupt) == {3};
    assert (set i | 0 <= i < 8 && AllSlices[i] == ExtraTurn) == {7};
  }

  /** The label drawn on a slice. */
  function DisplayText(s: WheelSlice): (t: string)
    ensures s.Points? && s.value >= 0 ==> AllDigits(t)
    ensures !s.Points? ==> !AllDigits(t)
  {
    match s
    case Points(v) => IntToString(v)
    case Bankrupt => assert !IsDigit("BANKRUPT"[0]); "BANKRUPT"
    case ExtraTurn => assert !IsDigit("EXTRA TURN"[0]); "EXTRA TURN"
  }

  /** Different slices show different labels, so a label identifies its slice. */
  lemma DisplayTextInjective(a: WheelSlice, b: WheelSlice)
    requires DisplayText(a) == DisplayText(b)
    ensures a == b
  {
    if a.Points? && b.Points? {
      IntToStringInjective(a.value, b.value);
    } else {
      assert DisplayText(a)[0] == DisplayText(b)[0];
    }
  }

  /** The labels on the wheel read "100", "200", "300", "BANKRUPT" and "EXTRA TURN". */
  lemma WheelLabels()
    ensures DisplayText(Points(100)) == "100"
    ensures DisplayText(Points(200)) == "200"
    ensures DisplayText(Points(300)) == "300"
    ensures DisplayText(Bankrupt) == "BANKRUPT" && DisplayText(ExtraTurn) == "EXTRA TURN"
  {
  }
}
