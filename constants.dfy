/** The two fixed colour lists of the 25-pair colour code. List position (0-based) is meaningful. */
module Constants {

  const MajorColors: seq<string> := ["White", "Red", "Black", "Yellow", "Violet"]
  const MinorColors: seq<string> := ["Blue", "Orange", "Green", "Brown", "Slate"]

  /** No colour name occurs twice in the list. */
  predicate Distinct<T(==)>(s: seq<T>)
  {
    forall i, j :: 0 <= i < j < |s| ==> s[i] != s[j]
  }

  /** Both lists hold five different names, none of which contains a space. */
  lemma ColorListsWellFormed()
    ensures |MajorColors| == 5 && |MinorColors| == 5
    ensures Distinct(MajorColors) && Distinct(MinorColors)
    ensures forall c :: c in MajorColors ==> ' ' !in c
    ensures forall c :: c in MinorColors ==> ' ' !in c
  {
  }
}
