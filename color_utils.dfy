/** Conversion between a pair number and its (major, minor) colour pair. */
module ColorUtils {
  import opened Constants

  /** The failures the conversions raise. The first two are the ValueErrors of color_utils.py, the
      third is the IndexError Python raises for a list index below -len. */
  datatype ColorError = MajorIndexOutOfRange | MinorIndexOutOfRange | IndexError

  datatype Result<T> = Ok(value: T) | Err(error: ColorError)

  datatype Option<T> = None | Some(value: T)

  datatype ColorPair = ColorPair(major: string, minor: string)

  /** The message text of each failure; the IndexError text is Python's own. */
  function Message(e: ColorError): string
  {
    match e
    case MajorIndexOutOfRange => "Major index out of range"
    case MinorIndexOutOfRange => "Minor index out of range"
    case IndexError => "list index out of range"
  }

  /** The two names separated by one space. */
  function ColorPairToString(majorColor: string, minorColor: string): (s: string)
    ensures |s| == |majorColor| + 1 + |minorColor|
    ensures s[..|majorColor|] == majorColor && s[|majorColor|] == ' '
    ensures s[|majorColor| + 1..] == minorColor
  {
    majorColor + " " + minorColor
  }

  /** Python's `list.index`: the position of the first occurrence, None where Python raises ValueError. */
  function IndexOf<T(==)>(s: seq<T>, x: T): (r: Option<nat>)
    ensures r.None? <==> x !in s
    ensures r.Some? ==> r.value < |s| && s[r.value] == x
    ensures r.Some? ==> forall j :: 0 <= j < r.value ==> s[j] != x
  {
    if |s| == 0 then None
    else if s[0] == x then Some(0)
    else match IndexOf(s[1..], x)
      case None => None
      case Some(i) => Some(i + 1)
  }

  /** Python's `s[i]` on a list: a negative index counts from the end, anything else outside the
      list raises IndexError. */
  function PyIndex<T>(s: seq<T>, i: int): (r: Result<T>)
    ensures r.Ok? <==> -|s| <= i < |s|
    ensures 0 <= i < |s| ==> r.value == s[i]
    ensures -|s| <= i < 0 ==> r.value == s[|s| + i]
    ensures r.Err? ==> r.error == IndexError
  {
    if 0 <= i < |s| then Ok(s[i])
    else if -|s| <= i < 0 then Ok(s[|s| + i])
    else Err(IndexError)
  }

  /** Decodes a pair number. Dafny's `/` and `%` agree with Python's `//` and `%` for the positive
      divisor used here, so negative inputs take the same path as in color_utils.py: the major index is
      negative, passes the `>=` check and is then wrapped by negative indexing. */
  function ColorFromPairNumber(pairNumber: int): (r: Result<ColorPair>)
    ensures 1 <= pairNumber <= 25 ==>
      r == Ok(ColorPair(MajorColors[(pairNumber - 1) / 5], MinorColors[(pairNumber - 1) % 5]))
    ensures 25 < pairNumber ==> r == Err(MajorIndexOutOfRange)
    ensures r != Err(MinorIndexOutOfRange)
    ensures -24 <= pairNumber <= 0 ==>
      r == Ok(ColorPair(MajorColors[(pairNumber - 1) / 5 + 5], MinorColors[(pairNumber - 1) % 5]))
    ensures pairNumber <= -25 ==> r == Err(IndexError)
    ensures r.Ok? <==> -24 <= pairNumber <= 25
  {
    var zeroBasedPairNumber := pairNumber - 1;
    var majorIndex := zeroBasedPairNumber / |MinorColors|;
    if majorIndex >= |MajorColors| then Err(MajorIndexOutOfRange)
    else
      var minorIndex := zeroBasedPairNumber % |MinorColors|;
      if minorIndex >= |MinorColors| then Err(MinorIndexOutOfRange)
      else match PyIndex(MajorColors, majorIndex)
        case Err(e) => Err(e)
        case Ok(major) =>
          match PyIndex(MinorColors, minorIndex)
          case Err(e) => Err(e)
          case Ok(minor) => Ok(ColorPair(major, minor))
  }

  /** Encodes a colour pair. The major colour is looked up first, so it decides the error when
      both colours are unknown. */
  function PairNumberFromColor(majorColor: string, minorColor: string): (r: Result<int>)
    ensures majorColor !in MajorColors ==> r == Err(MajorIndexOutOfRange)
    ensures majorColor in MajorColors && minorColor !in MinorColors ==> r == Err(MinorIndexOutOfRange)
    ensures r.Ok? <==> majorColor in MajorColors && minorColor in MinorColors
    ensures r.Ok? ==> 1 <= r.value <= 25
    ensures forall i, j ::
      (0 <= i < |MajorColors| && 0 <= j < |MinorColors| &&
       MajorColors[i] == majorColor && MinorColors[j] == minorColor) ==> r == Ok(i * 5 + j + 1)
  {
    ColorListsWellFormed();
    match IndexOf(MajorColors, majorColor)
    case None => Err(MajorIndexOutOfRange)
    case Some(majorIndex) =>
      match IndexOf(MinorColors, minorColor)
      case None => Err(MinorIndexOutOfRange)
      case Some(minorIndex) => Ok(majorIndex * |MinorColors| + minorIndex + 1)
  }

  /** Position i * 5 + j of the table lies in block i at offset j. */
  lemma BlockPosition(i: int, j: int)
    requires 0 <= i && 0 <= j < 5
    ensures (i * 5 + j) / 5 == i && (i * 5 + j) % 5 == j
  {
  }

  /** The pair at major index i and minor index j has number i * 5 + j + 1, in both directions. */
  lemma PairAt(i: int, j: int)
    requires 0 <= i < 5 && 0 <= j < 5
    ensures PairNumberFromColor(MajorColors[i], MinorColors[j]) == Ok(i * 5 + j + 1)
    ensures ColorFromPairNumber(i * 5 + j + 1) == Ok(ColorPair(MajorColors[i], MinorColors[j]))
  {
    BlockPosition(i, j);
  }

  /** The text of every error the two conversions return. */
  lemma ConversionMessages(pairNumber: int, majorColor: string, minorColor: string)
    ensures 25 < pairNumber ==> Message(ColorFromPairNumber(pairNumber).error) == "Major index out of range"
    ensures majorColor !in MajorColors ==>
      Message(PairNumberFromColor(majorColor, minorColor).error) == "Major index out of range"
    ensures majorColor in MajorColors && minorColor !in MinorColors ==>
      Message(PairNumberFromColor(majorColor, minorColor).error) == "Minor index out of range"
  {
  }

  /** number -> pair -> number is the identity on 1..25. */
  lemma NumberToPairToNumber(n: int)
    requires 1 <= n <= 25
    ensures ColorFromPairNumber(n).Ok?
    ensures PairNumberFromColor(ColorFromPairNumber(n).value.major, ColorFromPairNumber(n).value.minor) == Ok(n)
  {
    PairAt((n - 1) / 5, (n - 1) % 5);
  }

  /** pair -> number -> pair is the identity on listed colours. */
  lemma PairToNumberToPair(majorColor: string, minorColor: string)
    requires majorColor in MajorColors && minorColor in MinorColors
    ensures PairNumberFromColor(majorColor, minorColor).Ok?
    ensures ColorFromPairNumber(PairNumberFromColor(majorColor, minorColor).value) == Ok(ColorPair(majorColor, minorColor))
  {
    var i :| 0 <= i < |MajorColors| && MajorColors[i] == majorColor;
    var j :| 0 <= j < |MinorColors| && MinorColors[j] == minorColor;
    PairAt(i, j);
  }

  /** Reads "major minor" back into its two names: the inverse of ColorPairToString. */
  function ParseColorPairString(s: string): (r: Option<ColorPair>)
    ensures r.None? <==> ' ' !in s
  {
    match IndexOf(s, ' ')
    case None => None
    case Some(k) => Some(ColorPair(s[..k], s[k + 1..]))
  }

  /** A major colour without a space in it (every listed colour) is recovered from the string. */
  lemma ColorPairStringRoundTrip(majorColor: string, minorColor: string)
    requires ' ' !in majorColor
    ensures ParseColorPairString(ColorPairToString(majorColor, minorColor)) == Some(ColorPair(majorColor, minorColor))
  {
    var s := ColorPairToString(majorColor, minorColor);
    assert s[|majorColor|] == ' ';
    var k := IndexOf(s, ' ').value;
    assert k <= |majorColor|;
    assert s[..|majorColor|] == majorColor;
    assert k == |majorColor|;
  }
}
