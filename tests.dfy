/** The fixed cases of the package's self-test, and a few boundary cases beside them. */
module SelfTests {
  import opened ColorUtils

  /** The number-to-pair cases of the self-test. */
  lemma NumberToPairCases()
    ensures ColorFromPairNumber(4) == Ok(ColorPair("White", "Brown"))
    ensures ColorFromPairNumber(5) == Ok(ColorPair("White", "Slate"))
  {
  }

  /** The pair-to-number cases of the self-test. */
  lemma PairToNumberCases()
    ensures PairNumberFromColor("Black", "Orange") == Ok(12)
    ensures PairNumberFromColor("Violet", "Slate") == Ok(25)
    ensures PairNumberFromColor("Red", "Orange") == Ok(7)
  {
    PairAt(2, 1);
    PairAt(4, 4);
    PairAt(1, 1);
  }

  /** Unknown colours: the major colour is checked first. */
  lemma UnknownColorCases()
    ensures PairNumberFromColor("Pink", "Blue") == Err(MajorIndexOutOfRange)
    ensures PairNumberFromColor("White", "Pink") == Err(MinorIndexOutOfRange)
    ensures PairNumberFromColor("Pink", "Pink") == Err(MajorIndexOutOfRange)
  {
  }

  /** Around the ends of the range: 26 is rejected, while 0 wraps round to the last pair and only
      numbers from -25 down raise an IndexError. */
  lemma BoundaryCases()
    ensures ColorFromPairNumber(25) == Ok(ColorPair("Violet", "Slate"))
    ensures ColorFromPairNumber(26) == Err(MajorIndexOutOfRange)
    ensures ColorFromPairNumber(0) == Ok(ColorPair("Violet", "Slate"))
    ensures ColorFromPairNumber(-24) == Ok(ColorPair("White", "Blue"))
    ensures ColorFromPairNumber(-25) == Err(IndexError)
  {
  }

  /** The display string of a pair, and reading it back. */
  lemma ColorPairStringCases()
    ensures ColorPairToString("White", "Blue") == "White Blue"
    ensures ParseColorPairString("White Blue") == Some(ColorPair("White", "Blue"))
  {
    ColorPairStringRoundTrip("White", "Blue");
  }
}
