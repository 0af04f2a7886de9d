// Worked queries for the header's search: what `processSearchQuery` makes of
// a few concrete inputs, each derived from the general lemmas about whole
// words and price matches.
module HeaderExamples {
  import opened JsText
  import opened Header

  lemma CategoryRow0() ensures RowWords(Categories[0].words)
  {
    forall j | 0 <= j < |Categories[0].words| ensures TableWord(Categories[0].words[j]) {}
  }
  lemma CategoryRow1() ensures RowWords(Categories[1].words)
  {
    forall j | 0 <= j < |Categories[1].words| ensures TableWord(Categories[1].words[j]) {}
  }
  lemma CategoryRow2() ensures RowWords(Categories[2].words)
  {
    forall j | 0 <= j < |Categories[2].words| ensures TableWord(Categories[2].words[j]) {}
  }
  lemma CategoryRow3() ensures RowWords(Categories[3].words)
  {
    forall j | 0 <= j < |Categories[3].words| ensures TableWord(Categories[3].words[j]) {}
  }
  lemma CategoryRow4() ensures RowWords(Categories[4].words)
  {
    forall j | 0 <= j < |Categories[4].words| ensures TableWord(Categories[4].words[j]) {}
  }
  lemma CategoryRow5() ensures RowWords(Categories[5].words)
  {
    forall j | 0 <= j < |Categories[5].words| ensures TableWord(Categories[5].words[j]) {}
  }
  lemma CategoriesAreTableWords() ensures TableWords(Categories)
  {
    CategoryRow0(); CategoryRow1(); CategoryRow2(); CategoryRow3(); CategoryRow4(); CategoryRow5();
  }

  lemma StyleRow0() ensures RowWords(Styles[0].words)
  {
    forall j | 0 <= j < |Styles[0].words| ensures TableWord(Styles[0].words[j]) {}
  }
  lemma StyleRow1() ensures RowWords(Styles[1].words)
  {
    forall j | 0 <= j < |Styles[1].words| ensures TableWord(Styles[1].words[j]) {}
  }
  lemma StyleRow2() ensures RowWords(Styles[2].words)
  {
    forall j | 0 <= j < |Styles[2].words| ensures TableWord(Styles[2].words[j]) {}
  }
  lemma StyleRow3() ensures RowWords(Styles[3].words)
  {
    forall j | 0 <= j < |Styles[3].words| ensures TableWord(Styles[3].words[j]) {}
  }
  lemma StyleRow4() ensures RowWords(Styles[4].words)
  {
    forall j | 0 <= j < |Styles[4].words| ensures TableWord(Styles[4].words[j]) {}
  }
  lemma StylesAreTableWords() ensures TableWords(Styles)
  {
    StyleRow0(); StyleRow1(); StyleRow2(); StyleRow3(); StyleRow4();
  }

  lemma ColorRow0() ensures RowWords(Colors[0].words)
  {
    forall j | 0 <= j < |Colors[0].words| ensures TableWord(Colors[0].words[j]) {}
  }
  lemma ColorRow1() ensures RowWords(Colors[1].words)
  {
    forall j | 0 <= j < |Colors[1].words| ensures TableWord(Colors[1].words[j]) {}
  }
  lemma ColorRow2() ensures RowWords(Colors[2].words)
  {
    forall j | 0 <= j < |Colors[2].words| ensures TableWord(Colors[2].words[j]) {}
  }
  lemma ColorRow3() ensures RowWords(Colors[3].words)
  {
    forall j | 0 <= j < |Colors[3].words| ensures TableWord(Colors[3].words[j]) {}
  }
  lemma ColorRow4() ensures RowWords(Colors[4].words)
  {
    forall j | 0 <= j < |Colors[4].words| ensures TableWord(Colors[4].words[j]) {}
  }
  lemma ColorRow5() ensures RowWords(Colors[5].words)
  {
    forall j | 0 <= j < |Colors[5].words| ensures TableWord(Colors[5].words[j]) {}
  }
  lemma ColorRow6() ensures RowWords(Colors[6].words)
  {
    forall j | 0 <= j < |Colors[6].words| ensures TableWord(Colors[6].words[j]) {}
  }
  lemma ColorRow7() ensures RowWords(Colors[7].words)
  {
    forall j | 0 <= j < |Colors[7].words| ensures TableWord(Colors[7].words[j]) {}
  }
  lemma ColorRow8() ensures RowWords(Colors[8].words)
  {
    forall j | 0 <= j < |Colors[8].words| ensures TableWord(Colors[8].words[j]) {}
  }
  lemma ColorRow9() ensures RowWords(Colors[9].words)
  {
    forall j | 0 <= j < |Colors[9].words| ensures TableWord(Colors[9].words[j]) {}
  }
  lemma ColorsAreTableWords() ensures TableWords(Colors)
  {
    ColorRow0(); ColorRow1(); ColorRow2(); ColorRow3(); ColorRow4(); ColorRow5(); ColorRow6(); ColorRow7(); ColorRow8(); ColorRow9();
  }

  // ---------------------------------------------------------------------------
  // Price ranges

  lemma RangeKeptAsWrittenBefore()
    ensures forall k :: 0 <= k <= 7 ==> KeywordNumberAt("700-300", UnderKeywords, k).None?
  {
    var q := "700-300";
    forall k | 0 <= k <= 7 ensures KeywordNumberAt(q, UnderKeywords, k).None? {
      UnderNeedsHead(q, k);
    }
  }

  lemma RangeKeptAsWrittenReads()
    ensures RangeAt("700-300", 0) == Some(PriceRange(700, 300))
  {
    var q := "700-300";
    DigitsEndAt(q, 0, 3);
    assert q[0..3] == "700";
    assert DecimalValue("700") == 700 by { assert "700"[..2] == "70" && "70"[..1] == "7" && "7"[..0] == ""; }
    assert SkipSpaces(q, 3) == 3 && q[3] == '-' && SkipSpaces(q, 4) == 4;
    DigitsEndAt(q, 4, 7);
    assert q[4..7] == "300";
    assert DecimalValue("300") == 300 by { assert "300"[..2] == "30" && "30"[..1] == "3" && "3"[..0] == ""; }
  }

  lemma RangeKeptAsWrittenPrice()
    ensures PriceOf("700-300") == Some(PriceRange(700, 300))
  {
    var q := "700-300";
    RangeKeptAsWrittenBefore();
    RangeKeptAsWrittenReads();
    RangeRuleAt(q, 0, 700, 300);
  }

  /** `N-M` is taken as written: "700-300" gives min 700 and max 300. */
  lemma RangeKeptAsWritten()
    ensures Interpret("700-300").priceRange == Some(PriceRange(700, 300))
  {
    InterpretNormalized("700-300");
    RangeKeptAsWrittenPrice();
  }

  lemma UnderBeatsRangeBefore()
    ensures forall k :: 0 <= k < 8 ==> KeywordNumberAt("100-200 under 50", UnderKeywords, k).None?
  {
    var q := "100-200 under 50";
    forall k | 0 <= k < 8 ensures KeywordNumberAt(q, UnderKeywords, k).None? {
      UnderNeedsHead(q, k);
    }
  }

  lemma UnderBeatsRangeReads()
    ensures KeywordNumberAt("100-200 under 50", UnderKeywords, 8) == Some(50)
  {
    var q := "100-200 under 50";
    assert OccursAt(q, "under", 8) && SkipSpaces(q, 13) == 14;
    DigitsEndAt(q, 14, 16);
    assert q[14..16] == "50";
    assert DecimalValue("50") == 50 by { assert "50"[..1] == "5" && "5"[..0] == ""; }
  }

  lemma UnderBeatsRangePrice()
    ensures PriceOf("100-200 under 50") == Some(PriceRange(0, 50))
  {
    var q := "100-200 under 50";
    UnderBeatsRangeBefore();
    UnderBeatsRangeReads();
    UnderRuleAt(q, 8, 50);
  }

  /** An under-match wins over an earlier `N-M`: "100-200 under 50" is [0, 50]. */
  lemma UnderBeatsRange()
    ensures Interpret("100-200 under 50").priceRange == Some(PriceRange(0, 50))
  {
    InterpretNormalized("100-200 under 50");
    UnderBeatsRangePrice();
  }

  lemma AboveZeroBefore()
    ensures forall k :: 0 <= k <= 7 ==> KeywordNumberAt("above 0", UnderKeywords, k).None?
  {
    var q := "above 0";
    forall k | 0 <= k <= 7 ensures KeywordNumberAt(q, UnderKeywords, k).None? {
      UnderNeedsHead(q, k);
    }
  }

  lemma AboveZeroNoRange()
    ensures forall k :: 0 <= k <= 7 ==> RangeAt("above 0", k).None?
  {
    var q := "above 0";
    forall k | 0 <= k <= 7 ensures RangeAt(q, k).None? {
      RangeNeedsDash(q, k);
    }
  }

  lemma AboveZeroReads()
    ensures KeywordNumberAt("above 0", AboveKeywords, 0) == Some(0)
  {
    var q := "above 0";
    assert OccursAt(q, "above", 0) && SkipSpaces(q, 5) == 6;
    DigitsEndAt(q, 6, 7);
    assert q[6..7] == "0";
    assert DecimalValue("0") == 0 by { assert "0"[..0] == ""; }
  }

  lemma AboveZeroPrice()
    ensures PriceOf("above 0") == Some(PriceRange(500, 10000))
  {
    var q := "above 0";
    AboveZeroBefore();
    AboveZeroNoRange();
    AboveZeroReads();
    AboveRuleAt(q, 0, 0);
  }

  /** "above 0" reads 0, which `|| 500` turns into 500: the range is [500, 10000]. */
  lemma AboveZeroIsDefault()
    ensures Interpret("above 0").priceRange == Some(PriceRange(500, 10000))
  {
    InterpretNormalized("above 0");
    AboveZeroPrice();
  }

  lemma KeywordInsideWordBefore()
    ensures forall k :: 0 <= k < 6 ==> KeywordNumberAt("shirtsunder500", UnderKeywords, k).None?
  {
    var q := "shirtsunder500";
    forall k | 0 <= k < 6 ensures KeywordNumberAt(q, UnderKeywords, k).None? {
      UnderNeedsHead(q, k);
    }
  }

  lemma KeywordInsideWordReads()
    ensures KeywordNumberAt("shirtsunder500", UnderKeywords, 6) == Some(500)
  {
    var q := "shirtsunder500";
    assert OccursAt(q, "under", 6) && SkipSpaces(q, 11) == 11;
    DigitsEndAt(q, 11, 14);
    assert q[11..14] == "500";
    assert DecimalValue("500") == 500 by { assert "500"[..2] == "50" && "50"[..1] == "5" && "5"[..0] == ""; }
  }

  lemma KeywordInsideWordPrice()
    ensures PriceOf("shirtsunder500") == Some(PriceRange(0, 500))
  {
    var q := "shirtsunder500";
    KeywordInsideWordBefore();
    KeywordInsideWordReads();
    UnderRuleAt(q, 6, 500);
  }

  /** The price patterns have no word boundary: "shirtsunder500" still gives [0, 500]. */
  lemma KeywordInsideWord()
    ensures Interpret("shirtsunder500").priceRange == Some(PriceRange(0, 500))
  {
    InterpretNormalized("shirtsunder500");
    KeywordInsideWordPrice();
  }

  // ---------------------------------------------------------------------------
  // "formal shirt under 500": a style, a category and an under-range

  lemma FormalShirtWords()
    ensures WordsAmong("formal shirt under 500", ["formal", "shirt", "under"])
  {
    WordsOfRun("formal");
    WordsOfRun("shirt");
    WordsOfRun("under");
    WordsOfNonLetters("500");
    WordsOfSpaced("under", "500", ["under"], []);
    assert "under" + " " + "500" == "under 500" && ["under"] + [] == ["under"];
    WordsOfSpaced("shirt", "under 500", ["shirt"], ["under"]);
    assert "shirt" + " " + "under 500" == "shirt under 500";
    WordsOfSpaced("formal", "shirt under 500", ["formal"], ["shirt", "under"]);
    assert "formal" + " " + "shirt under 500" == "formal shirt under 500";
  }

  lemma FormalShirtHasFormal()
    ensures HasWord("formal shirt under 500", "formal")
  {
    assert WordAt("formal shirt under 500", "formal", 0);
  }

  lemma FormalShirtStyle()
    ensures FirstMatch(Styles, "formal shirt under 500") == "formal"
  {
    var q := "formal shirt under 500";
    TablesAreWellFormed();
    StylesAreTableWords();
    FormalShirtWords();
    FormalShirtHasFormal();
    assert Styles[0].words[0] == "formal";
    assert MatchesEntry(q, Styles[0].words);
    RowMatches(Styles, q, ["formal", "shirt", "under"], 0);
  }

  lemma FormalShirtHasShirt()
    ensures HasWord("formal shirt under 500", "shirt")
  {
    assert WordAt("formal shirt under 500", "shirt", 7);
  }

  lemma FormalShirtCategory()
    ensures FirstMatch(Categories, "formal shirt under 500") == "shirt"
  {
    var q := "formal shirt under 500";
    TablesAreWellFormed();
    CategoriesAreTableWords();
    FormalShirtWords();
    FormalShirtHasShirt();
    assert Categories[0].words[0] == "shirt";
    assert MatchesEntry(q, Categories[0].words);
    RowMatches(Categories, q, ["formal", "shirt", "under"], 0);
  }

  /** No colour alternative is "formal", "shirt" or "under". */
  lemma ColorsAvoidFormalShirt()
    ensures Avoids(Colors, ["formal", "shirt", "under"])
  {
    forall i, j | 0 <= i < |Colors| && 0 <= j < |Colors[i].words| ensures Colors[i].words[j] !in ["formal", "shirt", "under"] {}
  }

  lemma FormalShirtColor()
    ensures FirstMatch(Colors, "formal shirt under 500") == ""
  {
    TablesAreWellFormed();
    ColorsAreTableWords();
    FormalShirtWords();
    ColorsAvoidFormalShirt();
    NoRowMatches(Colors, "formal shirt under 500", ["formal", "shirt", "under"]);
  }

  lemma FormalShirtBefore()
    ensures forall k :: 0 <= k < 13 ==> KeywordNumberAt("formal shirt under 500", UnderKeywords, k).None?
  {
    var q := "formal shirt under 500";
    forall k | 0 <= k < 13 ensures KeywordNumberAt(q, UnderKeywords, k).None? {
      UnderNeedsHead(q, k);
    }
  }

  lemma FormalShirtReads()
    ensures KeywordNumberAt("formal shirt under 500", UnderKeywords, 13) == Some(500)
  {
    var q := "formal shirt under 500";
    assert OccursAt(q, "under", 13) && SkipSpaces(q, 18) == 19;
    DigitsEndAt(q, 19, 22);
    assert q[19..22] == "500";
    assert DecimalValue("500") == 500 by { assert "500"[..2] == "50" && "50"[..1] == "5" && "5"[..0] == ""; }
  }

  lemma FormalShirtPrice()
    ensures PriceOf("formal shirt under 500") == Some(PriceRange(0, 500))
  {
    var q := "formal shirt under 500";
    FormalShirtBefore();
    FormalShirtReads();
    UnderRuleAt(q, 13, 500);
  }

  /** "formal shirt under 500" is style formal, category shirt, no colour and
      the range [0, 500]. */
  lemma FormalShirtUnder500()
    ensures Interpret("formal shirt under 500")
      == ParsedQuery("formal", "shirt", Some(PriceRange(0, 500)), "", Some("formal shirt under 500"))
  {
    InterpretNormalized("formal shirt under 500");
    FormalShirtStyle();
    FormalShirtCategory();
    FormalShirtColor();
    FormalShirtPrice();
  }

  // ---------------------------------------------------------------------------
  // "300-700 red dress": a range, a colour and a category from a later row

  lemma RedDressWords()
    ensures WordsAmong("300-700 red dress", ["red", "dress"])
  {
    WordsOfNonLetters("300-700");
    WordsOfRun("red");
    WordsOfRun("dress");
    WordsOfSpaced("red", "dress", ["red"], ["dress"]);
    assert "red" + " " + "dress" == "red dress";
    WordsOfSpaced("300-700", "red dress", [], ["red", "dress"]);
    assert "300-700" + " " + "red dress" == "300-700 red dress" && [] + ["red", "dress"] == ["red", "dress"];
  }

  /** No style alternative is "red" or "dress". */
  lemma StylesAvoidRedDress()
    ensures Avoids(Styles, ["red", "dress"])
  {
    forall i, j | 0 <= i < |Styles| && 0 <= j < |Styles[i].words| ensures Styles[i].words[j] !in ["red", "dress"] {}
  }

  /** The shirt, pant, shoe and belt rows hold neither "red" nor "dress". */
  lemma EarlyCategoriesAvoidRedDress()
    ensures Avoids(Categories[..4], ["red", "dress"])
  {
    forall i, j | 0 <= i < |Categories[..4]| && 0 <= j < |Categories[..4][i].words| ensures Categories[..4][i].words[j] !in ["red", "dress"] {}
  }

  lemma RedDressStyle()
    ensures FirstMatch(Styles, "300-700 red dress") == ""
  {
    TablesAreWellFormed();
    StylesAreTableWords();
    RedDressWords();
    StylesAvoidRedDress();
    NoRowMatches(Styles, "300-700 red dress", ["red", "dress"]);
  }

  lemma RedDressHasDress()
    ensures HasWord("300-700 red dress", "dress")
  {
    assert WordAt("300-700 red dress", "dress", 12);
  }

  lemma RedDressCategory()
    ensures FirstMatch(Categories, "300-700 red dress") == "dress"
  {
    var q := "300-700 red dress";
    TablesAreWellFormed();
    CategoriesAreTableWords();
    RedDressWords();
    EarlyCategoriesAvoidRedDress();
    RedDressHasDress();
    assert Categories[4].words[0] == "dress";
    assert MatchesEntry(q, Categories[4].words);
    RowMatches(Categories, q, ["red", "dress"], 4);
  }

  lemma RedDressHasRed()
    ensures HasWord("300-700 red dress", "red")
  {
    assert WordAt("300-700 red dress", "red", 8);
  }

  lemma RedDressColor()
    ensures FirstMatch(Colors, "300-700 red dress") == "red"
  {
    var q := "300-700 red dress";
    TablesAreWellFormed();
    ColorsAreTableWords();
    RedDressWords();
    RedDressHasRed();
    assert Colors[0].words[0] == "red";
    assert MatchesEntry(q, Colors[0].words);
    RowMatches(Colors, q, ["red", "dress"], 0);
  }

  lemma RedDressBefore()
    ensures forall k :: 0 <= k <= 17 ==> KeywordNumberAt("300-700 red dress", UnderKeywords, k).None?
  {
    var q := "300-700 red dress";
    forall k | 0 <= k <= 17 ensures KeywordNumberAt(q, UnderKeywords, k).None? {
      UnderNeedsHead(q, k);
    }
  }

  lemma RedDressLow()
    ensures DigitsEnd("300-700 red dress", 0) == 3 && DecimalValue("300-700 red dress"[0..3]) == 300
  {
    var q := "300-700 red dress";
    DigitsEndAt(q, 0, 3);
    assert q[0..3] == "300";
    assert DecimalValue("300") == 300 by { assert "300"[..2] == "30" && "30"[..1] == "3" && "3"[..0] == ""; }
  }

  lemma RedDressHigh()
    ensures RangeAfter("300-700 red dress", 300, 3) == Some(PriceRange(300, 700))
  {
    var q := "300-700 red dress";
    assert SkipSpaces(q, 3) == 3 && q[3] == '-' && SkipSpaces(q, 4) == 4;
    DigitsEndAt(q, 4, 7);
    assert q[4..7] == "700";
    assert DecimalValue("700") == 700 by { assert "700"[..2] == "70" && "70"[..1] == "7" && "7"[..0] == ""; }
  }

  lemma RedDressReads()
    ensures RangeAt("300-700 red dress", 0) == Some(PriceRange(300, 700))
  {
    RedDressLow();
    RedDressHigh();
  }

  lemma RedDressPrice()
    ensures PriceOf("300-700 red dress") == Some(PriceRange(300, 700))
  {
    var q := "300-700 red dress";
    RedDressBefore();
    RedDressReads();
    RangeRuleAt(q, 0, 300, 700);
  }

  /** "300-700 red dress" is category dress, colour red, no style and the
      range [300, 700]. */
  lemma RedDress300To700()
    ensures Interpret("300-700 red dress")
      == ParsedQuery("", "dress", Some(PriceRange(300, 700)), "red", Some("300-700 red dress"))
  {
    InterpretNormalized("300-700 red dress");
    RedDressStyle();
    RedDressCategory();
    RedDressColor();
    RedDressPrice();
  }

  // ---------------------------------------------------------------------------
  // "nonsense xyz": nothing recognised, so the search falls back to the text

  lemma NonsenseWords()
    ensures WordsAmong("nonsense xyz", ["nonsense", "xyz"])
  {
    WordsOfRun("nonsense");
    WordsOfRun("xyz");
    WordsOfSpaced("nonsense", "xyz", ["nonsense"], ["xyz"]);
    assert "nonsense" + " " + "xyz" == "nonsense xyz";
  }

  /** No style alternative is "nonsense" or "xyz". */
  lemma StylesAvoidNonsense()
    ensures Avoids(Styles, ["nonsense", "xyz"])
  {
    forall i, j | 0 <= i < |Styles| && 0 <= j < |Styles[i].words| ensures Styles[i].words[j] !in ["nonsense", "xyz"] {}
  }

  /** No category alternative is "nonsense" or "xyz". */
  lemma CategoriesAvoidNonsense()
    ensures Avoids(Categories, ["nonsense", "xyz"])
  {
    forall i, j | 0 <= i < |Categories| && 0 <= j < |Categories[i].words| ensures Categories[i].words[j] !in ["nonsense", "xyz"] {}
  }

  /** No colour alternative is "nonsense" or "xyz". */
  lemma ColorsAvoidNonsense()
    ensures Avoids(Colors, ["nonsense", "xyz"])
  {
    forall i, j | 0 <= i < |Colors| && 0 <= j < |Colors[i].words| ensures Colors[i].words[j] !in ["nonsense", "xyz"] {}
  }

  lemma NonsenseDimensions()
    ensures FirstMatch(Styles, "nonsense xyz") == ""
    ensures FirstMatch(Categories, "nonsense xyz") == ""
    ensures FirstMatch(Colors, "nonsense xyz") == ""
  {
    var toks := ["nonsense", "xyz"];
    TablesAreWellFormed();
    StylesAreTableWords();
    CategoriesAreTableWords();
    ColorsAreTableWords();
    NonsenseWords();
    StylesAvoidNonsense();
    CategoriesAvoidNonsense();
    ColorsAvoidNonsense();
    NoRowMatches(Styles, "nonsense xyz", toks);
    NoRowMatches(Categories, "nonsense xyz", toks);
    NoRowMatches(Colors, "nonsense xyz", toks);
  }

  lemma NonsenseBefore()
    ensures forall k :: 0 <= k <= 12 ==> (KeywordNumberAt("nonsense xyz", UnderKeywords, k).None?
      && RangeAt("nonsense xyz", k).None? && KeywordNumberAt("nonsense xyz", AboveKeywords, k).None?)
  {
    var q := "nonsense xyz";
    forall k | 0 <= k <= 12
      ensures KeywordNumberAt(q, UnderKeywords, k).None? && RangeAt(q, k).None? && KeywordNumberAt(q, AboveKeywords, k).None?
    {
      UnderNeedsHead(q, k);
      RangeNeedsDash(q, k);
      AboveNeedsHead(q, k);
    }
  }

  lemma NonsensePrice()
    ensures PriceOf("nonsense xyz").None?
  {
    NonsenseBefore();
    NoPriceRule("nonsense xyz");
  }

  /** "nonsense xyz" has every field empty and keeps its text. */
  lemma NonsenseXyz()
    ensures Interpret("nonsense xyz") == ParsedQuery("", "", None, "", Some("nonsense xyz"))
  {
    InterpretNormalized("nonsense xyz");
    NonsenseDimensions();
    NonsensePrice();
  }

  /** Submitting "nonsense xyz" sends its raw text as the lone `search` parameter. */
  method SubmitNonsense() returns (params: Option<seq<Param>>)
    ensures params == Some([Param(SearchParam, "nonsense xyz")])
  {
    params := SubmitParams("nonsense xyz");
    TrimOfTrimmed("nonsense xyz");
    NonsenseXyz();
    SearchOnly(params.value, Interpret("nonsense xyz"), "nonsense xyz");
  }

  // ---------------------------------------------------------------------------
  // "above 1000": only an above-range

  lemma AboveWords()
    ensures WordsAmong("above 1000", ["above"])
  {
    WordsOfRun("above");
    WordsOfNonLetters("1000");
    WordsOfSpaced("above", "1000", ["above"], []);
    assert "above" + " " + "1000" == "above 1000" && ["above"] + [] == ["above"];
  }

  /** No style alternative is "above". */
  lemma StylesAvoidAbove()
    ensures Avoids(Styles, ["above"])
  {
    forall i, j | 0 <= i < |Styles| && 0 <= j < |Styles[i].words| ensures Styles[i].words[j] !in ["above"] {}
  }

  /** No category alternative is "above". */
  lemma CategoriesAvoidAbove()
    ensures Avoids(Categories, ["above"])
  {
    forall i, j | 0 <= i < |Categories| && 0 <= j < |Categories[i].words| ensures Categories[i].words[j] !in ["above"] {}
  }

  /** No colour alternative is "above". */
  lemma ColorsAvoidAbove()
    ensures Avoids(Colors, ["above"])
  {
    forall i, j | 0 <= i < |Colors| && 0 <= j < |Colors[i].words| ensures Colors[i].words[j] !in ["above"] {}
  }

  lemma AboveDimensions()
    ensures FirstMatch(Styles, "above 1000") == ""
    ensures FirstMatch(Categories, "above 1000") == ""
    ensures FirstMatch(Colors, "above 1000") == ""
  {
    TablesAreWellFormed();
    StylesAreTableWords();
    CategoriesAreTableWords();
    ColorsAreTableWords();
    AboveWords();
    StylesAvoidAbove();
    CategoriesAvoidAbove();
    ColorsAvoidAbove();
    NoRowMatches(Styles, "above 1000", ["above"]);
    NoRowMatches(Categories, "above 1000", ["above"]);
    NoRowMatches(Colors, "above 1000", ["above"]);
  }

  lemma AboveBefore()
    ensures forall k :: 0 <= k <= 10 ==> KeywordNumberAt("above 1000", UnderKeywords, k).None?
  {
    var q := "above 1000";
    forall k | 0 <= k <= 10 ensures KeywordNumberAt(q, UnderKeywords, k).None? {
      UnderNeedsHead(q, k);
    }
  }

  lemma AboveNoRange()
    ensures forall k :: 0 <= k <= 10 ==> RangeAt("above 1000", k).None?
  {
    var q := "above 1000";
    forall k | 0 <= k <= 10 ensures RangeAt(q, k).None? {
      RangeNeedsDash(q, k);
    }
  }

  lemma AboveReads()
    ensures KeywordNumberAt("above 1000", AboveKeywords, 0) == Some(1000)
  {
    var q := "above 1000";
    assert OccursAt(q, "above", 0) && SkipSpaces(q, 5) == 6;
    DigitsEndAt(q, 6, 10);
    assert q[6..10] == "1000";
    assert DecimalValue("1000") == 1000 by { assert "1000"[..3] == "100" && "100"[..2] == "10" && "10"[..1] == "1" && "1"[..0] == ""; }
  }

  lemma AbovePrice()
    ensures PriceOf("above 1000") == Some(PriceRange(1000, 10000))
  {
    var q := "above 1000";
    AboveBefore();
    AboveNoRange();
    AboveReads();
    AboveRuleAt(q, 0, 1000);
  }

  /** "above 1000" is the range [1000, 10000] with every other field empty. */
  lemma Above1000()
    ensures Interpret("above 1000") == ParsedQuery("", "", Some(PriceRange(1000, 10000)), "", Some("above 1000"))
  {
    InterpretNormalized("above 1000");
    AboveDimensions();
    AbovePrice();
  }
}
