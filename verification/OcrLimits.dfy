/** The OCR schemas accept results that reach every limit at once. */
module OcrLimits {
  import opened Wrappers
  import opened Texts
  import opened Documents
  import opened Calendar
  import opened Statements
  import opened Months
  import opened Aggregation
  import opened OcrSchema

  const SHOP := Units("x")
  const OTHER := Units("その他")

  function FullLine(date: Text, line: int): OcrTransaction {
    OcrTransaction(date, SHOP, SHOP, MAX_AMOUNT, OTHER, None, line)
  }

  /** 100 lines of the largest amount. */
  function FullResult(date: Text): seq<OcrTransaction> {
    seq(MAX_LINES, (i: nat) => FullLine(date, i + 1))
  }

  lemma OtherIsListed()
    ensures OTHER in CATEGORIES
  {
    assert CATEGORIES[6] == OTHER;
  }

  lemma OtherHasNoSubcategories()
    ensures SubcategoriesOf(OTHER) == []
  {
    assert OTHER[0] == 0x305D;
    assert FOOD[0] == 0x98DF && TRANSPORT[0] == 0x4EA4 && SHOPPING[0] == 0x8CB7;
  }

  lemma ShopIsTidy()
    ensures TidyText(SHOP, MAX_MERCHANT)
  {
    assert SHOP[0] == 120;
  }

  lemma SoundFromParts(t: OcrTransaction)
    requires MatchesDatePattern(t.date) && RealDate(WrittenDate(t.date)) && WrittenDate(t.date).year >= 100
    requires TidyText(t.merchantRaw, MAX_MERCHANT) && TidyText(t.merchantName, MAX_MERCHANT)
    requires t.amount == MAX_AMOUNT && 1 <= t.line <= MAX_LINES
    requires t.category in CATEGORIES && SubcategoriesOf(t.category) == [] && t.subcategory.None?
    ensures Sound(t)
  {
  }

  lemma FullLineIsSound(date: Text, line: int)
    requires DateOk(date) && 1 <= line <= MAX_LINES
    ensures Sound(FullLine(date, line))
  {
    DateOkIsReal(date);
    OtherIsListed();
    OtherHasNoSubcategories();
    ShopIsTidy();
    SoundFromParts(FullLine(date, line));
  }

  lemma FullResultHolds(date: Text)
    ensures |FullResult(date)| == MAX_LINES
    ensures forall i :: 0 <= i < MAX_LINES ==> FullResult(date)[i] == FullLine(date, i + 1)
  {
  }

  lemma DistinctFromLines(txs: seq<OcrTransaction>)
    requires forall i :: 0 <= i < |txs| ==> txs[i].line == i + 1
    ensures Distinct(txs)
  {
  }

  lemma FullResultIsSound(date: Text)
    requires DateOk(date)
    ensures AllSound(FullResult(date))
  {
    var txs := FullResult(date);
    FullResultHolds(date);
    forall i | 0 <= i < |txs| ensures Sound(txs[i]) {
      FullLineIsSound(date, i + 1);
      assert txs[i] == FullLine(date, i + 1);
    }
    forall i | 0 <= i < |txs| ensures txs[i].line == i + 1 { assert txs[i] == FullLine(date, i + 1); }
    DistinctFromLines(txs);
  }

  lemma FullFromParts(txs: seq<OcrTransaction>, r: Range)
    requires AllSound(txs) && |txs| == MAX_LINES
    requires forall i :: 0 <= i < |txs| ==> txs[i].amount == MAX_AMOUNT && InRange(WrittenDate(txs[i].date), r)
    ensures Full(ToTransactions(txs), r)
  {
    var lines := ToTransactions(txs);
    forall i | 0 <= i < |lines| ensures lines[i].amount == MAX_AMOUNT && InRange(lines[i].date, r) {
      assert lines[i] == ToTransaction(txs[i]);
    }
  }

  lemma FullResultIsFull(date: Text, r: Range)
    requires AllSound(FullResult(date)) && MatchesDatePattern(date) && InRange(WrittenDate(date), r)
    ensures Full(ToTransactions(FullResult(date)), r)
  {
    var txs := FullResult(date);
    FullResultHolds(date);
    forall i | 0 <= i < |txs|
      ensures txs[i].date == date && txs[i].amount == MAX_AMOUNT
    {
      assert txs[i] == FullLine(date, i + 1);
    }
    FullFromParts(txs, r);
  }

  /** For every date the schemas accept and every range around it they accept a full result. */
  lemma FullResultIsAccepted(date: Text, r: Range)
    requires DateOk(date) && InRange(WrittenDate(date), r)
    ensures var parsed := ParseOcrToolInput(EncodeAll(FullResult(date), Tool));
      parsed.Success? && AllSound(parsed.value) && Full(ToTransactions(parsed.value), r)
  {
    FullResultIsSound(date);
    SoundIsAccepted(FullResult(date));
    FullResultIsFull(date, r);
  }
}
