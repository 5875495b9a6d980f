/** The schemas an OCR result passes before it is stored, and the bounds they guarantee. */
module OcrSchema {
  import opened Wrappers
  import opened Texts
  import opened Documents
  import opened Calendar
  import opened Statements
  import opened Aggregation

  const MAX_OCR_TRANSACTIONS: nat := 100
  const MAX_MERCHANT: nat := 200

  const FOOD := Units("食費")
  const TRANSPORT := Units("交通")
  const SHOPPING := Units("買い物")
  const CATEGORIES := [FOOD, TRANSPORT, SHOPPING, Units("娯楽"), Units("サブスク"), Units("旅行"), Units("その他")]

  /** "なし": what the tool writes where there is no subcategory. */
  const NONE := Units("なし")

  const FOOD_SUBCATEGORIES := [Units("外食"), Units("コンビニ"), Units("スーパー"), Units("カフェ")]
  const TRANSPORT_SUBCATEGORIES := [Units("電車"), Units("タクシー"), Units("飛行機")]
  const SHOPPING_SUBCATEGORIES := [Units("日用品"), Units("衣服"), Units("EC")]
  const SUBCATEGORIES := FOOD_SUBCATEGORIES + TRANSPORT_SUBCATEGORIES + SHOPPING_SUBCATEGORIES + [NONE]

  function SubcategoriesOf(category: Text): seq<Text> {
    if category == FOOD then FOOD_SUBCATEGORIES
    else if category == TRANSPORT then TRANSPORT_SUBCATEGORIES
    else if category == SHOPPING then SHOPPING_SUBCATEGORIES
    else []
  }

  datatype OcrTransaction = OcrTransaction(
    date: Text,
    merchantRaw: Text,
    merchantName: Text,
    amount: int,
    category: Text,
    subcategory: Option<Text>,
    line: int)

  datatype OcrError = InvalidOcrResult

  /** The model's tool call writes "なし"; the result it is turned into has null instead. */
  datatype Stage = Tool | Final

  // ---- one transaction ----

  function TextOf(fields: map<Field, Json>, key: Field): Option<Text> {
    if key in fields && fields[key].String? then Some(fields[key].text) else None
  }

  function Integer(fields: map<Field, Json>, key: Field): Option<int> {
    if key in fields && fields[key].Number? && fields[key].number == fields[key].number.Floor as real
    then Some(fields[key].number.Floor)
    else None
  }

  predicate DateOk(date: Text) { MatchesDatePattern(date) && IsValidCalendarDate(date) }

  predicate AmountOk(amount: int) {
    && -MAX_SAFE_INTEGER <= amount <= MAX_SAFE_INTEGER
    && amount != 0
    && -100_000_000 <= amount <= 100_000_000
  }

  predicate LineOk(line: int) { 0 < line <= MAX_OCR_TRANSACTIONS }

  const KEYS := {TransactionDate, MerchantRaw, MerchantName, Amount, CategoryField, Subcategory, LineNumber}

  predicate ParsesCommon(fields: map<Field, Json>) {
    && fields.Keys == KEYS
    && TextOf(fields, TransactionDate).Some? && DateOk(TextOf(fields, TransactionDate).value)
    && ParseText(fields, MerchantRaw, MAX_MERCHANT).Some?
    && ParseText(fields, MerchantName, MAX_MERCHANT).Some?
    && Integer(fields, Amount).Some? && AmountOk(Integer(fields, Amount).value)
    && TextOf(fields, CategoryField).Some? && TextOf(fields, CategoryField).value in CATEGORIES
    && Integer(fields, LineNumber).Some? && LineOk(Integer(fields, LineNumber).value)
  }

  /** The category admits the tool's subcategory. */
  predicate ToolSubcategoryOk(allowed: seq<Text>, subcategory: Text) {
    && subcategory in SUBCATEGORIES
    && (subcategory in allowed || subcategory == NONE)
    && !(|allowed| > 0 && subcategory == NONE)
  }

  predicate SubcategoryOk(j: Json, allowed: seq<Text>, stage: Stage) {
    match stage
    case Tool => j.String? && ToolSubcategoryOk(allowed, j.text)
    case Final => j.Null? || (j.String? && j.text in allowed)
  }

  function ParseTransaction(j: Json, stage: Stage): Option<OcrTransaction> {
    if j.Object? && ParsesCommon(j.fields) &&
       SubcategoryOk(j.fields[Subcategory], SubcategoriesOf(TextOf(j.fields, CategoryField).value), stage)
    then Some(OcrTransaction(
      TextOf(j.fields, TransactionDate).value,
      ParseText(j.fields, MerchantRaw, MAX_MERCHANT).value,
      ParseText(j.fields, MerchantName, MAX_MERCHANT).value,
      Integer(j.fields, Amount).value,
      TextOf(j.fields, CategoryField).value,
      TextOf(j.fields, Subcategory),
      Integer(j.fields, LineNumber).value))
    else None
  }

  // ---- all of them ----

  function Parser(stage: Stage): Json -> Option<OcrTransaction> {
    j => ParseTransaction(j, stage)
  }

  predicate RepeatsEarlier(lines: seq<int>, i: int)
    requires 0 <= i < |lines|
  {
    exists j :: 0 <= j < i && lines[j] == lines[i]
  }

  function LineNumbers(txs: seq<OcrTransaction>): seq<int> {
    seq(|txs|, (i: nat) requires i < |txs| => txs[i].line)
  }

  /** One issue for every line number that repeats an earlier one, in their order. */
  method ValidateLineNumbers(lines: seq<int>) returns (issues: seq<nat>)
    ensures forall i :: i in issues <==> 0 <= i < |lines| && RepeatsEarlier(lines, i)
    ensures forall a, b :: 0 <= a < b < |issues| ==> issues[a] < issues[b]
    ensures issues == [] <==> forall i :: 0 <= i < |lines| ==> !RepeatsEarlier(lines, i)
  {
    issues := [];
    var seen: set<int> := {};
    for index := 0 to |lines|
      invariant forall j :: 0 <= j < index ==> lines[j] in seen
      invariant forall l :: l in seen ==> exists j :: 0 <= j < index && lines[j] == l
      invariant forall i :: i in issues ==> 0 <= i < index && RepeatsEarlier(lines, i)
      invariant forall i :: 0 <= i < index && RepeatsEarlier(lines, i) ==> i in issues
      invariant forall a, b :: 0 <= a < b < |issues| ==> issues[a] < issues[b]
    {
      var line := lines[index];
      if line in seen {
        assert forall a :: 0 <= a < |issues| ==> issues[a] in issues;
        issues := issues + [index];
      }
      seen := seen + {line};
    }
    if issues != [] { assert issues[0] in issues; }
  }

  predicate NoRepeats(txs: seq<OcrTransaction>) {
    forall i :: 0 <= i < |txs| ==> !RepeatsEarlier(LineNumbers(txs), i)
  }

  function ItemsOf(input: Json): Option<seq<Json>> {
    if && input.Object? && input.fields.Keys == {Transactions}
       && input.fields[Transactions].Array? && 1 <= |input.fields[Transactions].items| <= MAX_OCR_TRANSACTIONS
    then Some(input.fields[Transactions].items)
    else None
  }

  function ParseItems(items: seq<Json>, stage: Stage): Option<seq<OcrTransaction>> {
    var parsed := ParseEach(items, Parser(stage));
    if parsed.Some? && NoRepeats(parsed.value) then parsed else None
  }

  function ParseTransactions(input: Json, stage: Stage): Option<seq<OcrTransaction>> {
    var items := ItemsOf(input);
    if items.Some? then ParseItems(items.value, stage) else None
  }

  function WithoutNone(t: OcrTransaction): OcrTransaction {
    if t.subcategory == Some(NONE) then t.(subcategory := None) else t
  }

  function AllWithoutNone(txs: seq<OcrTransaction>): seq<OcrTransaction> {
    seq(|txs|, (i: nat) requires i < |txs| => WithoutNone(txs[i]))
  }

  function EncodeSubcategory(subcategory: Option<Text>, stage: Stage): Json {
    if subcategory.Some? then String(subcategory.value)
    else if stage.Tool? then String(NONE)
    else Null
  }

  function Encode(t: OcrTransaction, stage: Stage): Json {
    Object(map[
      TransactionDate := String(t.date), MerchantRaw := String(t.merchantRaw), MerchantName := String(t.merchantName),
      Amount := Number(t.amount as real), CategoryField := String(t.category),
      Subcategory := EncodeSubcategory(t.subcategory, stage), LineNumber := Number(t.line as real)])
  }

  function EncodeList(txs: seq<OcrTransaction>, stage: Stage): seq<Json> {
    seq(|txs|, (i: nat) requires i < |txs| => Encode(txs[i], stage))
  }

  function EncodeAll(txs: seq<OcrTransaction>, stage: Stage): Json {
    Object(map[Transactions := Array(EncodeList(txs, stage))])
  }

  /** The tool's input is validated, "なし" becomes null, and the result is validated again. */
  function ParseOcrToolInput(input: Json): Result<seq<OcrTransaction>, OcrError> {
    var parsed := ParseTransactions(input, Tool);
    if parsed.None? then Failure(InvalidOcrResult)
    else
      var validated := ParseTransactions(EncodeAll(AllWithoutNone(parsed.value), Final), Final);
      if validated.None? then Failure(InvalidOcrResult) else Success(validated.value)
  }

  // ---- what is accepted ----

  predicate Sound(t: OcrTransaction) {
    && MatchesDatePattern(t.date) && RealDate(WrittenDate(t.date)) && WrittenDate(t.date).year >= 100
    && TidyText(t.merchantRaw, MAX_MERCHANT) && TidyText(t.merchantName, MAX_MERCHANT)
    && t.amount != 0 && -MAX_AMOUNT <= t.amount <= MAX_AMOUNT
    && t.category in CATEGORIES
    && (if SubcategoriesOf(t.category) == [] then t.subcategory.None?
        else t.subcategory.Some? && t.subcategory.value in SubcategoriesOf(t.category))
    && 1 <= t.line <= MAX_OCR_TRANSACTIONS
  }

  predicate Distinct(txs: seq<OcrTransaction>) {
    forall i, j :: 0 <= i < j < |txs| ==> txs[i].line != txs[j].line
  }

  predicate AllSound(txs: seq<OcrTransaction>) {
    && 1 <= |txs| <= MAX_OCR_TRANSACTIONS
    && (forall i :: 0 <= i < |txs| ==> Sound(txs[i]))
    && Distinct(txs)
  }

  lemma DateOkIsReal(date: Text)
    ensures DateOk(date) <==> MatchesDatePattern(date) && RealDate(WrittenDate(date)) && WrittenDate(date).year >= 100
  {
    if MatchesDatePattern(date) { CheckIsGregorian(date); }
  }

  lemma ListedAreNotNone(category: Text)
    ensures NONE !in SubcategoriesOf(category)
    ensures forall s :: s in SubcategoriesOf(category) ==> s in SUBCATEGORIES
  {
    assert NONE[0] == 0x306A;
    assert FOOD_SUBCATEGORIES[0][0] == 0x5916 && FOOD_SUBCATEGORIES[1][0] == 0x30B3;
    assert FOOD_SUBCATEGORIES[2][0] == 0x30B9 && FOOD_SUBCATEGORIES[3][0] == 0x30AB;
    assert TRANSPORT_SUBCATEGORIES[0][0] == 0x96FB && TRANSPORT_SUBCATEGORIES[1][0] == 0x30BF && TRANSPORT_SUBCATEGORIES[2][0] == 0x98DB;
    assert SHOPPING_SUBCATEGORIES[0][0] == 0x65E5 && SHOPPING_SUBCATEGORIES[1][0] == 0x8863 && SHOPPING_SUBCATEGORIES[2][0] == 69;
  }

  lemma ParsedIsSound(j: Json)
    ensures ParseTransaction(j, Tool).Some? ==> Sound(WithoutNone(ParseTransaction(j, Tool).value))
  {
    if ParseTransaction(j, Tool).Some? {
      ListedAreNotNone(TextOf(j.fields, CategoryField).value);
      DateOkIsReal(TextOf(j.fields, TransactionDate).value);
      ParseTextTidy(j.fields, MerchantRaw, MAX_MERCHANT);
      ParseTextTidy(j.fields, MerchantName, MAX_MERCHANT);
    }
  }

  function AtStage(t: OcrTransaction, stage: Stage): OcrTransaction {
    if stage.Tool? && t.subcategory.None? then t.(subcategory := Some(NONE)) else t
  }

  /** The fields hold exactly what t says. */
  predicate Writes(fields: map<Field, Json>, t: OcrTransaction, stage: Stage) {
    && fields.Keys == KEYS
    && fields[TransactionDate] == String(t.date)
    && fields[MerchantRaw] == String(t.merchantRaw)
    && fields[MerchantName] == String(t.merchantName)
    && fields[Amount] == Number(t.amount as real)
    && fields[CategoryField] == String(t.category)
    && fields[Subcategory] == EncodeSubcategory(t.subcategory, stage)
    && fields[LineNumber] == Number(t.line as real)
  }

  lemma EncodeWrites(t: OcrTransaction, stage: Stage)
    ensures Writes(Encode(t, stage).fields, t, stage)
  {
  }

  predicate Reads(fields: map<Field, Json>, t: OcrTransaction) {
    && fields.Keys == KEYS
    && TextOf(fields, TransactionDate) == Some(t.date)
    && ParseText(fields, MerchantRaw, MAX_MERCHANT) == Some(t.merchantRaw)
    && ParseText(fields, MerchantName, MAX_MERCHANT) == Some(t.merchantName)
    && Integer(fields, Amount) == Some(t.amount)
    && TextOf(fields, CategoryField) == Some(t.category)
    && Integer(fields, LineNumber) == Some(t.line)
  }

  lemma WrittenIsRead(fields: map<Field, Json>, t: OcrTransaction, stage: Stage)
    requires Writes(fields, t, stage) && TidyText(t.merchantRaw, MAX_MERCHANT) && TidyText(t.merchantName, MAX_MERCHANT)
    ensures Reads(fields, t)
  {
    TidyTextParses(fields, MerchantRaw, t.merchantRaw, MAX_MERCHANT);
    TidyTextParses(fields, MerchantName, t.merchantName, MAX_MERCHANT);
    IntegerParses(fields, Amount, t.amount);
    IntegerParses(fields, LineNumber, t.line);
  }

  lemma SoundCommonParses(fields: map<Field, Json>, t: OcrTransaction)
    requires Sound(t) && Reads(fields, t)
    ensures ParsesCommon(fields)
  {
    DateOkIsReal(t.date);
  }

  lemma IntegerParses(fields: map<Field, Json>, key: Field, n: int)
    requires key in fields && fields[key] == Number(n as real)
    ensures Integer(fields, key) == Some(n)
  {
  }

  lemma SoundSubcategoryParses(t: OcrTransaction, stage: Stage)
    requires Sound(t)
    ensures SubcategoryOk(EncodeSubcategory(t.subcategory, stage), SubcategoriesOf(t.category), stage)
  {
    ListedAreNotNone(t.category);
  }

  lemma SoundParses(t: OcrTransaction, stage: Stage)
    requires Sound(t)
    ensures ParseTransaction(Encode(t, stage), stage) == Some(AtStage(t, stage))
  {
    EncodeWrites(t, stage);
    WrittenIsRead(Encode(t, stage).fields, t, stage);
    SoundCommonParses(Encode(t, stage).fields, t);
    SoundSubcategoryParses(t, stage);
  }

  function AllAtStage(txs: seq<OcrTransaction>, stage: Stage): seq<OcrTransaction> {
    seq(|txs|, (i: nat) requires i < |txs| => AtStage(txs[i], stage))
  }

  lemma EncodedListParses(txs: seq<OcrTransaction>, stage: Stage)
    requires forall i :: 0 <= i < |txs| ==> Sound(txs[i])
    ensures ParseEach(EncodeList(txs, stage), Parser(stage)) == Some(AllAtStage(txs, stage))
  {
    forall i | 0 <= i < |txs| ensures Parser(stage)(EncodeList(txs, stage)[i]) == Some(AllAtStage(txs, stage)[i]) {
      SoundParses(txs[i], stage);
    }
    EachParses(EncodeList(txs, stage), AllAtStage(txs, stage), Parser(stage));
  }

  lemma NoRepeatsMeansDistinct(txs: seq<OcrTransaction>)
    ensures NoRepeats(txs) <==> Distinct(txs)
  {
    var lines := LineNumbers(txs);
    forall i, j | 0 <= i < j < |txs| && NoRepeats(txs) ensures txs[i].line != txs[j].line {
      assert !RepeatsEarlier(lines, j) && lines[i] == txs[i].line && lines[j] == txs[j].line;
    }
  }

  lemma StagesKeepLines(txs: seq<OcrTransaction>, stage: Stage)
    requires Distinct(txs)
    ensures NoRepeats(AllAtStage(txs, stage))
  {
    NoRepeatsMeansDistinct(AllAtStage(txs, stage));
  }

  lemma EncodedItems(txs: seq<OcrTransaction>, stage: Stage)
    requires 1 <= |txs| <= MAX_OCR_TRANSACTIONS
    ensures ItemsOf(EncodeAll(txs, stage)) == Some(EncodeList(txs, stage))
  {
    assert EncodeAll(txs, stage).fields.Keys == {Transactions};
  }

  /** A list of sound transactions passes either stage. */
  lemma SoundListParses(txs: seq<OcrTransaction>, stage: Stage)
    requires AllSound(txs)
    ensures ParseTransactions(EncodeAll(txs, stage), stage) == Some(AllAtStage(txs, stage))
  {
    EncodedListParses(txs, stage);
    StagesKeepLines(txs, stage);
    EncodedItems(txs, stage);
  }

  lemma ParsedItemsAreSound(items: seq<Json>)
    requires ParseItems(items, Tool).Some?
    ensures |ParseItems(items, Tool).value| == |items|
    ensures forall i :: 0 <= i < |items| ==> Sound(WithoutNone(ParseItems(items, Tool).value[i]))
  {
    ParsedEach(items, Parser(Tool));
    forall i | 0 <= i < |items| ensures Sound(WithoutNone(ParseItems(items, Tool).value[i])) { ParsedIsSound(items[i]); }
  }

  lemma SoundWithoutNone(txs: seq<OcrTransaction>)
    requires 1 <= |txs| <= MAX_OCR_TRANSACTIONS && Distinct(txs)
    requires forall i :: 0 <= i < |txs| ==> Sound(WithoutNone(txs[i]))
    ensures AllSound(AllWithoutNone(txs))
  {
  }

  lemma ParsedListIsSound(input: Json)
    ensures ParseTransactions(input, Tool).Some? ==> AllSound(AllWithoutNone(ParseTransactions(input, Tool).value))
  {
    var txs := ParseTransactions(input, Tool);
    if txs.Some? {
      ParsedItemsAreSound(ItemsOf(input).value);
      NoRepeatsMeansDistinct(txs.value);
      SoundWithoutNone(txs.value);
    }
  }

  lemma FinalKeepsAll(txs: seq<OcrTransaction>)
    requires AllSound(txs)
    ensures ParseTransactions(EncodeAll(txs, Final), Final) == Some(txs)
  {
    SoundListParses(txs, Final);
    assert AllAtStage(txs, Final) == txs;
  }

  /** The second validation never refuses, and changes nothing: the outcome is decided by the first. */
  lemma SecondPassNeverRefuses(input: Json)
    ensures ParseOcrToolInput(input) ==
      (if ParseTransactions(input, Tool).None? then Failure(InvalidOcrResult)
       else Success(AllWithoutNone(ParseTransactions(input, Tool).value)))
  {
    if ParseTransactions(input, Tool).Some? {
      ParsedListIsSound(input);
      FinalKeepsAll(AllWithoutNone(ParseTransactions(input, Tool).value));
    }
  }

  /** Whatever is accepted is sound. */
  lemma AcceptedIsSound(input: Json)
    ensures ParseOcrToolInput(input).Success? ==> AllSound(ParseOcrToolInput(input).value)
  {
    SecondPassNeverRefuses(input);
    ParsedListIsSound(input);
  }

  /** And whatever is sound can be written so that it is accepted as it is. */
  lemma SoundIsAccepted(txs: seq<OcrTransaction>)
    requires AllSound(txs)
    ensures ParseOcrToolInput(EncodeAll(txs, Tool)) == Success(txs)
  {
    SoundListParses(txs, Tool);
    SecondPassNeverRefuses(EncodeAll(txs, Tool));
    forall i | 0 <= i < |txs| ensures WithoutNone(AtStage(txs[i], Tool)) == txs[i] { ListedAreNotNone(txs[i].category); }
    assert AllWithoutNone(AllAtStage(txs, Tool)) == txs;
  }

  // ---- what the transactions table and the aggregates rely on ----

  function ToTransaction(t: OcrTransaction): Transaction
    requires Sound(t)
  {
    Transaction(t.line, WrittenDate(t.date), t.merchantRaw, t.merchantName, t.amount, t.category, t.subcategory)
  }

  function ToTransactions(txs: seq<OcrTransaction>): seq<Transaction>
    requires AllSound(txs)
  {
    seq(|txs|, (i: nat) requires i < |txs| => ToTransaction(txs[i]))
  }

  lemma SoundFits(t: OcrTransaction)
    requires Sound(t)
    ensures var u := ToTransaction(t);
      RealDate(u.date) && 1 <= u.line <= MAX_LINES && u.line == t.line && -MAX_AMOUNT <= u.amount <= MAX_AMOUNT
  {
  }

  lemma SoundListFits(txs: seq<OcrTransaction>)
    requires AllSound(txs)
    ensures var lines := ToTransactions(txs);
      Analyzable(lines) && Small(lines) && forall i :: 0 <= i < |lines| ==> RealDate(lines[i].date)
  {
    forall i | 0 <= i < |txs|
      ensures var u := ToTransactions(txs)[i];
        RealDate(u.date) && 1 <= u.line <= MAX_LINES && u.line == txs[i].line && -MAX_AMOUNT <= u.amount <= MAX_AMOUNT
    {
      SoundFits(txs[i]);
    }
  }

  predicate FitTheTables(lines: seq<Transaction>) {
    && lines != [] && Analyzable(lines)
    && WithinOcrBounds(StoredStatement(Completed, lines))
    && |UpsertAll(map[], lines)| == |lines|
    && forall i :: 0 <= i < |lines| ==> RealDate(lines[i].date)
  }

  lemma SoundListFitsTheTables(txs: seq<OcrTransaction>)
    requires AllSound(txs)
    ensures FitTheTables(ToTransactions(txs))
  {
    SoundListFits(txs);
    UpsertAllStoresEach(ToTransactions(txs));
  }

  /** Accepted lines have distinct numbers, real dates and amounts within what the monthly sums can bear. */
  lemma AcceptedFitsTheTables(input: Json)
    ensures ParseOcrToolInput(input).Success? ==>
      AllSound(ParseOcrToolInput(input).value) && FitTheTables(ToTransactions(ParseOcrToolInput(input).value))
  {
    AcceptedIsSound(input);
    if ParseOcrToolInput(input).Success? { SoundListFitsTheTables(ParseOcrToolInput(input).value); }
  }
}
