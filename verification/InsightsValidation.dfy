/** Insights documents: the schema, the checks against the analytics, and the stored form. */
module InsightsValidation {
  import opened Wrappers
  import opened Texts
  import opened Documents
  import opened Sorting
  import opened MonthlyAnalytics
  import opened InsightsInput

  const INFO := Units("info")
  const WARNING := Units("warning")
  const CATEGORY_INCREASE := Units("CATEGORY_INCREASE")
  const MERCHANT_INCREASE := Units("MERCHANT_INCREASE")
  const NOTABLE_SPENDING := Units("NOTABLE_SPENDING")

  // ---- the schema ----

  datatype SeverityLevel = Info | Warning

  datatype Insight =
    | CategoryIncrease(severity: SeverityLevel, title: Text, description: Text, category: Text)
    | MerchantIncrease(severity: SeverityLevel, title: Text, description: Text, merchant: Text)
    | NotableSpending(severity: SeverityLevel, title: Text, description: Text, aboutCategory: Option<Text>, aboutMerchant: Option<Text>)

  type Document = seq<Insight>

  const MAX_TITLE: nat := 80
  const MAX_DESCRIPTION: nat := 300
  const MAX_NAME: nat := 100
  const MAX_INSIGHTS: nat := 5

  function ParseSeverity(fields: map<Field, Json>): Option<SeverityLevel> {
    if Severity in fields && fields[Severity] == String(INFO) then Some(Info)
    else if Severity in fields && fields[Severity] == String(WARNING) then Some(Warning)
    else None
  }

  predicate HasType(fields: map<Field, Json>, name: Text) {
    TypeField in fields && fields[TypeField] == String(name)
  }

  const COMMON := {TypeField, Severity, Title, Description}

  predicate ParsesCommon(fields: map<Field, Json>) {
    ParseSeverity(fields).Some? && ParseText(fields, Title, MAX_TITLE).Some? && ParseText(fields, Description, MAX_DESCRIPTION).Some?
  }

  function ParseIncrease(fields: map<Field, Json>, name: Text, key: Field): Option<(SeverityLevel, Text, Text, Text)> {
    if fields.Keys <= COMMON + {key} && HasType(fields, name) && ParsesCommon(fields) && ParseText(fields, key, MAX_NAME).Some?
    then Some((
      ParseSeverity(fields).value,
      ParseText(fields, Title, MAX_TITLE).value,
      ParseText(fields, Description, MAX_DESCRIPTION).value,
      ParseText(fields, key, MAX_NAME).value))
    else None
  }

  predicate OptionalOk(fields: map<Field, Json>, key: Field) {
    key in fields ==> ParseText(fields, key, MAX_NAME).Some?
  }

  function ParseNotable(fields: map<Field, Json>): Option<Insight> {
    if && fields.Keys <= COMMON + {CategoryField, MerchantField}
       && HasType(fields, NOTABLE_SPENDING) && ParsesCommon(fields)
       && OptionalOk(fields, CategoryField) && OptionalOk(fields, MerchantField)
       && (CategoryField in fields || MerchantField in fields)
    then Some(NotableSpending(
      ParseSeverity(fields).value,
      ParseText(fields, Title, MAX_TITLE).value,
      ParseText(fields, Description, MAX_DESCRIPTION).value,
      ParseText(fields, CategoryField, MAX_NAME),
      ParseText(fields, MerchantField, MAX_NAME)))
    else None
  }

  /** The union takes the first alternative that parses. */
  function ParseInsight(j: Json): Option<Insight> {
    if !j.Object? then None
    else
      var c := ParseIncrease(j.fields, CATEGORY_INCREASE, CategoryField);
      var m := ParseIncrease(j.fields, MERCHANT_INCREASE, MerchantField);
      if c.Some? then Some(CategoryIncrease(c.value.0, c.value.1, c.value.2, c.value.3))
      else if m.Some? then Some(MerchantIncrease(m.value.0, m.value.1, m.value.2, m.value.3))
      else ParseNotable(j.fields)
  }

  function ParseDocument(raw: Json): Option<Document> {
    if raw.Object? && raw.fields.Keys == {Insights} && raw.fields[Insights].Array? && |raw.fields[Insights].items| <= MAX_INSIGHTS
    then ParseEach(raw.fields[Insights].items, ParseInsight)
    else None
  }

  // ---- the checks against the analytics ----

  datatype InsightsError = InvalidInsightsResponse

  predicate HasBucket(buckets: seq<ReportBucket>, name: Text) {
    exists i :: 0 <= i < |buckets| && buckets[i].name == name
  }

  /** Array.prototype.find. */
  function FindBucket(buckets: seq<ReportBucket>, name: Text): Option<ReportBucket> {
    if buckets == [] then None
    else if buckets[0].name == name then Some(buckets[0])
    else FindBucket(buckets[1..], name)
  }

  predicate HasIncrease(buckets: seq<ReportBucket>, name: Text) {
    var b := FindBucket(buckets, name);
    b.Some? && b.value.previousAmount.Some? && b.value.amountChange.Some? && b.value.amountChange.value > 0
  }

  predicate Acceptable(insight: Insight, input: CompactInput) {
    match insight
    case CategoryIncrease(_, _, _, name) =>
      input.previous.Some? && HasBucket(input.categories, name) && HasIncrease(input.categories, name)
    case MerchantIncrease(_, _, _, name) =>
      input.previous.Some? && HasBucket(input.merchants, name) && HasIncrease(input.merchants, name)
    case NotableSpending(_, _, _, category, merchant) =>
      && (category.Some? ==> HasBucket(input.categories, category.value))
      && (merchant.Some? ==> HasBucket(input.merchants, merchant.value))
  }

  predicate AllAcceptable(document: Document, input: CompactInput) {
    forall i :: 0 <= i < |document| ==> Acceptable(document[i], input)
  }

  function Validate(raw: Json, input: CompactInput): Result<Document, InsightsError> {
    var parsed := ParseDocument(raw);
    if parsed.Some? && AllAcceptable(parsed.value, input) then Success(parsed.value) else Failure(InvalidInsightsResponse)
  }

  // ---- the stored form ----

  function EncodeSeverity(level: SeverityLevel): Json {
    String(if level.Info? then INFO else WARNING)
  }

  function CommonFields(name: Text, insight: Insight): map<Field, Json> {
    map[
      TypeField := String(name), Severity := EncodeSeverity(insight.severity),
      Title := String(insight.title), Description := String(insight.description)]
  }

  function Optional(fields: map<Field, Json>, key: Field, value: Option<Text>): map<Field, Json> {
    if value.Some? then fields[key := String(value.value)] else fields
  }

  function EncodeInsight(insight: Insight): Json {
    Object(match insight
      case CategoryIncrease(_, _, _, name) => CommonFields(CATEGORY_INCREASE, insight)[CategoryField := String(name)]
      case MerchantIncrease(_, _, _, name) => CommonFields(MERCHANT_INCREASE, insight)[MerchantField := String(name)]
      case NotableSpending(_, _, _, category, merchant) =>
        Optional(Optional(CommonFields(NOTABLE_SPENDING, insight), CategoryField, category), MerchantField, merchant))
  }

  function EncodeAll(document: Document): seq<Json> {
    seq(|document|, (i: nat) requires i < |document| => EncodeInsight(document[i]))
  }

  /** JSON.stringify of the validated document; a key whose value is undefined is left out. */
  function Encode(document: Document): Json {
    Object(map[Insights := Array(EncodeAll(document))])
  }

  // ---- a parsed document parses to itself ----

  predicate Tidy(insight: Insight) {
    && TidyText(insight.title, MAX_TITLE) && TidyText(insight.description, MAX_DESCRIPTION)
    && match insight
       case CategoryIncrease(_, _, _, name) => TidyText(name, MAX_NAME)
       case MerchantIncrease(_, _, _, name) => TidyText(name, MAX_NAME)
       case NotableSpending(_, _, _, category, merchant) =>
         && (category.Some? || merchant.Some?)
         && (category.Some? ==> TidyText(category.value, MAX_NAME))
         && (merchant.Some? ==> TidyText(merchant.value, MAX_NAME))
  }

  lemma LiteralsDiffer()
    ensures INFO != WARNING
    ensures CATEGORY_INCREASE != MERCHANT_INCREASE && CATEGORY_INCREASE != NOTABLE_SPENDING && MERCHANT_INCREASE != NOTABLE_SPENDING
  {
    assert |INFO| == 4 && |WARNING| == 7;
    assert CATEGORY_INCREASE[0] == 67 && MERCHANT_INCREASE[0] == 77 && NOTABLE_SPENDING[0] == 78;
  }

  lemma ParsedIsTidy(j: Json)
    requires ParseInsight(j).Some?
    ensures Tidy(ParseInsight(j).value)
  {
    ParseTextTidy(j.fields, Title, MAX_TITLE);
    ParseTextTidy(j.fields, Description, MAX_DESCRIPTION);
    ParseTextTidy(j.fields, CategoryField, MAX_NAME);
    ParseTextTidy(j.fields, MerchantField, MAX_NAME);
  }

  lemma CommonParses(fields: map<Field, Json>, name: Text, insight: Insight)
    requires TidyText(insight.title, MAX_TITLE) && TidyText(insight.description, MAX_DESCRIPTION)
    requires forall k :: k in CommonFields(name, insight) ==> k in fields && fields[k] == CommonFields(name, insight)[k]
    ensures ParsesCommon(fields) && forall other :: HasType(fields, other) <==> other == name
    ensures ParseSeverity(fields) == Some(insight.severity)
    ensures ParseText(fields, Title, MAX_TITLE) == Some(insight.title)
    ensures ParseText(fields, Description, MAX_DESCRIPTION) == Some(insight.description)
  {
    LiteralsDiffer();
    var common := CommonFields(name, insight);
    assert TypeField in common && Severity in common && Title in common && Description in common;
    TidyTextStays(insight.title, MAX_TITLE);
    TidyTextStays(insight.description, MAX_DESCRIPTION);
  }

  lemma CategoryParsesBack(insight: Insight)
    requires Tidy(insight) && insight.CategoryIncrease?
    ensures ParseInsight(EncodeInsight(insight)) == Some(insight)
  {
    var fields := EncodeInsight(insight).fields;
    CommonParses(fields, CATEGORY_INCREASE, insight);
    TidyTextParses(fields, CategoryField, insight.category, MAX_NAME);
  }

  lemma MerchantParsesBack(insight: Insight)
    requires Tidy(insight) && insight.MerchantIncrease?
    ensures ParseInsight(EncodeInsight(insight)) == Some(insight)
  {
    LiteralsDiffer();
    var fields := EncodeInsight(insight).fields;
    CommonParses(fields, MERCHANT_INCREASE, insight);
    TidyTextParses(fields, MerchantField, insight.merchant, MAX_NAME);
  }

  lemma OptionalParses(fields: map<Field, Json>, key: Field, value: Option<Text>)
    requires key in fields <==> value.Some?
    requires value.Some? ==> TidyText(value.value, MAX_NAME) && fields[key] == String(value.value)
    ensures OptionalOk(fields, key) && ParseText(fields, key, MAX_NAME) == value
  {
    if value.Some? { TidyTextParses(fields, key, value.value, MAX_NAME); }
  }

  lemma NotableFieldsParse(insight: Insight)
    requires Tidy(insight) && insight.NotableSpending?
    ensures ParseNotable(EncodeInsight(insight).fields) == Some(insight)
  {
    var fields := EncodeInsight(insight).fields;
    CommonParses(fields, NOTABLE_SPENDING, insight);
    OptionalParses(fields, CategoryField, insight.aboutCategory);
    OptionalParses(fields, MerchantField, insight.aboutMerchant);
  }

  lemma NotableParsesBack(insight: Insight)
    requires Tidy(insight) && insight.NotableSpending?
    ensures ParseInsight(EncodeInsight(insight)) == Some(insight)
  {
    LiteralsDiffer();
    NotableFieldsParse(insight);
    assert EncodeInsight(insight).fields[TypeField] == String(NOTABLE_SPENDING);
  }

  lemma EncodedParsesBack(insight: Insight)
    requires Tidy(insight)
    ensures ParseInsight(EncodeInsight(insight)) == Some(insight)
  {
    match insight
    case CategoryIncrease(_, _, _, _) => CategoryParsesBack(insight);
    case MerchantIncrease(_, _, _, _) => MerchantParsesBack(insight);
    case NotableSpending(_, _, _, _, _) => NotableParsesBack(insight);
  }

  lemma EncodeAllParsesBack(document: Document)
    requires forall i :: 0 <= i < |document| ==> Tidy(document[i])
    ensures ParseEach(EncodeAll(document), ParseInsight) == Some(document)
  {
    forall i | 0 <= i < |document| ensures ParseInsight(EncodeAll(document)[i]) == Some(document[i]) {
      EncodedParsesBack(document[i]);
    }
    EachParses(EncodeAll(document), document, ParseInsight);
  }

  lemma ParseAllTidy(items: seq<Json>)
    requires ParseEach(items, ParseInsight).Some?
    ensures |ParseEach(items, ParseInsight).value| == |items|
    ensures forall i :: 0 <= i < |items| ==> Tidy(ParseEach(items, ParseInsight).value[i])
  {
    ParsedEach(items, ParseInsight);
    forall i | 0 <= i < |items| ensures Tidy(ParseEach(items, ParseInsight).value[i]) { ParsedIsTidy(items[i]); }
  }

  /** What the schema has accepted, stored and read back, it accepts again, as the same document. */
  lemma ParsedDocumentIsStable(raw: Json)
    requires ParseDocument(raw).Some?
    ensures ParseDocument(Encode(ParseDocument(raw).value)) == ParseDocument(raw)
  {
    ParseAllTidy(raw.fields[Insights].items);
    EncodeAllParsesBack(ParseDocument(raw).value);
  }

  // ---- the fingerprint covers all the validator looks at ----

  lemma {:induction false} InsertFinds(x: ReportBucket, sorted: seq<ReportBucket>, name: Text)
    ensures FindBucket(Insert(x, sorted, NameLess), name) == if x.name == name then Some(x) else FindBucket(sorted, name)
  {
    if sorted != [] && NameLess(sorted[0], x) {
      TextLessIrreflexive(x.name);
      InsertFinds(x, sorted[1..], name);
    }
  }

  /** The sort is stable, so the first bucket of a name is the same before and after. */
  lemma {:induction false} SortFinds(buckets: seq<ReportBucket>, name: Text)
    ensures FindBucket(Sort(buckets, NameLess), name) == FindBucket(buckets, name)
  {
    if buckets != [] {
      SortFinds(buckets[1..], name);
      InsertFinds(buckets[0], Sort(buckets[1..], NameLess), name);
    }
  }

  lemma {:induction false} FindIsHas(buckets: seq<ReportBucket>, name: Text)
    ensures FindBucket(buckets, name).Some? <==> HasBucket(buckets, name)
  {
    if buckets != [] {
      FindIsHas(buckets[1..], name);
      assert HasBucket(buckets[1..], name) ==> HasBucket(buckets, name) by {
        if HasBucket(buckets[1..], name) {
          var i :| 0 <= i < |buckets[1..]| && buckets[1..][i].name == name;
          assert buckets[i + 1].name == name;
        }
      }
      if HasBucket(buckets, name) && buckets[0].name != name {
        var i :| 0 <= i < |buckets| && buckets[i].name == name;
        assert buckets[1..][i - 1].name == name;
      }
    }
  }

  lemma BucketsAgree(a: seq<ReportBucket>, b: seq<ReportBucket>, name: Text)
    requires Sort(a, NameLess) == Sort(b, NameLess)
    ensures HasBucket(a, name) == HasBucket(b, name) && HasIncrease(a, name) == HasIncrease(b, name)
  {
    SortFinds(a, name);
    SortFinds(b, name);
    FindIsHas(a, name);
    FindIsHas(b, name);
  }

  lemma AcceptableAgrees(insight: Insight, a: CompactInput, b: CompactInput)
    requires FingerprintOf(a) == FingerprintOf(b)
    ensures Acceptable(insight, a) == Acceptable(insight, b)
  {
    match insight
    case CategoryIncrease(_, _, _, name) => BucketsAgree(a.categories, b.categories, name);
    case MerchantIncrease(_, _, _, name) => BucketsAgree(a.merchants, b.merchants, name);
    case NotableSpending(_, _, _, category, merchant) =>
      if category.Some? { BucketsAgree(a.categories, b.categories, category.value); }
      if merchant.Some? { BucketsAgree(a.merchants, b.merchants, merchant.value); }
  }

  /** The same fingerprint, whatever the names: the validator cannot tell the inputs apart. */
  lemma ValidateAgrees(raw: Json, a: CompactInput, b: CompactInput)
    requires FingerprintOf(a) == FingerprintOf(b)
    ensures Validate(raw, a) == Validate(raw, b)
  {
    forall insight ensures Acceptable(insight, a) == Acceptable(insight, b) { AcceptableAgrees(insight, a, b); }
  }

  /** A row the service has written revalidates to the same document for every input of its fingerprint. */
  lemma StoredDocumentRevalidates(raw: Json, writer: CompactInput, reader: CompactInput)
    requires Validate(raw, writer).Success? && FingerprintOf(writer) == FingerprintOf(reader)
    ensures Validate(Encode(Validate(raw, writer).value), reader) == Validate(raw, writer)
  {
    ParsedDocumentIsStable(raw);
    ValidateAgrees(Encode(Validate(raw, writer).value), writer, reader);
  }
}
