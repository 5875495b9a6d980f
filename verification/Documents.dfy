/** JSON values as the schemas see them, and what the schemas share. */
module Documents {
  import opened Wrappers
  import opened Texts

  /** The keys some schema knows, and all others. */
  datatype Field =
    | TypeField | Severity | Title | Description | CategoryField | MerchantField | Insights
    | Transactions | TransactionDate | MerchantRaw | MerchantName | Amount | Subcategory | LineNumber
    | OtherField(name: Text)

  datatype Json =
    | Null
    | Bool(value: bool)
    | Number(number: real)
    | String(text: Text)
    | Array(items: seq<Json>)
    | Object(fields: map<Field, Json>)

  /** z.string().trim().min(1).max(max) on a required key. */
  function ParseText(fields: map<Field, Json>, key: Field, max: nat): Option<Text> {
    if key in fields && fields[key].String? && 1 <= |Trim(fields[key].text)| <= max
    then Some(Trim(fields[key].text))
    else None
  }

  predicate TidyText(s: Text, max: nat) {
    Trimmed(s) && 1 <= |s| <= max
  }

  lemma ParseTextTidy(fields: map<Field, Json>, key: Field, max: nat)
    ensures ParseText(fields, key, max).Some? ==> TidyText(ParseText(fields, key, max).value, max)
  {
    if ParseText(fields, key, max).Some? { TrimTrims(fields[key].text); }
  }

  lemma TidyTextStays(s: Text, max: nat)
    requires TidyText(s, max)
    ensures Trim(s) == s
  {
  }

  lemma TidyTextParses(fields: map<Field, Json>, key: Field, s: Text, max: nat)
    requires key in fields && fields[key] == String(s) && TidyText(s, max)
    ensures ParseText(fields, key, max) == Some(s)
  {
    TidyTextStays(s, max);
  }

  // ---- arrays ----

  /** z.array: every item parses, or the array does not. */
  function ParseEach<A, B>(items: seq<A>, parse: A -> Option<B>): Option<seq<B>> {
    if items == [] then Some([])
    else
      var head, tail := parse(items[0]), ParseEach(items[1..], parse);
      if head.Some? && tail.Some? then Some([head.value] + tail.value) else None
  }

  lemma {:induction false} ParsedEach<A, B>(items: seq<A>, parse: A -> Option<B>)
    requires ParseEach(items, parse).Some?
    ensures |ParseEach(items, parse).value| == |items|
    ensures forall i :: 0 <= i < |items| ==> parse(items[i]) == Some(ParseEach(items, parse).value[i])
  {
    if items != [] { ParsedEach(items[1..], parse); }
  }

  lemma {:induction false} EachParses<A, B>(items: seq<A>, values: seq<B>, parse: A -> Option<B>)
    requires |items| == |values| && forall i :: 0 <= i < |items| ==> parse(items[i]) == Some(values[i])
    ensures ParseEach(items, parse) == Some(values)
  {
    if items != [] {
      assert forall i :: 0 <= i < |items[1..]| ==> items[1..][i] == items[i + 1];
      EachParses(items[1..], values[1..], parse);
      assert values == [values[0]] + values[1..];
    }
  }
}
