/** Concrete documents run through the decoder and the row builder. */
module Scenarios {
  import opened Json
  import opened Extractor
  import opened Rows
  import Schema
  import StrJoin

  function NamedOption(name: string): Json {
    JObj(map["name" := JStr(name)])
  }

  function Span(text: string): Json {
    JObj(map["plain_text" := JStr(text)])
  }

  /** Three options are joined in order with ", ". */
  lemma MultiSelectThree()
    ensures SafeGet(map["Tags" := JObj(map["multi_select" := JArr([NamedOption("A"), NamedOption("B"), NamedOption("C")])])],
                    "Tags", MultiSelect)
      == JStr("A" + Separator + "B" + Separator + "C")
  {
    var abc := [NamedOption("A"), NamedOption("B"), NamedOption("C")];
    assert Schema.ListOfTexts(abc, "name", ["A", "B", "C"]);
    Schema.SafeGetAgreesWithSchema(map["Tags" := JObj(map["multi_select" := JArr(abc)])], "Tags",
      Schema.MultiSelectValue(["A", "B", "C"]));
    JoinThree("A", "B", "C");
  }

  lemma JoinThree(a: string, b: string, c: string)
    ensures StrJoin.Join(Separator, [a, b, c]) == a + Separator + b + Separator + c
  {
    assert [a, b, c][1..] == [b, c];
    assert [b, c][1..] == [c];
    assert StrJoin.Join(Separator, [c]) == c;
    var tail := StrJoin.Join(Separator, [b, c]);
    assert tail == b + Separator + c;
    assert StrJoin.Join(Separator, [a, b, c]) == a + Separator + tail;
    assert a + Separator + (b + Separator + c) == a + Separator + b + Separator + c;
  }

  /** No options give "", and one option without a name makes the whole
      result "". */
  lemma MultiSelectEmptyAndBroken()
    ensures SafeGet(map["Tags" := JObj(map["multi_select" := JArr([])])], "Tags", MultiSelect) == JStr("")
    ensures SafeGet(map["Tags" := JObj(map["multi_select" := JArr([NamedOption("A"), JObj(map[])])])], "Tags", MultiSelect)
      == JStr("")
  {
  }

  /** A url is shown as stored; a null url and a missing property show "". */
  lemma UrlExamples()
    ensures SafeGet(map["Link" := JObj(map["url" := JStr("http://x")])], "Link", Url) == JStr("http://x")
    ensures SafeGet(map["Link" := JObj(map["url" := JNull])], "Link", Url) == JStr("")
    ensures SafeGet(map[], "Link", Url) == JStr("")
  {
  }

  /** The title kind: text, placeholder, and "" for a malformed value. */
  lemma TitleExamples()
    ensures SafeGet(map["Name" := JObj(map["title" := JArr([Span("Ramen")])])], "Name", Title) == JStr("Ramen")
    ensures SafeGet(map["Name" := JObj(map["title" := JArr([])])], "Name", Title) == JStr(Placeholder)
    ensures SafeGet(map["Name" := JObj(map["rich_text" := JArr([Span("Ramen")])])], "Name", Title) == JStr("")
    ensures SafeGet(map["Name" := JObj(map["title" := JArr([JObj(map[])])])], "Name", Title) == JStr("")
    ensures SafeGet(map["Name" := JNum(3.0)], "Name", Title) == JStr("")
  {
  }

  /** A page whose only property is a one-span title: the title column shows
      the span's text and every other column "". */
  lemma NoodleShopRow()
    ensures var row := BuildRow(map["Name" := JObj(map["title" := JArr([Span("Noodle Shop")])])]);
      && row["標題"] == JStr("Noodle Shop")
      && forall h :: h in row && h != "標題" ==> row[h] == JStr("")
  {
  }
}
