/** The Notion property schema as a tagged union, decoded explicitly per kind,
    with an explicit display rule per variant. This is the reference the
    duck-typed decoder is checked against: on every property value that
    conforms to the schema, `safe_get` shows exactly what the typed rule says,
    and always a str.
 */
module Schema {
  import opened Outcomes
  import opened Json
  import StrJoin
  import opened Extractor

  /** A property value as the Notion schema types it. Rich-text spans are
      represented by their `plain_text`, options by their `name`. */
  datatype PropertyValue =
    | TitleValue(spans: seq<string>)
    | RichTextValue(spans: seq<string>)
    | SelectValue(option: Option<string>)
    | MultiSelectValue(options: seq<string>)
    | UrlValue(url: Option<string>)

  /** The kind name Notion tags the value with. */
  function KindOf(v: PropertyValue): (k: Kind)
    ensures k != Unrecognised
  {
    match v
    case TitleValue(_) => Title
    case RichTextValue(_) => RichText
    case SelectValue(_) => Select
    case MultiSelectValue(_) => MultiSelect
    case UrlValue(_) => Url
  }

  /** The display string of each variant, with its default written out. */
  function Display(v: PropertyValue): string {
    match v
    case TitleValue(spans) => if |spans| > 0 then spans[0] else Placeholder
    case RichTextValue(spans) => if |spans| > 0 then spans[0] else ""
    case SelectValue(option) => if option.Some? then option.value else ""
    case MultiSelectValue(options) => StrJoin.Join(Separator, options)
    case UrlValue(url) => if url.Some? then url.value else ""
  }

  /** `items` is a list of dicts whose `field` entries are the strs `texts`,
      in order. Other keys (annotations, ids, colours) may be present. */
  predicate ListOfTexts(items: seq<Json>, field: string, texts: seq<string>) {
    && |items| == |texts|
    && forall i :: 0 <= i < |items| ==> HasKey(items[i], field) && items[i].fields[field] == JStr(texts[i])
  }

  /** `j` is a dict that carries the typed value `v` under its kind key, as
      Notion serialises it. */
  predicate Conforms(j: Json, v: PropertyValue) {
    HasKey(j, KindOf(v).Name()) &&
    var inner := j.fields[KindOf(v).Name()];
    match v
    case TitleValue(spans) => inner.JArr? && ListOfTexts(inner.items, "plain_text", spans)
    case RichTextValue(spans) => inner.JArr? && ListOfTexts(inner.items, "plain_text", spans)
    case SelectValue(None) => inner == JNull
    case SelectValue(Some(name)) => HasKey(inner, "name") && inner.fields["name"] == JStr(name)
    case MultiSelectValue(names) => inner.JArr? && ListOfTexts(inner.items, "name", names)
    case UrlValue(None) => inner == JNull
    case UrlValue(Some(url)) => inner == JStr(url)
  }

  /** The minimal serialisation of a typed value. */
  function Encode(v: PropertyValue): (j: Json)
    ensures Conforms(j, v)
  {
    var inner := match v
      case TitleValue(spans) => JArr(Texts(spans, "plain_text"))
      case RichTextValue(spans) => JArr(Texts(spans, "plain_text"))
      case SelectValue(None) => JNull
      case SelectValue(Some(name)) => JObj(map["name" := JStr(name)])
      case MultiSelectValue(names) => JArr(Texts(names, "name"))
      case UrlValue(None) => JNull
      case UrlValue(Some(url)) => JStr(url);
    JObj(map[KindOf(v).Name() := inner])
  }

  /** One single-field dict per text. */
  function Texts(texts: seq<string>, field: string): (items: seq<Json>)
    ensures ListOfTexts(items, field, texts)
  {
    seq(|texts|, i requires 0 <= i < |texts| => JObj(map[field := JStr(texts[i])]))
  }

  /** On a conforming option list the comprehension-and-join line yields the
      typed names in order. */
  lemma ConformingOptionsJoin(items: seq<Json>, names: seq<string>)
    requires ListOfTexts(items, "name", names)
    ensures SubscriptItems(items, "name").Ok?
    ensures AllStrings(SubscriptItems(items, "name").value) == Ok(names)
  {
    var values := SubscriptItems(items, "name").value;
    assert forall i :: 0 <= i < |values| ==> values[i] == JStr(names[i]);
    var strs := AllStrings(values);
    assert strs.Ok?;
    assert forall i :: 0 <= i < |names| ==> strs.value[i] == names[i];
    assert strs.value == names;
  }

  /** Agreement: on every conforming property value, `safe_get` returns the
      typed display string of that value, so it is always a str there. */
  lemma {:induction false} SafeGetAgreesWithSchema(props: map<string, Json>, col: string, v: PropertyValue)
    requires col in props && Conforms(props[col], v)
    ensures SafeGet(props, col, KindOf(v)) == JStr(Display(v))
  {
    var inner := props[col].fields[KindOf(v).Name()];
    match v
    case TitleValue(spans) =>
      TitleCases(props, col);
    case RichTextValue(spans) =>
      RichTextCases(props, col);
    case SelectValue(option) =>
      SelectCases(props, col);
    case MultiSelectValue(names) =>
      ConformingOptionsJoin(inner.items, names);
      JoinedNamesCases(props[col]);
      assert WellShapedOptions(inner);
      assert OptionNames(inner) == names;
      MultiSelectCases(props, col);
    case UrlValue(url) =>
      UrlCases(props, col);
  }

  /** Serialising a typed value and reading it back with `safe_get` shows its
      display string. */
  lemma EncodeThenSafeGet(col: string, v: PropertyValue)
    ensures SafeGet(map[col := Encode(v)], col, KindOf(v)) == JStr(Display(v))
  {
    SafeGetAgreesWithSchema(map[col := Encode(v)], col, v);
  }
}
