/** The defensive property decoder `safe_get(props, col_name, data_type)`.

    `props` is a page's property map, `col` a property name and `kind` the
    expected property kind. The decoder indexes into the property value the
    way the kind prescribes, with no shape checks of its own; any exception
    the indexing raises is caught and turned into "". The model separates the
    two layers: `Attempt` is the body of the `try` block, evaluated with
    Python's indexing and truthiness and yielding a value, an exception, or
    falling through; `SafeGet` is the total function around it.
 */
module Extractor {
  import opened Outcomes
  import opened Json
  import StrJoin

  /** The `data_type` argument. The decoder tests it against five strings in
      turn; `Unrecognised` stands for every other string. */
  datatype Kind = Title | RichText | Select | MultiSelect | Url | Unrecognised {

    /** The string naming a recognised kind, which is also the key its value
        is stored under inside the property. */
    function Name(): string
      requires !Unrecognised?
    {
      match this
      case Title => "title"
      case RichText => "rich_text"
      case Select => "select"
      case MultiSelect => "multi_select"
      case Url => "url"
    }
  }

  /** The chain of comparisons on `data_type`: which branch a string selects. */
  function ParseKind(dataType: string): (k: Kind)
    ensures k != Unrecognised ==> k.Name() == dataType
  {
    if dataType == "title" then Title
    else if dataType == "rich_text" then RichText
    else if dataType == "select" then Select
    else if dataType == "multi_select" then MultiSelect
    else if dataType == "url" then Url
    else Unrecognised
  }

  /** Every recognised kind is selected by its own name, and only by it. */
  lemma ParseKindName(k: Kind, dataType: string)
    requires k != Unrecognised
    ensures ParseKind(dataType) == k <==> dataType == k.Name()
  {
  }

  /** Shown for a title property whose span list is empty, or otherwise
      falsy ("Untitled"). */
  const Placeholder: string := "無標題"

  /** Separator between the option names of a multi-select property. */
  const Separator: string := ", "

  /** How the `try` block is left without an exception: by a `return`, or by
      running off its end when no kind matched. */
  datatype Flow = Return(value: Json) | FallThrough

  /** The title and rich-text branches: look up the span list under `key`;
      when it is truthy, the `plain_text` of its first item, else `default`. */
  function FirstSpanText(colData: Json, key: string, default: string): Outcome<Json> {
    var spans :- Subscript(colData, key);
    if Truthy(spans) then
      var first :- SubscriptFirst(spans);
      Subscript(first, "plain_text")
    else
      Ok(JStr(default))
  }

  /** The select branch: the `name` of the option when the option is truthy,
      else "". */
  function SelectName(colData: Json): Outcome<Json> {
    var option :- Subscript(colData, Select.Name());
    if Truthy(option) then Subscript(option, "name") else Ok(JStr(""))
  }

  /** The multi-select branch: the `name` of every option, collected by a
      list comprehension and joined with the separator. */
  function JoinedNames(colData: Json): Outcome<Json> {
    var options :- Subscript(colData, MultiSelect.Name());
    var names :- SubscriptEach(options, "name");
    var strs :- AllStrings(names);
    Ok(JStr(StrJoin.Join(Separator, strs)))
  }

  /** The url branch: the stored value when truthy, else "". */
  function UrlValue(colData: Json): Outcome<Json> {
    var url :- Subscript(colData, Url.Name());
    if Truthy(url) then Ok(url) else Ok(JStr(""))
  }

  function Returning(o: Outcome<Json>): Outcome<Flow> {
    match o
    case Ok(v) => Ok(Return(v))
    case Raised => Raised
  }

  /** The body of the `try` block. */
  function Attempt(props: map<string, Json>, col: string, kind: Kind): Outcome<Flow> {
    if col !in props then Ok(Return(JStr("")))
    else
      var colData := props[col];
      match kind
      case Title => Returning(FirstSpanText(colData, Title.Name(), Placeholder))
      case RichText => Returning(FirstSpanText(colData, RichText.Name(), ""))
      case Select => Returning(SelectName(colData))
      case MultiSelect => Returning(JoinedNames(colData))
      case Url => Returning(UrlValue(colData))
      case Unrecognised => Ok(FallThrough)
  }

  /** `safe_get`: the `try` block with its `except Exception` handler and the
      final `return ""`. It never raises. */
  function SafeGet(props: map<string, Json>, col: string, kind: Kind): Json {
    match Attempt(props, col, kind)
    case Ok(Return(v)) => v
    case Ok(FallThrough) => JStr("")
    case Raised => JStr("")
  }

  /** A missing property, an unrecognised kind and a caught exception all give
      "", which is not the title placeholder: only a block that returned
      normally can produce the placeholder. */
  lemma SafeGetCatches(props: map<string, Json>, col: string, kind: Kind)
    ensures col !in props ==> SafeGet(props, col, kind) == JStr("")
    ensures kind == Unrecognised ==> SafeGet(props, col, kind) == JStr("")
    ensures Attempt(props, col, kind).Raised? ==> SafeGet(props, col, kind) == JStr("")
    ensures SafeGet(props, col, kind) == JStr(Placeholder) ==> Attempt(props, col, kind).Ok?
  {
  }

  /** `j` is a non-empty list whose first item is a dict holding `key`. */
  predicate FirstItemHas(j: Json, key: string) {
    j.JArr? && |j.items| > 0 && HasKey(j.items[0], key)
  }

  /** The decoder's result depends on nothing but the value stored under `col`. */
  lemma SafeGetLocal(p: map<string, Json>, q: map<string, Json>, col: string, kind: Kind)
    requires col in p <==> col in q
    requires col in p ==> p[col] == q[col]
    ensures SafeGet(p, col, kind) == SafeGet(q, col, kind)
  {
  }

  /** Every outcome of a title lookup: "" when the property is missing or
      malformed, the placeholder when the span list is falsy, the first span's
      `plain_text` otherwise. */
  lemma TitleCases(props: map<string, Json>, col: string)
    ensures col !in props ==> SafeGet(props, col, Title) == JStr("")
    ensures col in props && !HasKey(props[col], Title.Name()) ==>
      SafeGet(props, col, Title) == JStr("")
    ensures col in props && HasKey(props[col], Title.Name()) && !Truthy(props[col].fields[Title.Name()]) ==>
      SafeGet(props, col, Title) == JStr(Placeholder)
    ensures col in props && HasKey(props[col], Title.Name()) && FirstItemHas(props[col].fields[Title.Name()], "plain_text") ==>
      SafeGet(props, col, Title) == props[col].fields[Title.Name()].items[0].fields["plain_text"]
    ensures (&& col in props && HasKey(props[col], Title.Name()) && Truthy(props[col].fields[Title.Name()])
             && !FirstItemHas(props[col].fields[Title.Name()], "plain_text")) ==>
      SafeGet(props, col, Title) == JStr("")
  {
  }

  /** The placeholder appears exactly when the title property is present with
      a falsy span list, or when the first span's text is itself the
      placeholder string. */
  lemma TitlePlaceholderIff(props: map<string, Json>, col: string)
    ensures SafeGet(props, col, Title) == JStr(Placeholder) <==>
      && col in props
      && HasKey(props[col], Title.Name())
      && (|| !Truthy(props[col].fields[Title.Name()])
          || (&& FirstItemHas(props[col].fields[Title.Name()], "plain_text")
              && props[col].fields[Title.Name()].items[0].fields["plain_text"] == JStr(Placeholder)))
  {
    TitleCases(props, col);
  }

  /** A malformed title gives "", never the placeholder. */
  lemma MalformedTitleIsEmpty(props: map<string, Json>, col: string)
    requires col in props
    requires || !HasKey(props[col], Title.Name())
             || (Truthy(props[col].fields[Title.Name()]) && !FirstItemHas(props[col].fields[Title.Name()], "plain_text"))
    ensures Attempt(props, col, Title).Raised?
    ensures SafeGet(props, col, Title) == JStr("")
    ensures SafeGet(props, col, Title) != JStr(Placeholder)
  {
  }

  /** Every outcome of a rich-text lookup: the first span's `plain_text`, or "". */
  lemma RichTextCases(props: map<string, Json>, col: string)
    ensures col in props && HasKey(props[col], RichText.Name()) && FirstItemHas(props[col].fields[RichText.Name()], "plain_text") ==>
      SafeGet(props, col, RichText) == props[col].fields[RichText.Name()].items[0].fields["plain_text"]
    ensures !(col in props && HasKey(props[col], RichText.Name()) && FirstItemHas(props[col].fields[RichText.Name()], "plain_text")) ==>
      SafeGet(props, col, RichText) == JStr("")
  {
  }

  /** Every outcome of a select lookup: the option's `name` when the option is
      a dict holding one, "" otherwise (a falsy option returns "", a truthy
      option without `name` raises and is caught). */
  lemma SelectCases(props: map<string, Json>, col: string)
    ensures col in props && HasKey(props[col], Select.Name()) && HasKey(props[col].fields[Select.Name()], "name") ==>
      SafeGet(props, col, Select) == props[col].fields[Select.Name()].fields["name"]
    ensures !(col in props && HasKey(props[col], Select.Name()) && HasKey(props[col].fields[Select.Name()], "name")) ==>
      SafeGet(props, col, Select) == JStr("")
  {
  }

  /** The option list is a list of dicts each holding a str `name`. */
  predicate WellShapedOptions(options: Json) {
    && options.JArr?
    && forall i :: 0 <= i < |options.items| ==>
         HasKey(options.items[i], "name") && options.items[i].fields["name"].JStr?
  }

  /** The option names of a well-shaped option list, in list order. */
  function OptionNames(options: Json): (names: seq<string>)
    requires WellShapedOptions(options)
    ensures |names| == |options.items|
    ensures forall i :: 0 <= i < |names| ==> options.items[i].fields["name"] == JStr(names[i])
  {
    seq(|options.items|, i requires 0 <= i < |options.items| && WellShapedOptions(options) =>
      options.items[i].fields["name"].s)
  }

  /** Every outcome of a multi-select lookup: the names joined with ", " in
      list order when every option is a dict with a str `name`, "" otherwise. */
  lemma MultiSelectCases(props: map<string, Json>, col: string)
    ensures col in props && HasKey(props[col], MultiSelect.Name()) && WellShapedOptions(props[col].fields[MultiSelect.Name()]) ==>
      SafeGet(props, col, MultiSelect) == JStr(StrJoin.Join(Separator, OptionNames(props[col].fields[MultiSelect.Name()])))
    ensures !(col in props && HasKey(props[col], MultiSelect.Name()) && WellShapedOptions(props[col].fields[MultiSelect.Name()])) ==>
      SafeGet(props, col, MultiSelect) == JStr("")
  {
    if col in props {
      JoinedNamesCases(props[col]);
    }
  }

  /** An empty str or dict: iterating it visits nothing, so the comprehension
      over it is `[]` although it is not a list. */
  predicate EmptyNonList(j: Json) {
    (j.JStr? || j.JObj?) && !Truthy(j)
  }

  /** The multi-select line on one property value: it returns normally
      exactly when the option list is well shaped or an empty str or dict. */
  lemma JoinedNamesCases(colData: Json)
    ensures HasKey(colData, MultiSelect.Name()) && WellShapedOptions(colData.fields[MultiSelect.Name()]) ==>
      JoinedNames(colData) == Ok(JStr(StrJoin.Join(Separator, OptionNames(colData.fields[MultiSelect.Name()]))))
    ensures HasKey(colData, MultiSelect.Name()) && EmptyNonList(colData.fields[MultiSelect.Name()]) ==>
      JoinedNames(colData) == Ok(JStr(""))
    ensures !(HasKey(colData, MultiSelect.Name())
              && (WellShapedOptions(colData.fields[MultiSelect.Name()]) || EmptyNonList(colData.fields[MultiSelect.Name()]))) ==>
      JoinedNames(colData).Raised?
  {
    if HasKey(colData, MultiSelect.Name()) {
      var options := colData.fields[MultiSelect.Name()];
      if WellShapedOptions(options) {
        WellShapedJoin(options);
      } else if options.JArr? {
        MalformedOptionsRaise(options);
      }
    }
  }

  /** A well-shaped option list passes the comprehension and the join. */
  lemma WellShapedJoin(options: Json)
    requires WellShapedOptions(options)
    ensures SubscriptEach(options, "name").Ok?
    ensures AllStrings(SubscriptEach(options, "name").value) == Ok(OptionNames(options))
  {
    var names := SubscriptItems(options.items, "name").value;
    var strs := AllStrings(names);
    assert strs.Ok?;
    assert strs.value == OptionNames(options);
  }

  /** A list with an option lacking a str `name` raises in the comprehension
      (KeyError, TypeError) or in the join (TypeError). */
  lemma MalformedOptionsRaise(options: Json)
    requires options.JArr? && !WellShapedOptions(options)
    ensures || SubscriptEach(options, "name").Raised?
            || AllStrings(SubscriptEach(options, "name").value).Raised?
  {
    var names := SubscriptItems(options.items, "name");
    if names.Ok? {
      var i :| 0 <= i < |options.items| && !options.items[i].fields["name"].JStr?;
      assert !names.value[i].JStr?;
    }
  }

  /** A multi-select with no options gives "", with one option exactly its
      name, and otherwise begins with the first name and ends with the last,
      so the join adds no separator before the first name or after the last. */
  lemma MultiSelectEnds(props: map<string, Json>, col: string)
    requires col in props && HasKey(props[col], MultiSelect.Name())
    requires WellShapedOptions(props[col].fields[MultiSelect.Name()])
    ensures var names := OptionNames(props[col].fields[MultiSelect.Name()]);
      && (|names| == 0 ==> SafeGet(props, col, MultiSelect) == JStr(""))
      && (|names| == 1 ==> SafeGet(props, col, MultiSelect) == JStr(names[0]))
      && (|names| > 0 ==> names[0] <= SafeGet(props, col, MultiSelect).s)
      && (|names| > 0 ==> StrJoin.EndsWith(SafeGet(props, col, MultiSelect).s, names[|names| - 1]))
  {
    MultiSelectCases(props, col);
  }

  /** Every outcome of a url lookup: the stored value when truthy, "" otherwise. */
  lemma UrlCases(props: map<string, Json>, col: string)
    ensures col in props && HasKey(props[col], Url.Name()) && Truthy(props[col].fields[Url.Name()]) ==>
      SafeGet(props, col, Url) == props[col].fields[Url.Name()]
    ensures !(col in props && HasKey(props[col], Url.Name()) && Truthy(props[col].fields[Url.Name()])) ==>
      SafeGet(props, col, Url) == JStr("")
  {
  }
}
