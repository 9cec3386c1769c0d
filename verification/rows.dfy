/** Building the dashboard's table: one row per page, each row a dict from
    the seven display headings to the decoder's result for the property and
    kind configured for that heading. A page is represented by its property
    map. */
module Rows {
  import opened Json
  import opened Extractor

  /** One display column: its heading, the Notion property read for it, and
      the kind it is read as. */
  datatype Column = Column(heading: string, property: string, kind: Kind)

  /** The fixed configuration, in display order. */
  const Columns: seq<Column> := [
    Column("店名", "店家名稱", RichText),
    Column("標題", "Name", Title),
    Column("類型", "類型", Select),
    Column("價位", "價位", RichText),
    Column("地區", "所在位置", RichText),
    Column("交通", "交通方式", RichText),
    Column("必點", "推薦東西", RichText)
  ]

  /** The headings of every row, as listed in `Columns`. */
  const Headings: set<string> := {"店名", "標題", "類型", "價位", "地區", "交通", "必點"}

  /** The Notion properties a row reads, as listed in `Columns`. */
  const SourceProperties: set<string> := {"店家名稱", "Name", "類型", "價位", "所在位置", "交通方式", "推薦東西"}

  type Row = map<string, Json>

  /** The two sets are the table's columns, and no two columns share a
      heading, so a row has one entry per column. */
  lemma ColumnsMatchSets()
    ensures forall i :: 0 <= i < |Columns| ==> Columns[i].heading in Headings
    ensures forall i :: 0 <= i < |Columns| ==> Columns[i].property in SourceProperties
    ensures forall i, j :: 0 <= i < j < |Columns| ==> Columns[i].heading != Columns[j].heading
    ensures |Headings| == |Columns|
  {
  }

  /** The dict literal built for one page.
      It spells out the seven entries, as the source does, instead of folding
      over `Columns`: the literal is much cheaper to verify. `ColumnsMatchSets`
      and `RowFollowsColumns` show that the literal, `Headings` and `Columns`
      list the same seven entries. */
  function BuildRow(props: map<string, Json>): (row: Row)
    ensures row.Keys == Headings
  {
    map[
      "店名" := SafeGet(props, "店家名稱", RichText),
      "標題" := SafeGet(props, "Name", Title),
      "類型" := SafeGet(props, "類型", Select),
      "價位" := SafeGet(props, "價位", RichText),
      "地區" := SafeGet(props, "所在位置", RichText),
      "交通" := SafeGet(props, "交通方式", RichText),
      "必點" := SafeGet(props, "推薦東西", RichText)
    ]
  }

  /** The loop over the query results: one row per page, in page order, every
      row with exactly the seven headings. */
  method BuildRows(pages: seq<map<string, Json>>) returns (rows: seq<Row>)
    ensures |rows| == |pages|
    ensures forall i :: 0 <= i < |pages| ==> rows[i] == BuildRow(pages[i])
    ensures forall i :: 0 <= i < |rows| ==> rows[i].Keys == Headings
  {
    rows := [];
    for k := 0 to |pages|
      invariant |rows| == k
      invariant forall i :: 0 <= i < k ==> rows[i] == BuildRow(pages[i])
    {
      rows := rows + [BuildRow(pages[k])];
    }
  }

  /** Each heading of a row holds the decoder's result for the property and
      kind the configuration table gives that heading. */
  lemma RowFollowsColumns(props: map<string, Json>, i: nat)
    requires i < |Columns|
    ensures BuildRow(props)[Columns[i].heading] == SafeGet(props, Columns[i].property, Columns[i].kind)
  {
    var row := BuildRow(props);
    if i == 0 {
      assert row["店名"] == SafeGet(props, "店家名稱", RichText);
    } else if i == 1 {
      assert row["標題"] == SafeGet(props, "Name", Title);
    } else if i == 2 {
      assert row["類型"] == SafeGet(props, "類型", Select);
    } else if i == 3 {
      assert row["價位"] == SafeGet(props, "價位", RichText);
    } else if i == 4 {
      assert row["地區"] == SafeGet(props, "所在位置", RichText);
    } else if i == 5 {
      assert row["交通"] == SafeGet(props, "交通方式", RichText);
    } else {
      assert row["必點"] == SafeGet(props, "推薦東西", RichText);
    }
  }

  /** A page with no properties shows "" in every column, the title included:
      the placeholder needs a title property that is present. */
  lemma EmptyPageRow()
    ensures forall h :: h in BuildRow(map[]) ==> BuildRow(map[])[h] == JStr("")
    ensures BuildRow(map[])["標題"] != JStr(Placeholder)
  {
  }

  /** A row depends on nothing but the seven configured properties. */
  lemma RowLocal(p: map<string, Json>, q: map<string, Json>)
    requires forall name :: name in SourceProperties ==> (name in p <==> name in q)
    requires forall name :: name in SourceProperties && name in p ==> p[name] == q[name]
    ensures BuildRow(p) == BuildRow(q)
  {
    SafeGetLocal(p, q, "店家名稱", RichText);
    SafeGetLocal(p, q, "Name", Title);
    SafeGetLocal(p, q, "類型", Select);
    SafeGetLocal(p, q, "價位", RichText);
    SafeGetLocal(p, q, "所在位置", RichText);
    SafeGetLocal(p, q, "交通方式", RichText);
    SafeGetLocal(p, q, "推薦東西", RichText);
  }
}
