/** The blueprint of the Snowflake analytics framework: the assembled blueprint record and
    its Markdown rendering, as a list of lines joined with newlines. */
module SnowflakeBlueprint {
  import opened SnowflakeSchema

  /** `SnowflakeBlueprintWriter.build`'s result. */
  datatype Blueprint = Blueprint(
    asOf: string, connection: map<string, string>, tables: seq<TableRecord>,
    queries: seq<Query>, dashboards: seq<string>)

  /** `SnowflakeQueryAgent.dashboard_ideas`. */
  const DashboardIdeas: seq<string> := [
    "Benchmark overview: 1M/3M/6M/1Y returns, drawdown sparkline, latest price vs. SMA.",
    "Composition: top 10 constituents, sector and country treemaps, weight drift vs. target.",
    "Quality & valuation: weighted P/E, P/B, dividend yield, revenue growth trends.",
    "Attribution: return contribution by sector, country, and factor proxies.",
    "Data health: feed freshness by benchmark, null/zero weight checks, extreme return monitors."]

  /** `SnowflakeBlueprintWriter.build`: the table descriptions, the connection profile as
      configured, the query library and the dashboard ideas, stamped with the date. */
  method Build(doc: SchemaDoc, asOf: string, sqlBody: (nat, seq<string>) -> string) returns (bp: Blueprint)
    ensures BuiltFrom(bp, doc, asOf, sqlBody)
  {
    var tables := DescribeTables(doc);
    bp := Blueprint(asOf, doc.connection, tables, BuildQueries(doc, sqlBody), DashboardIdeas);
  }

  /** What `build` puts in the blueprint of a schema document. */
  ghost predicate BuiltFrom(bp: Blueprint, doc: SchemaDoc, asOf: string, sqlBody: (nat, seq<string>) -> string) {
    && bp.asOf == asOf && bp.connection == doc.connection
    && |bp.tables| == |doc.tables|
    && (forall i :: 0 <= i < |bp.tables| ==> bp.tables[i] == Describe(doc.tables[i].0, doc.tables[i].1))
    && bp.queries == BuildQueries(doc, sqlBody) && |bp.queries| == QueryCount
    && bp.dashboards == DashboardIdeas
  }

  // ---- str.strip ----------------------------------------------------------------

  /** Python's `str.isspace` for a single character. */
  predicate IsSpace(c: char) {
    var n := c as int;
    9 <= n <= 13 || 28 <= n <= 32 || n == 0x85 || n == 0xA0 || n == 0x1680 ||
    0x2000 <= n <= 0x200A || n == 0x2028 || n == 0x2029 || n == 0x202F || n == 0x205F || n == 0x3000
  }

  /** The number of white-space characters `s` starts with. */
  function LeadingSpaces(s: string): (n: nat)
    ensures n <= |s|
    ensures forall i :: 0 <= i < n ==> IsSpace(s[i])
    ensures n == |s| || !IsSpace(s[n])
  {
    if s != [] && IsSpace(s[0]) then 1 + LeadingSpaces(s[1..]) else 0
  }

  function StripTrailing(s: string): (r: string)
    ensures |r| <= |s| && r == s[..|r|]
    ensures r == [] || !IsSpace(r[|r| - 1])
    ensures forall i :: |r| <= i < |s| ==> IsSpace(s[i])
  {
    if s != [] && IsSpace(s[|s| - 1]) then StripTrailing(s[..|s| - 1]) else s
  }

  /** `str.strip()`: the slice after the leading white space that neither starts nor ends
      with white space; everything cut off after it is white space too. */
  function Strip(s: string): (r: string)
    ensures r == [] || (!IsSpace(r[0]) && !IsSpace(r[|r| - 1]))
    ensures LeadingSpaces(s) + |r| <= |s| && r == s[LeadingSpaces(s)..LeadingSpaces(s) + |r|]
    ensures forall i :: LeadingSpaces(s) + |r| <= i < |s| ==> IsSpace(s[i])
  {
    var lo := LeadingSpaces(s);
    var r := StripTrailing(s[lo..]);
    TrailingSpacesShift(s, lo, |r|);
    assert s[lo..][..|r|] == s[lo..lo + |r|];
    r
  }

  /** White space at the end of a suffix is white space at the end of the whole string. */
  lemma TrailingSpacesShift(s: string, lo: nat, m: nat)
    requires lo + m <= |s|
    requires forall i :: m <= i < |s| - lo ==> IsSpace(s[lo..][i])
    ensures forall i :: lo + m <= i < |s| ==> IsSpace(s[i])
  {
    forall i | lo + m <= i < |s|
      ensures IsSpace(s[i])
    {
      assert s[i] == s[lo..][i - lo];
    }
  }

  /** A string without white space at either end is its own strip, so stripping twice
      changes nothing. */
  lemma StripIdempotent(s: string)
    ensures (s == [] || (!IsSpace(s[0]) && !IsSpace(s[|s| - 1]))) ==> Strip(s) == s
    ensures Strip(Strip(s)) == Strip(s)
  {
    var r := Strip(s);
    assert LeadingSpaces(r) == 0 && r[0..] == r;
    assert StripTrailing(r) == r;
    if s == [] || (!IsSpace(s[0]) && !IsSpace(s[|s| - 1])) {
      assert LeadingSpaces(s) == 0 && s[0..] == s;
    }
  }

  // ---- joining and splitting lines ----------------------------------------------

  /** `"\n".join(lines)`: the text starts with the first line, followed by a newline when
      more lines follow. */
  function JoinLines(lines: seq<string>): (r: string)
    ensures lines != [] ==> |lines[0]| <= |r| && r[..|lines[0]|] == lines[0]
    ensures |lines| > 1 ==> |lines[0]| < |r| && r[|lines[0]|] == '\n'
  {
    if lines == [] then ""
    else if |lines| == 1 then lines[0]
    else lines[0] + "\n" + JoinLines(lines[1..])
  }

  /** `s.split("\n")`: the pieces between newlines, at least one, none holding a newline. */
  function SplitLines(s: string): (lines: seq<string>)
    ensures |lines| >= 1
    ensures forall i :: 0 <= i < |lines| ==> '\n' !in lines[i]
  {
    if s == [] then [[]]
    else if s[0] == '\n' then [[]] + SplitLines(s[1..])
    else
      var rest := SplitLines(s[1..]);
      [[s[0]] + rest[0]] + rest[1..]
  }

  lemma {:induction false} SplitWithoutNewline(a: string)
    requires '\n' !in a
    ensures SplitLines(a) == [a]
  {
    if a != [] {
      assert a[0] in a && '\n' !in a[1..];
      SplitWithoutNewline(a[1..]);
      assert [a[0]] + a[1..] == a;
    }
  }

  lemma {:induction false} SplitAfterLine(a: string, b: string)
    requires '\n' !in a
    ensures SplitLines(a + "\n" + b) == [a] + SplitLines(b)
  {
    if a != [] {
      assert a[0] in a && '\n' !in a[1..];
      SplitAfterLine(a[1..], b);
      assert (a + "\n" + b)[1..] == a[1..] + "\n" + b;
      assert [a[0]] + a[1..] == a;
    } else {
      assert a + "\n" + b == "\n" + b;
    }
  }

  /** Splitting the joined text gives the lines back, when none of them holds a newline. */
  lemma {:induction false} SplitJoin(lines: seq<string>)
    requires |lines| >= 1
    requires forall i :: 0 <= i < |lines| ==> '\n' !in lines[i]
    ensures SplitLines(JoinLines(lines)) == lines
  {
    if |lines| == 1 {
      SplitWithoutNewline(lines[0]);
    } else {
      SplitJoin(lines[1..]);
      SplitAfterLine(lines[0], JoinLines(lines[1..]));
      assert [lines[0]] + lines[1..] == lines;
    }
  }

  /** Joining the pieces of a split gives the text back. */
  lemma {:induction false} JoinSplit(s: string)
    ensures JoinLines(SplitLines(s)) == s
  {
    if s != [] {
      JoinSplit(s[1..]);
      var rest := SplitLines(s[1..]);
      if s[0] == '\n' {
        assert ([[]] + rest)[1..] == rest;
        assert s == "\n" + s[1..];
      } else if |rest| == 1 {
        assert s == [s[0]] + s[1..];
      } else {
        var lines := [[s[0]] + rest[0]] + rest[1..];
        assert lines[1..] == rest[1..];
        assert JoinLines(rest) == rest[0] + "\n" + JoinLines(rest[1..]);
        assert s == [s[0]] + s[1..];
      }
    }
  }

  // ---- the Markdown lines -------------------------------------------------------

  /** The heading line. */
  function Title(asOf: string): string {
    "# Snowflake Benchmark Analytics Blueprint \U{2013} " + asOf
  }

  /** Python truthiness of `conn.get(key)` for a text-valued connection. */
  predicate Truthy(conn: map<string, string>, key: string) {
    key in conn && conn[key] != ""
  }

  /** One line per item, each with the given marker in front. */
  function Bullets(marker: string, items: seq<string>): (lines: seq<string>)
    ensures |lines| == |items|
  {
    if items == [] then [] else Bullets(marker, items[..|items| - 1]) + [marker + items[|items| - 1]]
  }

  /** The i-th bullet is the i-th item behind the marker. */
  lemma {:induction false} BulletAt(marker: string, items: seq<string>, i: nat)
    requires i < |items|
    ensures Bullets(marker, items)[i] == marker + items[i]
  {
    if i < |items| - 1 {
      var init := items[..|items| - 1];
      BulletAt(marker, init, i);
      assert init[i] == items[i];
    }
  }

  /** The connection section, present only for a non-empty connection profile. */
  function ConnectionLines(conn: map<string, string>): seq<string> {
    if conn == map[] then []
    else
      ["## Connection profile"]
      + (if Truthy(conn, "warehouse") then ["- Warehouse: " + conn["warehouse"]] else [])
      + (if Truthy(conn, "role") then ["- Role: " + conn["role"]] else [])
      + (if Truthy(conn, "database") && Truthy(conn, "schema")
         then ["- Default database.schema: " + conn["database"] + "." + conn["schema"]] else [])
      + [""]
  }

  /** A labelled list, present only when the list is non-empty. */
  function ListLines(heading: string, items: seq<string>): seq<string> {
    if items != [] then [heading] + Bullets("  - ", items) else []
  }

  /** One table's block: heading, then each non-empty field, then a blank line. */
  function TableLines(t: TableRecord): seq<string> {
    ["### " + t.name] + (TableFields(t) + [""])
  }

  /** The lines of a table's non-empty fields, in the order of `to_markdown`. */
  function TableFields(t: TableRecord): seq<string> {
    (if t.description != "" then ["- " + t.description] else [])
    + (if t.grain != "" then ["- Grain: " + t.grain] else [])
    + ListLines("- Primary keys:", t.primaryKeys)
    + ListLines("- Columns:", t.columns)
  }

  /** The blocks of lines one after the other. */
  function Flatten<T>(blocks: seq<seq<T>>): seq<T> {
    if blocks == [] then [] else Flatten(blocks[..|blocks| - 1]) + blocks[|blocks| - 1]
  }

  function TableBlocks(ts: seq<TableRecord>): (blocks: seq<seq<string>>)
    ensures |blocks| == |ts|
  {
    if ts == [] then [] else TableBlocks(ts[..|ts| - 1]) + [TableLines(ts[|ts| - 1])]
  }

  lemma TablesLinesStep(ts: seq<TableRecord>, i: nat)
    requires i < |ts|
    ensures TablesLines(ts[..i + 1]) == TablesLines(ts[..i]) + TableLines(ts[i])
  {
    assert ts[..i + 1][..i] == ts[..i];
    FlattenSnoc(TableBlocks(ts[..i]), TableLines(ts[i]));
  }

  lemma {:induction false} TableBlocksPrefix(ts: seq<TableRecord>, i: nat)
    requires i <= |ts|
    ensures TableBlocks(ts[..i]) == TableBlocks(ts)[..i]
  {
    if i < |ts| {
      var init := ts[..|ts| - 1];
      TableBlocksPrefix(init, i);
      assert init[..i] == ts[..i];
    } else {
      assert ts[..i] == ts;
    }
  }

  lemma {:induction false} TableBlockIs(ts: seq<TableRecord>, i: nat)
    requires i < |ts|
    ensures TableBlocks(ts)[i] == TableLines(ts[i])
  {
    if i < |ts| - 1 {
      var init := ts[..|ts| - 1];
      TableBlockIs(init, i);
      assert init[i] == ts[i];
    }
  }

  /** The table section: one block per table, in order. */
  function TablesLines(ts: seq<TableRecord>): seq<string> {
    Flatten(TableBlocks(ts))
  }

  const QueryBlockSize: nat := 7

  /** One query's block of seven lines, with the SQL stripped and fenced. */
  function QueryLines(q: Query): seq<string> {
    ["### " + q.name, "Purpose: " + q.purpose, "", "```sql", Strip(q.sql), "```", ""]
  }

  function QueryBlocks(qs: seq<Query>): (blocks: seq<seq<string>>)
    ensures |blocks| == |qs|
  {
    if qs == [] then [] else QueryBlocks(qs[..|qs| - 1]) + [QueryLines(qs[|qs| - 1])]
  }

  lemma QueriesLinesStep(qs: seq<Query>, i: nat)
    requires i < |qs|
    ensures QueriesLines(qs[..i + 1]) == QueriesLines(qs[..i]) + QueryLines(qs[i])
  {
    assert qs[..i + 1][..i] == qs[..i];
    FlattenSnoc(QueryBlocks(qs[..i]), QueryLines(qs[i]));
  }

  lemma {:induction false} QueryBlockIs(qs: seq<Query>, k: nat)
    requires k < |qs|
    ensures QueryBlocks(qs)[k] == QueryLines(qs[k])
  {
    if k < |qs| - 1 {
      var init := qs[..|qs| - 1];
      QueryBlockIs(init, k);
      assert init[k] == qs[k];
    }
  }

  /** The query section: one block per query, in order. */
  function QueriesLines(qs: seq<Query>): seq<string> {
    Flatten(QueryBlocks(qs))
  }

  /** The document around its variable parts: title, connection section, tables, queries
      and dashboard ideas, under their section headings. */
  function Document(title: string, conn: seq<string>, tables: seq<string>, queries: seq<string>,
                    ideas: seq<string>): seq<string> {
    [title, ""] + conn + ["## Tables"] + tables + ["## Query library"] + queries + ["## Dashboard starters"] + ideas
  }

  /** Every line of the rendered blueprint, in order. */
  function MarkdownLines(bp: Blueprint): seq<string> {
    Document(Title(bp.asOf), ConnectionLines(bp.connection), TablesLines(bp.tables),
             QueriesLines(bp.queries), Bullets("- ", bp.dashboards))
  }

  /** `SnowflakeBlueprintWriter.to_markdown`. */
  method ToMarkdown(bp: Blueprint) returns (md: string)
    ensures md == JoinLines(MarkdownLines(bp))
  {
    var lines: seq<string> := [Title(bp.asOf), ""];
    lines := AppendConnection(lines, bp.connection);
    lines := lines + ["## Tables"];
    lines := AppendTables(lines, bp.tables);
    lines := lines + ["## Query library"];
    lines := AppendQueries(lines, bp.queries);
    lines := lines + ["## Dashboard starters"];
    lines := AppendBullets(lines, "- ", bp.dashboards);
    md := JoinLines(lines);
  }

  /** The connection part of `to_markdown`. */
  method AppendConnection(lines: seq<string>, conn: map<string, string>) returns (out: seq<string>)
    ensures out == lines + ConnectionLines(conn)
  {
    out := lines;
    if conn != map[] {
      out := out + ["## Connection profile"];
      ghost var section: seq<string> := ["## Connection profile"];
      ghost var piece: seq<string> := if Truthy(conn, "warehouse") then ["- Warehouse: " + conn["warehouse"]] else [];
      out := AppendIf(out, "warehouse" in conn && conn["warehouse"] != "",
                      "- Warehouse: " + Setting(conn, "warehouse"));
      AppendAssoc(lines, section, piece);
      section := section + piece;
      piece := if Truthy(conn, "role") then ["- Role: " + conn["role"]] else [];
      out := AppendIf(out, "role" in conn && conn["role"] != "", "- Role: " + Setting(conn, "role"));
      AppendAssoc(lines, section, piece);
      section := section + piece;
      piece := if Truthy(conn, "database") && Truthy(conn, "schema")
         then ["- Default database.schema: " + conn["database"] + "." + conn["schema"]] else [];
      out := AppendIf(out, "database" in conn && conn["database"] != "" && "schema" in conn && conn["schema"] != "",
                      "- Default database.schema: " + Setting(conn, "database") + "." + Setting(conn, "schema"));
      AppendAssoc(lines, section, piece);
      section := section + piece;
      out := out + [""];
      AppendAssoc(lines, section, [""]);
      section := section + [""];
      assert section == ConnectionLines(conn);
    }
  }

  /** `if present: lines.append(line)`. */
  method AppendIf(lines: seq<string>, present: bool, line: string) returns (out: seq<string>)
    ensures out == lines + (if present then [line] else [])
  {
    out := lines;
    if present {
      out := out + [line];
    }
  }

  /** The table loop of `to_markdown`. */
  method AppendTables(lines: seq<string>, tables: seq<TableRecord>) returns (out: seq<string>)
    ensures out == lines + TablesLines(tables)
  {
    out := lines;
    for i := 0 to |tables|
      invariant out == lines + TablesLines(tables[..i])
    {
      out := AppendTable(out, tables[i]);
      TablesLinesStep(tables, i);
      AppendAssoc(lines, TablesLines(tables[..i]), TableLines(tables[i]));
    }
    assert tables[..|tables|] == tables;
  }

  lemma AppendAssoc<T>(a: seq<T>, b: seq<T>, c: seq<T>)
    ensures a + b + c == a + (b + c)
  {
  }

  /** One pass of the table loop of `to_markdown`. */
  method AppendTable(lines: seq<string>, table: TableRecord) returns (out: seq<string>)
    ensures out == lines + TableLines(table)
  {
    out := lines + ["### " + table.name];
    out := AppendTableFields(out, table);
    out := out + [""];
  }

  /** The field lines of one pass of the table loop. */
  method AppendTableFields(lines: seq<string>, table: TableRecord) returns (out: seq<string>)
    ensures out == lines + TableFields(table)
  {
    ghost var fields: seq<string> := if table.description != "" then ["- " + table.description] else [];
    out := AppendIf(lines, table.description != "", "- " + table.description);
    ghost var piece: seq<string> := if table.grain != "" then ["- Grain: " + table.grain] else [];
    out := AppendIf(out, table.grain != "", "- Grain: " + table.grain);
    AppendAssoc(lines, fields, piece);
    fields := fields + piece;
    out := AppendList(out, "- Primary keys:", table.primaryKeys);
    AppendAssoc(lines, fields, ListLines("- Primary keys:", table.primaryKeys));
    fields := fields + ListLines("- Primary keys:", table.primaryKeys);
    out := AppendList(out, "- Columns:", table.columns);
    AppendAssoc(lines, fields, ListLines("- Columns:", table.columns));
  }

  /** A labelled list of `to_markdown`: the heading line, then one indented bullet per item. */
  method AppendList(lines: seq<string>, heading: string, items: seq<string>) returns (out: seq<string>)
    ensures out == lines + ListLines(heading, items)
  {
    out := lines;
    if items != [] {
      out := out + [heading];
      out := AppendBullets(out, "  - ", items);
    }
  }

  /** The query loop of `to_markdown`. */
  method AppendQueries(lines: seq<string>, queries: seq<Query>) returns (out: seq<string>)
    ensures out == lines + QueriesLines(queries)
  {
    out := lines;
    for i := 0 to |queries|
      invariant out == lines + QueriesLines(queries[..i])
    {
      out := AppendQuery(out, queries[i]);
      QueriesLinesStep(queries, i);
    }
    assert queries[..|queries|] == queries;
  }

  /** One pass of the query loop of `to_markdown`. */
  method AppendQuery(lines: seq<string>, query: Query) returns (out: seq<string>)
    ensures out == lines + QueryLines(query)
  {
    out := lines + ["### " + query.name];
    out := out + ["Purpose: " + query.purpose];
    out := out + [""];
    out := out + ["```sql"];
    out := out + [Strip(query.sql)];
    out := out + ["```"];
    out := out + [""];
  }

  /** The loop `for item in items: lines.append(marker + item)`. */
  method AppendBullets(lines: seq<string>, marker: string, items: seq<string>) returns (out: seq<string>)
    ensures out == lines + Bullets(marker, items)
  {
    out := lines;
    for j := 0 to |items|
      invariant out == lines + Bullets(marker, items[..j])
    {
      assert items[..j + 1][..j] == items[..j];
      out := out + [marker + items[j]];
    }
    assert items[..|items|] == items;
  }

  // ---- layout of the rendered blueprint -----------------------------------------

  /** The connection section: nothing for an empty profile; otherwise its heading, one line
      per configured warehouse and role, the default database.schema line exactly when both
      are configured, and a closing blank line. */
  lemma ConnectionSection(conn: map<string, string>)
    ensures conn == map[] ==> ConnectionLines(conn) == []
    ensures conn != map[] ==>
      var lines := ConnectionLines(conn);
      && |lines| == 2 + (if Truthy(conn, "warehouse") then 1 else 0) + (if Truthy(conn, "role") then 1 else 0)
                      + (if Truthy(conn, "database") && Truthy(conn, "schema") then 1 else 0)
      && lines[0] == "## Connection profile" && lines[|lines| - 1] == ""
      && (Truthy(conn, "database") && Truthy(conn, "schema") ==>
            lines[|lines| - 2] == "- Default database.schema: " + conn["database"] + "." + conn["schema"])
  {
  }

  /** A table's block: the heading with its name, one line per non-empty text field, a
      heading and one bullet per key and column when there are any, and a blank line. */
  lemma TableBlock(t: TableRecord)
    ensures var lines := TableLines(t);
      && |lines| == 2 + (if t.description != "" then 1 else 0) + (if t.grain != "" then 1 else 0)
                      + (if t.primaryKeys != [] then 1 + |t.primaryKeys| else 0)
                      + (if t.columns != [] then 1 + |t.columns| else 0)
      && lines[0] == "### " + t.name && lines[|lines| - 1] == ""
  {
  }

  lemma FlattenSnoc<T>(blocks: seq<seq<T>>, block: seq<T>)
    ensures Flatten(blocks + [block]) == Flatten(blocks) + block
  {
    assert (blocks + [block])[..|blocks|] == blocks;
  }

  lemma {:induction false} FlattenPrefix<T>(blocks: seq<seq<T>>, j: nat)
    requires j <= |blocks|
    ensures |Flatten(blocks[..j])| <= |Flatten(blocks)|
    ensures Flatten(blocks)[..|Flatten(blocks[..j])|] == Flatten(blocks[..j])
  {
    if j < |blocks| {
      var init := blocks[..|blocks| - 1];
      FlattenPrefix(init, j);
      assert init[..j] == blocks[..j];
    } else {
      assert blocks[..j] == blocks;
    }
  }

  /** The i-th block sits right after the blocks before it. */
  lemma BlockAt<T>(blocks: seq<seq<T>>, i: nat)
    requires i < |blocks|
    ensures var offset := |Flatten(blocks[..i])|;
      && offset + |blocks[i]| <= |Flatten(blocks)|
      && Flatten(blocks)[offset..offset + |blocks[i]|] == blocks[i]
  {
    FlattenPrefix(blocks, i + 1);
    assert blocks[..i + 1][..i] == blocks[..i];
  }

  /** The first line of the i-th block sits right after the blocks before it. */
  lemma FirstOfBlock<T>(blocks: seq<seq<T>>, i: nat)
    requires i < |blocks| && |blocks[i]| > 0
    ensures |Flatten(blocks[..i])| < |Flatten(blocks)|
    ensures Flatten(blocks)[|Flatten(blocks[..i])|] == blocks[i][0]
  {
    BlockAt(blocks, i);
    var offset := |Flatten(blocks[..i])|;
    assert Flatten(blocks)[offset] == Flatten(blocks)[offset..offset + |blocks[i]|][0];
  }

  /** Blocks of one size n: the first k of them take n * k lines. */
  lemma {:induction false} UniformBlocks<T>(blocks: seq<seq<T>>, n: nat, k: nat)
    requires forall i :: 0 <= i < |blocks| ==> |blocks[i]| == n
    requires k <= |blocks|
    ensures |Flatten(blocks[..k])| == n * k
  {
    if k > 0 {
      UniformBlocks(blocks, n, k - 1);
      assert blocks[..k][..k - 1] == blocks[..k - 1];
    }
  }

  /** Where each part of the document sits. */
  lemma Sections(title: string, c: seq<string>, t: seq<string>, q: seq<string>, d: seq<string>)
    ensures var lines := Document(title, c, t, q, d);
      && |lines| == 5 + |c| + |t| + |q| + |d|
      && lines[0] == title && lines[1] == ""
      && lines[2..2 + |c|] == c
      && lines[2 + |c|] == "## Tables"
      && lines[3 + |c|..3 + |c| + |t|] == t
      && lines[3 + |c| + |t|] == "## Query library"
      && lines[4 + |c| + |t|..4 + |c| + |t| + |q|] == q
      && lines[4 + |c| + |t| + |q|] == "## Dashboard starters"
      && lines[5 + |c| + |t| + |q|..] == d
  {
    var lines := Document(title, c, t, q, d);
    var front := [title, ""] + c + ["## Tables"] + t + ["## Query library"] + q + ["## Dashboard starters"];
    assert lines[5 + |c| + |t| + |q|..] == d by {
      assert lines == front + d;
    }
  }

  /** The rendered text starts with the title line and a blank line. */
  lemma MarkdownStartsWithTitle(bp: Blueprint)
    ensures JoinLines(MarkdownLines(bp)) == Title(bp.asOf) + "\n" + "\n" + JoinLines(MarkdownLines(bp)[2..])
  {
    var lines := MarkdownLines(bp);
    Sections(Title(bp.asOf), ConnectionLines(bp.connection), TablesLines(bp.tables),
             QueriesLines(bp.queries), Bullets("- ", bp.dashboards));
    JoinFirstTwo(lines);
  }

  lemma JoinFirstTwo(lines: seq<string>)
    requires |lines| >= 3 && lines[1] == ""
    ensures JoinLines(lines) == lines[0] + "\n" + "\n" + JoinLines(lines[2..])
  {
    assert lines[1..][1..] == lines[2..];
    assert lines[1] + "\n" == "\n";
  }

  /** The n-th line of the query section, inside the document. */
  lemma QuerySectionLine(title: string, c: seq<string>, t: seq<string>, q: seq<string>, d: seq<string>, n: nat)
    requires n < |q|
    ensures Document(title, c, t, q, d)[4 + |c| + |t| + n] == q[n]
  {
    var front := [title, ""] + c + ["## Tables"] + t + ["## Query library"];
    assert Document(title, c, t, q, d) == front + q + (["## Dashboard starters"] + d);
  }

  /** The j-th line of the k-th query block of the query section. */
  lemma QueryLineAt(qs: seq<Query>, k: nat, j: nat)
    requires k < |qs| && j < QueryBlockSize
    ensures |QueriesLines(qs)| == QueryBlockSize * |qs|
    ensures QueryBlockSize * k + j < |QueriesLines(qs)|
    ensures QueriesLines(qs)[QueryBlockSize * k + j] == QueryLines(qs[k])[j]
  {
    var blocks := QueryBlocks(qs);
    QueryBlockIs(qs, k);
    forall i | 0 <= i < |blocks| ensures |blocks[i]| == QueryBlockSize {
      QueryBlockIs(qs, i);
    }
    UniformBlockLine(blocks, QueryBlockSize, k, j);
  }

  /** In blocks of one size n, line j of block k sits at n * k + j. */
  lemma UniformBlockLine<T>(blocks: seq<seq<T>>, n: nat, k: nat, j: nat)
    requires forall i :: 0 <= i < |blocks| ==> |blocks[i]| == n
    requires k < |blocks| && j < n
    ensures |Flatten(blocks)| == n * |blocks|
    ensures n * k + j < |Flatten(blocks)|
    ensures Flatten(blocks)[n * k + j] == blocks[k][j]
  {
    BlockAt(blocks, k);
    UniformBlocks(blocks, n, k);
    UniformBlocks(blocks, n, |blocks|);
    assert blocks[..|blocks|] == blocks;
    var q := Flatten(blocks);
    assert q[n * k + j] == q[n * k..n * k + n][j];
  }

  /** The j-th line of the k-th query block, inside the document. */
  lemma QueryLineInDocument(title: string, c: seq<string>, t: seq<string>, qs: seq<Query>, d: seq<string>,
                            k: nat, j: nat)
    requires k < |qs| && j < QueryBlockSize
    ensures var lines := Document(title, c, t, QueriesLines(qs), d);
      && |lines| == 5 + |c| + |t| + QueryBlockSize * |qs| + |d|
      && lines[4 + |c| + |t| + QueryBlockSize * k + j] == QueryLines(qs[k])[j]
      && lines[4 + |c| + |t| + QueryBlockSize * |qs|] == "## Dashboard starters"
  {
    Sections(title, c, t, QueriesLines(qs), d);
    QueryLineAt(qs, k, j);
    QuerySectionLine(title, c, t, QueriesLines(qs), d, QueryBlockSize * k + j);
  }

  /** In a built blueprint the query section holds the seven queries of the library in
      order: heading, purpose and the stripped SQL over the qualified table names; the
      dashboard ideas follow its heading to the end of the document. */
  lemma BuiltQuerySection(bp: Blueprint, doc: SchemaDoc, sqlBody: (nat, seq<string>) -> string, k: nat)
    requires bp.queries == BuildQueries(doc, sqlBody) && k < QueryCount
    ensures var lines := MarkdownLines(bp);
      var start := 4 + |ConnectionLines(bp.connection)| + |TablesLines(bp.tables)|;
      && |lines| == start + QueryBlockSize * QueryCount + 1 + |bp.dashboards|
      && lines[start + QueryBlockSize * k] == "### " + QueryNames[k]
      && lines[start + QueryBlockSize * k + 1] == "Purpose: " + QueryPurposes[k]
      && lines[start + QueryBlockSize * k + 4] == Strip(sqlBody(k, TableRefs(doc, QueryTables[k])))
      && lines[start + QueryBlockSize * QueryCount] == "## Dashboard starters"
  {
    QueryBlockInDocument(Title(bp.asOf), ConnectionLines(bp.connection), TablesLines(bp.tables), bp.queries,
                         Bullets("- ", bp.dashboards), k);
  }

  /** The heading, purpose and SQL lines of the k-th query, inside the document. */
  lemma QueryBlockInDocument(title: string, c: seq<string>, t: seq<string>, qs: seq<Query>, d: seq<string>, k: nat)
    requires k < |qs|
    ensures var lines := Document(title, c, t, QueriesLines(qs), d);
      var start := 4 + |c| + |t|;
      && |lines| == start + QueryBlockSize * |qs| + 1 + |d|
      && lines[start + QueryBlockSize * k] == "### " + qs[k].name
      && lines[start + QueryBlockSize * k + 1] == "Purpose: " + qs[k].purpose
      && lines[start + QueryBlockSize * k + 4] == Strip(qs[k].sql)
      && lines[start + QueryBlockSize * |qs|] == "## Dashboard starters"
  {
    QueryLineInDocument(title, c, t, qs, d, k, 0);
    QueryLineInDocument(title, c, t, qs, d, k, 1);
    QueryLineInDocument(title, c, t, qs, d, k, 4);
  }

  /** The n-th line of the table section, inside the document. */
  lemma TableSectionLine(title: string, c: seq<string>, t: seq<string>, q: seq<string>, d: seq<string>, n: nat)
    requires n < |t|
    ensures Document(title, c, t, q, d)[3 + |c| + n] == t[n]
  {
    var front := [title, ""] + c + ["## Tables"];
    assert Document(title, c, t, q, d) == front + t + (["## Query library"] + q + ["## Dashboard starters"] + d);
  }

  /** The i-th table's heading line in the table section, after the blocks of the tables
      before it. */
  lemma TableHeadingAt(ts: seq<TableRecord>, i: nat)
    requires i < |ts|
    ensures |TablesLines(ts[..i])| < |TablesLines(ts)|
    ensures TablesLines(ts)[|TablesLines(ts[..i])|] == "### " + ts[i].name
  {
    TableBlocksPrefix(ts, i);
    TableBlockIs(ts, i);
    FirstOfBlock(TableBlocks(ts), i);
  }

  /** The heading of the i-th table block, inside the document. */
  lemma TableHeadingInDocument(title: string, c: seq<string>, ts: seq<TableRecord>, q: seq<string>, d: seq<string>,
                               i: nat)
    requires i < |ts|
    ensures var lines := Document(title, c, TablesLines(ts), q, d);
      && 3 + |c| + |TablesLines(ts[..i])| < |lines|
      && lines[3 + |c| + |TablesLines(ts[..i])|] == "### " + ts[i].name
  {
    TableHeadingAt(ts, i);
    TableSectionLine(title, c, TablesLines(ts), q, d, |TablesLines(ts[..i])|);
  }

  /** In a built blueprint of a schema with distinct slugs, the heading of the i-th table is
      the name its queries qualify with the connection's database and schema. */
  lemma BuiltTableHeading(bp: Blueprint, doc: SchemaDoc, asOf: string, sqlBody: (nat, seq<string>) -> string, i: nat)
    requires BuiltFrom(bp, doc, asOf, sqlBody) && DistinctSlugs(doc.tables) && i < |doc.tables|
    ensures var lines := MarkdownLines(bp);
      var at := 3 + |ConnectionLines(doc.connection)| + |TablesLines(bp.tables[..i])|;
      && at < |lines|
      && lines[at] == "### " + TableName(doc, doc.tables[i].0)
      && FullyQualifiedName(doc, doc.tables[i].0) == QualifiedPrefix(doc) + TableName(doc, doc.tables[i].0)
  {
    MarkdownTableHeading(bp, i);
    assert bp.tables[i] == Describe(doc.tables[i].0, doc.tables[i].1);
    DescribedName(doc, i);
  }

  /** The heading of the i-th table of any blueprint, inside its markdown. */
  lemma MarkdownTableHeading(bp: Blueprint, i: nat)
    requires i < |bp.tables|
    ensures var lines := MarkdownLines(bp);
      var at := 3 + |ConnectionLines(bp.connection)| + |TablesLines(bp.tables[..i])|;
      && at < |lines|
      && lines[at] == "### " + bp.tables[i].name
  {
    TableHeadingInDocument(Title(bp.asOf), ConnectionLines(bp.connection), bp.tables,
                           QueriesLines(bp.queries), Bullets("- ", bp.dashboards), i);
  }
}
