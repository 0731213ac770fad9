/** The schema side of the Snowflake blueprint: the parsed schema document, the table
    descriptions with their defaults, fully-qualified table names and the query library. */
module SnowflakeSchema {
  import opened Wrappers

  /** The metadata of one table under `tables`; every key is optional. */
  datatype TableMeta = TableMeta(
    name: Option<string>, description: Option<string>, grain: Option<string>,
    primaryKeys: Option<seq<string>>, columns: Option<seq<string>>)

  /** The parsed schema document: the `connection` mapping and the `tables` mapping in
      document order (an absent section is empty). */
  datatype SchemaDoc = SchemaDoc(connection: map<string, string>, tables: seq<(string, TableMeta)>)

  /** One entry of `describe_tables`. */
  datatype TableRecord = TableRecord(
    slug: string, name: string, description: string, grain: string,
    primaryKeys: seq<string>, columns: seq<string>)

  /** One entry of the query library; the SQL text itself is opaque to this model. */
  datatype Query = Query(name: string, purpose: string, sql: string)

  // ---- upper-casing -------------------------------------------------------------

  predicate IsLower(c: char) {
    'a' <= c <= 'z'
  }

  function UpperChar(c: char): char {
    if IsLower(c) then (c as int - 32) as char else c
  }

  /** `str.upper()` on ASCII letters. */
  function Upper(s: string): (r: string)
    ensures |r| == |s|
    ensures forall i :: 0 <= i < |s| ==> r[i] == UpperChar(s[i])
  {
    if s == [] then [] else [UpperChar(s[0])] + Upper(s[1..])
  }

  /** The result has no lower-case letter, every other character is kept, and upper-casing
      twice changes nothing. */
  lemma UpperIsUpper(s: string)
    ensures forall i :: 0 <= i < |s| ==> !IsLower(Upper(s)[i])
    ensures forall i :: 0 <= i < |s| && !IsLower(s[i]) ==> Upper(s)[i] == s[i]
    ensures Upper(Upper(s)) == Upper(s)
  {
  }

  // ---- names --------------------------------------------------------------------

  /** A connection setting, "" when absent. */
  function Setting(conn: map<string, string>, key: string): string {
    if key in conn then conn[key] else ""
  }

  /** `tables.get(slug)`: the entry for a slug, if the document has one. */
  function Lookup(tables: seq<(string, TableMeta)>, slug: string): (m: Option<TableMeta>)
    ensures m.Some? <==> exists i :: 0 <= i < |tables| && tables[i].0 == slug
    ensures m.Some? ==> exists i :: 0 <= i < |tables| && tables[i] == (slug, m.value)
  {
    if tables == [] then None
    else if tables[0].0 == slug then Some(tables[0].1)
    else
      var rest := Lookup(tables[1..], slug);
      assert forall i :: 1 <= i < |tables| ==> tables[i] == tables[1..][i - 1];
      rest
  }

  /** The table's configured name, falling back to the slug: an unknown slug and a table
      without a name both give the slug, and any other result is the configured name of a
      table with that slug. */
  function TableName(doc: SchemaDoc, slug: string): (r: string)
    ensures (forall i :: 0 <= i < |doc.tables| ==> doc.tables[i].0 != slug) ==> r == slug
    ensures Lookup(doc.tables, slug).Some? && Lookup(doc.tables, slug).value.name.None? ==> r == slug
    ensures r == slug || exists i :: 0 <= i < |doc.tables| && doc.tables[i].0 == slug && doc.tables[i].1.name == Some(r)
  {
    match Lookup(doc.tables, slug)
    case Some(meta) => meta.name.GetOr(slug)
    case None => slug
  }

  /** DATABASE.SCHEMA. with both parts upper-cased. */
  function QualifiedPrefix(doc: SchemaDoc): string {
    Upper(Setting(doc.connection, "database")) + "." + Upper(Setting(doc.connection, "schema")) + "."
  }

  /** `SnowflakeSchemaAgent.fully_qualified_name`: the upper-cased `DATABASE.SCHEMA.` prefix
      followed by the table's name. */
  function FullyQualifiedName(doc: SchemaDoc, slug: string): (r: string)
    ensures r == QualifiedPrefix(doc) + TableName(doc, slug)
    ensures |r| == |Setting(doc.connection, "database")| + |Setting(doc.connection, "schema")| + 2 + |TableName(doc, slug)|
  {
    var database := Upper(Setting(doc.connection, "database"));
    var schema := Upper(Setting(doc.connection, "schema"));
    database + "." + schema + "." + TableName(doc, slug)
  }

  /** Splits at the first dot: the part before and the part after (the whole string and ""
      when there is none). */
  function SplitAtDot(s: string): (string, string) {
    if s == [] then ([], [])
    else if s[0] == '.' then ([], s[1..])
    else
      var (a, b) := SplitAtDot(s[1..]);
      ([s[0]] + a, b)
  }

  lemma {:induction false} SplitAtDotOfJoin(a: string, b: string)
    requires '.' !in a
    ensures SplitAtDot(a + "." + b) == (a, b)
  {
    if a != [] {
      assert a[0] in a && '.' !in a[1..];
      SplitAtDotOfJoin(a[1..], b);
      assert (a + "." + b)[1..] == a[1..] + "." + b;
      assert [a[0]] + a[1..] == a;
    } else {
      assert a + "." + b == "." + b;
    }
  }

  lemma UpperKeepsDots(s: string)
    ensures '.' in Upper(s) <==> '.' in s
  {
    var u := Upper(s);
    if '.' in u {
      var i :| 0 <= i < |u| && u[i] == '.';
      assert s[i] == '.';
    }
    if '.' in s {
      var i :| 0 <= i < |s| && s[i] == '.';
      assert u[i] == '.';
    }
  }

  /** The qualified name reads back as its three parts when database and schema contain no
      dot: upper-cased database, upper-cased schema, then the table name as configured. */
  lemma QualifiedNameParts(doc: SchemaDoc, slug: string)
    requires '.' !in Setting(doc.connection, "database") && '.' !in Setting(doc.connection, "schema")
    ensures var (database, rest) := SplitAtDot(FullyQualifiedName(doc, slug));
            var (schema, name) := SplitAtDot(rest);
            database == Upper(Setting(doc.connection, "database")) &&
            schema == Upper(Setting(doc.connection, "schema")) &&
            name == TableName(doc, slug)
  {
    var d := Upper(Setting(doc.connection, "database"));
    var s := Upper(Setting(doc.connection, "schema"));
    var n := TableName(doc, slug);
    UpperKeepsDots(Setting(doc.connection, "database"));
    UpperKeepsDots(Setting(doc.connection, "schema"));
    assert FullyQualifiedName(doc, slug) == d + "." + (s + "." + n);
    SplitAtDotOfJoin(d, s + "." + n);
    SplitAtDotOfJoin(s, n);
  }

  /** An unknown slug, or a table without a name, is used as the name itself; without a
      database and schema the name starts with "..". */
  lemma NameFallbacks(doc: SchemaDoc, slug: string)
    ensures (forall i :: 0 <= i < |doc.tables| ==> doc.tables[i].0 != slug) ==>
      FullyQualifiedName(doc, slug) == QualifiedPrefix(doc) + slug
    ensures Lookup(doc.tables, slug).Some? && Lookup(doc.tables, slug).value.name.None? ==>
      FullyQualifiedName(doc, slug) == QualifiedPrefix(doc) + slug
    ensures "database" !in doc.connection && "schema" !in doc.connection ==>
      FullyQualifiedName(doc, slug) == ".." + TableName(doc, slug)
  {
  }

  // ---- table descriptions -------------------------------------------------------

  /** One table record with its defaults: the slug as name, "" for text, [] for lists. */
  function Describe(slug: string, meta: TableMeta): TableRecord {
    TableRecord(
      slug, meta.name.GetOr(slug), meta.description.GetOr(""), meta.grain.GetOr(""),
      meta.primaryKeys.GetOr([]), meta.columns.GetOr([]))
  }

  /** `SnowflakeSchemaAgent.describe_tables`: one record per table, in document order. */
  method DescribeTables(doc: SchemaDoc) returns (tables: seq<TableRecord>)
    ensures |tables| == |doc.tables|
    ensures forall i :: 0 <= i < |tables| ==> tables[i] == Describe(doc.tables[i].0, doc.tables[i].1)
  {
    tables := [];
    for i := 0 to |doc.tables|
      invariant |tables| == i
      invariant forall k :: 0 <= k < i ==> tables[k] == Describe(doc.tables[k].0, doc.tables[k].1)
    {
      var (name, meta) := doc.tables[i];
      tables := tables + [TableRecord(
        name, meta.name.GetOr(name), meta.description.GetOr(""), meta.grain.GetOr(""),
        meta.primaryKeys.GetOr([]), meta.columns.GetOr([]))];
    }
  }

  ghost predicate DistinctSlugs(tables: seq<(string, TableMeta)>) {
    forall i, j :: 0 <= i < j < |tables| ==> tables[i].0 != tables[j].0
  }

  lemma {:induction false} LookupFinds(tables: seq<(string, TableMeta)>, i: nat)
    requires DistinctSlugs(tables) && i < |tables|
    ensures Lookup(tables, tables[i].0) == Some(tables[i].1)
  {
    if i > 0 {
      assert tables[0].0 != tables[i].0;
      assert DistinctSlugs(tables[1..]) by {
        forall a, b | 0 <= a < b < |tables| - 1 ensures tables[1..][a].0 != tables[1..][b].0 {
          assert tables[1..][a] == tables[a + 1] && tables[1..][b] == tables[b + 1];
        }
      }
      LookupFinds(tables[1..], i - 1);
    }
  }

  /** The described name of every table is the one its qualified name uses, so the table
      headings of the blueprint and the queries' table references agree. */
  lemma DescribedNamesQualify(doc: SchemaDoc, i: nat)
    requires DistinctSlugs(doc.tables) && i < |doc.tables|
    ensures FullyQualifiedName(doc, doc.tables[i].0) ==
      QualifiedPrefix(doc) + Describe(doc.tables[i].0, doc.tables[i].1).name
  {
    DescribedName(doc, i);
  }

  /** With distinct slugs, a table's name is the one its description carries. */
  lemma DescribedName(doc: SchemaDoc, i: nat)
    requires DistinctSlugs(doc.tables) && i < |doc.tables|
    ensures TableName(doc, doc.tables[i].0) == Describe(doc.tables[i].0, doc.tables[i].1).name
  {
    LookupFinds(doc.tables, i);
  }

  // ---- query library ------------------------------------------------------------

  const QueryCount: nat := 7

  const QueryNames: seq<string> := [
    "Benchmark coverage and freshness",
    "Daily performance with FX normalization",
    "Monthly performance and drawdowns",
    "Constituent weights with sector and country tilt",
    "Fundamental snapshot by benchmark",
    "Attribution-ready joined fact table",
    "Data quality checks"]

  const QueryPurposes: seq<string> := [
    "Check latest date per benchmark and ensure feed completeness.",
    "Pull daily total return with currency conversion into a uniform base.",
    "Resample to month-end, compute rolling return, and drawdown path for dashboards.",
    "Surface benchmark composition for attribution tiles.",
    "Aggregate valuation and quality ratios using the latest constituent fundamentals.",
    "Produce a wide fact table combining returns, weights, and fundamentals for BI tools.",
    "Detect gaps, nulls, or outlier returns before publishing dashboards."]

  /** The table slugs each query interpolates, in order of appearance in its SQL. */
  const QueryTables: seq<seq<string>> := [
    ["benchmark_returns"],
    ["benchmark_returns", "benchmark_master"],
    ["benchmark_returns_fx"],
    ["benchmark_constituents", "benchmark_master", "benchmark_constituents"],
    ["constituent_fundamentals", "benchmark_constituents", "benchmark_master", "benchmark_constituents"],
    ["benchmark_returns_fx", "benchmark_constituents", "constituent_fundamentals",
     "constituent_fundamentals", "benchmark_master"],
    ["benchmark_constituents", "benchmark_returns_fx", "constituent_fundamentals"]]

  /** The qualified names of a list of slugs (`_table`). */
  function TableRefs(doc: SchemaDoc, slugs: seq<string>): (refs: seq<string>)
    ensures |refs| == |slugs|
    ensures forall j :: 0 <= j < |slugs| ==> refs[j] == FullyQualifiedName(doc, slugs[j])
  {
    seq(|slugs|, j requires 0 <= j < |slugs| => FullyQualifiedName(doc, slugs[j]))
  }

  /** `SnowflakeQueryAgent.build_queries`. `sqlBody(k, refs)` stands for the text of the k-th
      SQL template with the table references `refs` interpolated in order. */
  function BuildQueries(doc: SchemaDoc, sqlBody: (nat, seq<string>) -> string): (qs: seq<Query>)
    ensures |qs| == QueryCount
    ensures forall k :: 0 <= k < QueryCount ==>
      qs[k].name == QueryNames[k] && qs[k].purpose == QueryPurposes[k] &&
      qs[k].sql == sqlBody(k, TableRefs(doc, QueryTables[k]))
  {
    seq(QueryCount, k requires 0 <= k < QueryCount =>
      Query(QueryNames[k], QueryPurposes[k], sqlBody(k, TableRefs(doc, QueryTables[k]))))
  }

  /** Every table reference of every query is qualified with the connection's upper-cased
      database and schema, and names a table the schema is expected to define. */
  lemma QueryReferencesQualified(doc: SchemaDoc, k: nat, j: nat)
    requires k < QueryCount && j < |QueryTables[k]|
    ensures var ref := TableRefs(doc, QueryTables[k])[j];
      |ref| >= |QualifiedPrefix(doc)| && ref[..|QualifiedPrefix(doc)|] == QualifiedPrefix(doc) &&
      ref[|QualifiedPrefix(doc)|..] == TableName(doc, QueryTables[k][j])
  {
    var ref := TableRefs(doc, QueryTables[k])[j];
    assert ref == QualifiedPrefix(doc) + TableName(doc, QueryTables[k][j]);
  }

}
