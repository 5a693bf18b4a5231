/** The backend's Pydantic models: task status, request bodies and the
    article schema, as datatypes. The schema is also given as a validity
    predicate over decoded JSON; the parser (`ArticleData(**data)`) accepts
    exactly the valid values, and `model_dump` followed by parsing gives the
    article back. */
module Models {
  import opened JsonValue

  // ----- task status and requests -----

  datatype TaskStatus = Pending | Processing | Completed | Failed

  function StatusName(s: TaskStatus): string
  {
    match s
    case Pending => "pending"
    case Processing => "processing"
    case Completed => "completed"
    case Failed => "failed"
  }

  /** The `TaskStatus` literal: exactly the four names are accepted. */
  function ParseStatus(j: Json): (r: Option<TaskStatus>)
    ensures r.Some? <==> j in {JStr("pending"), JStr("processing"), JStr("completed"), JStr("failed")}
    ensures r.Some? ==> JStr(StatusName(r.value)) == j
  {
    if j == JStr("pending") then Some(Pending)
    else if j == JStr("processing") then Some(Processing)
    else if j == JStr("completed") then Some(Completed)
    else if j == JStr("failed") then Some(Failed)
    else None
  }

  lemma ParseStatusName(s: TaskStatus)
    ensures ParseStatus(JStr(StatusName(s))) == Some(s)
  {
  }

  datatype CreateTaskRequest = CreateTaskRequest(url: string, forceRefresh: bool, translateToChinese: bool)

  datatype RefreshTaskRequest = RefreshTaskRequest(url: string, translateToChinese: bool)

  /** A `bool` field with a default: absent takes the default, a JSON
      boolean its value; null or anything else fails validation. */
  function ParseBoolWithDefault(o: Json, k: string, default: bool): (r: Option<bool>)
    requires o.JObj?
    ensures k !in o.fields ==> r == Some(default)
    ensures k in o.fields ==> (r.Some? <==> o.fields[k].JBool?)
    ensures k in o.fields && r.Some? ==> r.value == o.fields[k].b
  {
    if k !in o.fields then Some(default)
    else if o.fields[k].JBool? then Some(o.fields[k].b)
    else None
  }

  /** `CreateTaskRequest`: `force_refresh` defaults to false,
      `translate_to_chinese` to true. */
  function ParseCreateTaskRequest(j: Json): (r: Option<CreateTaskRequest>)
    ensures r.Some? ==> j.JObj? && HasKey(j, "url") && j.fields["url"] == JStr(r.value.url)
    ensures r.Some? && "force_refresh" !in j.fields ==> !r.value.forceRefresh
    ensures r.Some? && "translate_to_chinese" !in j.fields ==> r.value.translateToChinese
    ensures j.JObj? && HasKey(j, "url") && j.fields["url"].JStr?
            && "force_refresh" !in j.fields && "translate_to_chinese" !in j.fields
            ==> r == Some(CreateTaskRequest(j.fields["url"].s, false, true))
  {
    if !HasKey(j, "url") || !j.fields["url"].JStr? then None
    else
      var force :- ParseBoolWithDefault(j, "force_refresh", false);
      var translate :- ParseBoolWithDefault(j, "translate_to_chinese", true);
      Some(CreateTaskRequest(j.fields["url"].s, force, translate))
  }

  /** `RefreshTaskRequest`: `translate_to_chinese` defaults to true. */
  function ParseRefreshTaskRequest(j: Json): (r: Option<RefreshTaskRequest>)
    ensures r.Some? ==> j.JObj? && HasKey(j, "url") && j.fields["url"] == JStr(r.value.url)
    ensures r.Some? && "translate_to_chinese" !in j.fields ==> r.value.translateToChinese
  {
    if !HasKey(j, "url") || !j.fields["url"].JStr? then None
    else
      var translate :- ParseBoolWithDefault(j, "translate_to_chinese", true);
      Some(RefreshTaskRequest(j.fields["url"].s, translate))
  }

  // ----- the article schema -----

  datatype BlockType =
    | Paragraph | ListBlock | Quote | Callout | Grid | Image
    | Stat | Tags | Timeline | Comparison | Table

  /** The eleven `type` literals `ContentBlock` accepts. */
  const BlockTypeNames: seq<string> :=
    ["paragraph", "list", "quote", "callout", "grid", "image",
     "stat", "tags", "timeline", "comparison", "table"]

  function BlockTypeName(t: BlockType): string
  {
    match t
    case Paragraph => "paragraph"
    case ListBlock => "list"
    case Quote => "quote"
    case Callout => "callout"
    case Grid => "grid"
    case Image => "image"
    case Stat => "stat"
    case Tags => "tags"
    case Timeline => "timeline"
    case Comparison => "comparison"
    case Table => "table"
  }

  function ParseBlockType(s: string): (r: Option<BlockType>)
    ensures r.Some? <==> s in BlockTypeNames
    ensures r.Some? ==> BlockTypeName(r.value) == s
  {
    if s == "paragraph" then Some(Paragraph)
    else if s == "list" then Some(ListBlock)
    else if s == "quote" then Some(Quote)
    else if s == "callout" then Some(Callout)
    else if s == "grid" then Some(Grid)
    else if s == "image" then Some(Image)
    else if s == "stat" then Some(Stat)
    else if s == "tags" then Some(Tags)
    else if s == "timeline" then Some(Timeline)
    else if s == "comparison" then Some(Comparison)
    else if s == "table" then Some(Table)
    else None
  }

  lemma ParseBlockTypeName(t: BlockType)
    ensures ParseBlockType(BlockTypeName(t)) == Some(t)
  {
  }

  datatype ListStyle = Bullet | Check | Number

  datatype CalloutVariant = Info | Warning | Success

  /** `Union[int, list[str]]`: a column count or column names. */
  datatype Columns = ColumnCount(count: int) | ColumnNames(names: seq<string>)

  datatype ComparisonRow = ComparisonRow(caption: string, values: seq<string>)

  datatype ContentBlock = ContentBlock(
    kind: BlockType,
    id: Option<string>,
    text: Option<string>,
    title: Option<string>,
    items: Option<seq<Json>>,
    style: Option<ListStyle>,
    author: Option<string>,
    variant: Option<CalloutVariant>,
    columns: Option<Columns>,
    src: Option<string>,
    alt: Option<string>,
    caption: Option<string>,
    rows: Option<seq<ComparisonRow>>,
    headers: Option<seq<string>>)

  datatype ArticleSection = ArticleSection(title: string, content: seq<ContentBlock>)

  datatype ArticleMeta = ArticleMeta(author: Option<string>, date: Option<string>, readTime: Option<string>)

  datatype ArticleData = ArticleData(
    title: string,
    subtitle: Option<string>,
    meta: Option<ArticleMeta>,
    sections: seq<ArticleSection>)

  /** The `Task` model; `created_at` / `updated_at` are not modelled. */
  datatype Task = Task(
    id: Option<string>,
    url: string,
    status: TaskStatus,
    result: Option<ArticleData>,
    error: Option<string>)

  /** `Task(url=...)` with every other field left at its default. */
  function NewTask(url: string): (t: Task)
    ensures t.status == Pending && t.url == url
    ensures t.id.None? && t.result.None? && t.error.None?
  {
    Task(None, url, Pending, None, None)
  }

  // ----- validity, declaratively -----

  predicate IsString(v: Json) { v.JStr? }

  predicate IsStringList(v: Json)
  {
    v.JArr? && forall k :: 0 <= k < |v.items| ==> v.items[k].JStr?
  }

  predicate IsStyle(v: Json)
  {
    v in {JStr("bullet"), JStr("check"), JStr("number")}
  }

  predicate IsVariant(v: Json)
  {
    v in {JStr("info"), JStr("warning"), JStr("success")}
  }

  predicate IsColumns(v: Json)
  {
    v.JNum? || IsStringList(v)
  }

  /** A `ComparisonRow`: a dict with a string `label` and a string list
      `values` (further keys are ignored). */
  predicate IsRow(v: Json)
  {
    v.JObj? && "label" in v.fields && v.fields["label"].JStr?
    && "values" in v.fields && IsStringList(v.fields["values"])
  }

  predicate IsRowList(v: Json)
  {
    v.JArr? && forall k :: 0 <= k < |v.items| ==> IsRow(v.items[k])
  }

  /** An `Optional[...] = None` field: absent, null, or a value `ok` accepts. */
  predicate OptionalField(o: Json, k: string, ok: Json -> bool)
    requires o.JObj?
  {
    k !in o.fields || o.fields[k].JNull? || ok(o.fields[k])
  }

  predicate ValidBlock(j: Json)
  {
    && j.JObj?
    && "type" in j.fields && j.fields["type"].JStr? && j.fields["type"].s in BlockTypeNames
    && OptionalField(j, "id", IsString)
    && OptionalField(j, "text", IsString)
    && OptionalField(j, "title", IsString)
    && OptionalField(j, "items", (v: Json) => v.JArr?)
    && OptionalField(j, "style", IsStyle)
    && OptionalField(j, "author", IsString)
    && OptionalField(j, "variant", IsVariant)
    && OptionalField(j, "columns", IsColumns)
    && OptionalField(j, "src", IsString)
    && OptionalField(j, "alt", IsString)
    && OptionalField(j, "caption", IsString)
    && OptionalField(j, "rows", IsRowList)
    && OptionalField(j, "headers", IsStringList)
  }

  predicate ValidSection(j: Json)
  {
    && j.JObj?
    && "title" in j.fields && j.fields["title"].JStr?
    && "content" in j.fields && j.fields["content"].JArr?
    && forall k :: 0 <= k < |j.fields["content"].items| ==> ValidBlock(j.fields["content"].items[k])
  }

  predicate ValidMeta(j: Json)
  {
    && j.JObj?
    && OptionalField(j, "author", IsString)
    && OptionalField(j, "date", IsString)
    && OptionalField(j, "readTime", IsString)
  }

  /** What `ArticleData(**data)` accepts: a dict with a string `title` and
      a list of valid `sections`; `subtitle` and `meta` are optional. */
  predicate ValidArticle(j: Json)
  {
    && j.JObj?
    && "title" in j.fields && j.fields["title"].JStr?
    && OptionalField(j, "subtitle", IsString)
    && OptionalField(j, "meta", ValidMeta)
    && "sections" in j.fields && j.fields["sections"].JArr?
    && forall k :: 0 <= k < |j.fields["sections"].items| ==> ValidSection(j.fields["sections"].items[k])
  }

  // ----- parsing -----

  function ParseString(v: Json): (r: Option<string>)
    ensures r.Some? <==> IsString(v)
  {
    if v.JStr? then Some(v.s) else None
  }

  function ParseStringList(v: Json): (r: Option<seq<string>>)
    ensures r.Some? <==> IsStringList(v)
  {
    if IsStringList(v) then Some(seq(|v.items|, k requires 0 <= k < |v.items| => v.items[k].s)) else None
  }

  function ParseItems(v: Json): (r: Option<seq<Json>>)
    ensures r.Some? <==> v.JArr?
  {
    if v.JArr? then Some(v.items) else None
  }

  function ParseStyle(v: Json): (r: Option<ListStyle>)
    ensures r.Some? <==> IsStyle(v)
  {
    if v == JStr("bullet") then Some(Bullet)
    else if v == JStr("check") then Some(Check)
    else if v == JStr("number") then Some(Number)
    else None
  }

  function ParseVariant(v: Json): (r: Option<CalloutVariant>)
    ensures r.Some? <==> IsVariant(v)
  {
    if v == JStr("info") then Some(Info)
    else if v == JStr("warning") then Some(Warning)
    else if v == JStr("success") then Some(Success)
    else None
  }

  function ParseColumns(v: Json): (r: Option<Columns>)
    ensures r.Some? <==> IsColumns(v)
  {
    if v.JNum? then Some(ColumnCount(v.n))
    else
      var names :- ParseStringList(v);
      Some(ColumnNames(names))
  }

  function ParseRow(v: Json): (r: Option<ComparisonRow>)
    ensures r.Some? <==> IsRow(v)
  {
    if !v.JObj? || "label" !in v.fields || !v.fields["label"].JStr? || "values" !in v.fields then None
    else
      var values :- ParseStringList(v.fields["values"]);
      Some(ComparisonRow(v.fields["label"].s, values))
  }

  /** Parse every element of a list with `p`; one failure fails the list. */
  function ParseEach<T>(items: seq<Json>, p: Json -> Option<T>): (r: Option<seq<T>>)
    ensures r.Some? <==> forall k :: 0 <= k < |items| ==> p(items[k]).Some?
    ensures r.Some? ==> |r.value| == |items| && forall k :: 0 <= k < |items| ==> p(items[k]) == Some(r.value[k])
  {
    if forall k :: 0 <= k < |items| ==> p(items[k]).Some? then
      Some(seq(|items|, k requires 0 <= k < |items| => p(items[k]).value))
    else None
  }

  function ParseRows(v: Json): (r: Option<seq<ComparisonRow>>)
    ensures r.Some? <==> IsRowList(v)
  {
    if v.JArr? then ParseEach(v.items, ParseRow) else None
  }

  /** An `Optional[...] = None` field: absent or null gives `None`. */
  function ParseOptional<T>(o: Json, k: string, p: Json -> Option<T>): (r: Option<Option<T>>)
    requires o.JObj?
    ensures k !in o.fields || o.fields[k].JNull? ==> r == Some(None)
    ensures k in o.fields && !o.fields[k].JNull? ==>
      (r.Some? <==> p(o.fields[k]).Some?) && (r.Some? ==> r.value == Some(p(o.fields[k]).value))
  {
    if k !in o.fields || o.fields[k].JNull? then Some(None)
    else
      var x :- p(o.fields[k]);
      Some(Some(x))
  }

  /** A block from its parsed fields: it validates when every field does. */
  function AssembleBlock(
    kind: Option<BlockType>, id: Option<Option<string>>, text: Option<Option<string>>,
    title: Option<Option<string>>, items: Option<Option<seq<Json>>>,
    style: Option<Option<ListStyle>>, author: Option<Option<string>>,
    variant: Option<Option<CalloutVariant>>, columns: Option<Option<Columns>>,
    src: Option<Option<string>>, alt: Option<Option<string>>, caption: Option<Option<string>>,
    rows: Option<Option<seq<ComparisonRow>>>, headers: Option<Option<seq<string>>>): (r: Option<ContentBlock>)
    ensures r.Some? <==>
      && kind.Some? && id.Some? && text.Some? && title.Some? && items.Some?
      && style.Some? && author.Some? && variant.Some? && columns.Some?
      && src.Some? && alt.Some? && caption.Some? && rows.Some? && headers.Some?
  {
    if && kind.Some? && id.Some? && text.Some? && title.Some? && items.Some?
       && style.Some? && author.Some? && variant.Some? && columns.Some?
       && src.Some? && alt.Some? && caption.Some? && rows.Some? && headers.Some?
    then
      Some(ContentBlock(kind.value, id.value, text.value, title.value, items.value,
                        style.value, author.value, variant.value, columns.value,
                        src.value, alt.value, caption.value, rows.value, headers.value))
    else None
  }

  function ParseBlock(j: Json): (r: Option<ContentBlock>)
    ensures r.Some? <==> ValidBlock(j)
  {
    if !j.JObj? || "type" !in j.fields || !j.fields["type"].JStr? then None
    else
      AssembleBlock(
        ParseBlockType(j.fields["type"].s),
        ParseOptional(j, "id", ParseString),
        ParseOptional(j, "text", ParseString),
        ParseOptional(j, "title", ParseString),
        ParseOptional(j, "items", ParseItems),
        ParseOptional(j, "style", ParseStyle),
        ParseOptional(j, "author", ParseString),
        ParseOptional(j, "variant", ParseVariant),
        ParseOptional(j, "columns", ParseColumns),
        ParseOptional(j, "src", ParseString),
        ParseOptional(j, "alt", ParseString),
        ParseOptional(j, "caption", ParseString),
        ParseOptional(j, "rows", ParseRows),
        ParseOptional(j, "headers", ParseStringList))
  }

  function ParseSection(j: Json): (r: Option<ArticleSection>)
    ensures r.Some? <==> ValidSection(j)
  {
    if !j.JObj? || "title" !in j.fields || !j.fields["title"].JStr?
       || "content" !in j.fields || !j.fields["content"].JArr?
    then None
    else
      var content :- ParseEach(j.fields["content"].items, ParseBlock);
      Some(ArticleSection(j.fields["title"].s, content))
  }

  function ParseMeta(j: Json): (r: Option<ArticleMeta>)
    ensures r.Some? <==> ValidMeta(j)
  {
    if !j.JObj? then None
    else
      var author :- ParseOptional(j, "author", ParseString);
      var date :- ParseOptional(j, "date", ParseString);
      var readTime :- ParseOptional(j, "readTime", ParseString);
      Some(ArticleMeta(author, date, readTime))
  }

  /** `ArticleData(**data)`: succeeds exactly on valid input. */
  function ParseArticle(j: Json): (r: Option<ArticleData>)
    ensures r.Some? <==> ValidArticle(j)
  {
    if !j.JObj? || "title" !in j.fields || !j.fields["title"].JStr?
       || "sections" !in j.fields || !j.fields["sections"].JArr?
    then None
    else
      var subtitle :- ParseOptional(j, "subtitle", ParseString);
      var meta :- ParseOptional(j, "meta", ParseMeta);
      var sections :- ParseEach(j.fields["sections"].items, ParseSection);
      Some(ArticleData(j.fields["title"].s, subtitle, meta, sections))
  }

  // ----- model_dump -----

  function DumpString(s: string): Json { JStr(s) }

  function DumpStringList(ss: seq<string>): Json
  {
    JArr(seq(|ss|, k requires 0 <= k < |ss| => JStr(ss[k])))
  }

  function DumpOptional<T>(o: Option<T>, d: T -> Json): Json
  {
    match o
    case None => JNull
    case Some(x) => d(x)
  }

  function DumpItems(xs: seq<Json>): Json { JArr(xs) }

  function DumpStyle(s: ListStyle): Json
  {
    match s
    case Bullet => JStr("bullet")
    case Check => JStr("check")
    case Number => JStr("number")
  }

  function DumpVariant(v: CalloutVariant): Json
  {
    match v
    case Info => JStr("info")
    case Warning => JStr("warning")
    case Success => JStr("success")
  }

  function DumpColumns(c: Columns): Json
  {
    match c
    case ColumnCount(n) => JNum(n)
    case ColumnNames(names) => DumpStringList(names)
  }

  function DumpRow(row: ComparisonRow): Json
  {
    JObj(["label", "values"], map["label" := JStr(row.caption), "values" := DumpStringList(row.values)])
  }

  function DumpRows(rows: seq<ComparisonRow>): Json
  {
    JArr(seq(|rows|, k requires 0 <= k < |rows| => DumpRow(rows[k])))
  }

  /** The field order of `ContentBlock`, which `model_dump` follows. */
  const BlockKeys: seq<string> :=
    ["type", "id", "text", "title", "items", "style", "author", "variant",
     "columns", "src", "alt", "caption", "rows", "headers"]

  function DumpBlock(b: ContentBlock): Json
  {
    JObj(BlockKeys, map[
      "type" := JStr(BlockTypeName(b.kind)),
      "id" := DumpOptional(b.id, DumpString),
      "text" := DumpOptional(b.text, DumpString),
      "title" := DumpOptional(b.title, DumpString),
      "items" := DumpOptional(b.items, DumpItems),
      "style" := DumpOptional(b.style, DumpStyle),
      "author" := DumpOptional(b.author, DumpString),
      "variant" := DumpOptional(b.variant, DumpVariant),
      "columns" := DumpOptional(b.columns, DumpColumns),
      "src" := DumpOptional(b.src, DumpString),
      "alt" := DumpOptional(b.alt, DumpString),
      "caption" := DumpOptional(b.caption, DumpString),
      "rows" := DumpOptional(b.rows, DumpRows),
      "headers" := DumpOptional(b.headers, DumpStringList)])
  }

  function DumpSection(s: ArticleSection): Json
  {
    JObj(["title", "content"], map[
      "title" := JStr(s.title),
      "content" := JArr(seq(|s.content|, k requires 0 <= k < |s.content| => DumpBlock(s.content[k])))])
  }

  function DumpMeta(m: ArticleMeta): Json
  {
    JObj(["author", "date", "readTime"], map[
      "author" := DumpOptional(m.author, DumpString),
      "date" := DumpOptional(m.date, DumpString),
      "readTime" := DumpOptional(m.readTime, DumpString)])
  }

  /** `ArticleData.model_dump()`. */
  function DumpArticle(a: ArticleData): Json
  {
    JObj(["title", "subtitle", "meta", "sections"], map[
      "title" := JStr(a.title),
      "subtitle" := DumpOptional(a.subtitle, DumpString),
      "meta" := DumpOptional(a.meta, DumpMeta),
      "sections" := JArr(seq(|a.sections|, k requires 0 <= k < |a.sections| => DumpSection(a.sections[k])))])
  }

  // ----- properties -----

  /** A dumped string list parses back. */
  lemma ParseDumpStringList(ss: seq<string>)
    ensures ParseStringList(DumpStringList(ss)) == Some(ss)
  {
    var d := DumpStringList(ss);
    assert IsStringList(d);
    assert seq(|d.items|, k requires 0 <= k < |d.items| => d.items[k].s) == ss;
  }

  /** An optional field written by `DumpOptional` reads back as the same
      option, provided a present value reads back and is not dumped as null. */
  lemma ParseOptionalDump<T>(o: Json, k: string, p: Json -> Option<T>, d: T -> Json, x: Option<T>)
    requires o.JObj? && k in o.fields && o.fields[k] == DumpOptional(x, d)
    requires x.Some? ==> !d(x.value).JNull? && p(d(x.value)) == Some(x.value)
    ensures ParseOptional(o, k, p) == Some(x)
  {
  }

  lemma ParseDumpColumns(c: Columns)
    ensures ParseColumns(DumpColumns(c)) == Some(c)
  {
    if c.ColumnNames? {
      ParseDumpStringList(c.names);
    }
  }

  lemma ParseDumpRows(rows: seq<ComparisonRow>)
    ensures ParseRows(DumpRows(rows)) == Some(rows)
  {
    var d := DumpRows(rows);
    forall k | 0 <= k < |rows| ensures ParseRow(d.items[k]) == Some(rows[k]) {
      ParseDumpStringList(rows[k].values);
    }
    var parsed := ParseEach(d.items, ParseRow);
    assert parsed.value == rows;
  }

  /** Where `model_dump` puts each field of a block, a few at a time. */
  lemma DumpBlockFields1(b: ContentBlock)
    ensures var d := DumpBlock(b);
      && d.JObj?
      && "type" in d.fields && d.fields["type"] == JStr(BlockTypeName(b.kind))
      && "id" in d.fields && d.fields["id"] == DumpOptional(b.id, DumpString)
      && "text" in d.fields && d.fields["text"] == DumpOptional(b.text, DumpString)
      && "title" in d.fields && d.fields["title"] == DumpOptional(b.title, DumpString)
  {
  }

  lemma DumpBlockFields2(b: ContentBlock)
    ensures var d := DumpBlock(b);
      && d.JObj?
      && "items" in d.fields && d.fields["items"] == DumpOptional(b.items, DumpItems)
      && "style" in d.fields && d.fields["style"] == DumpOptional(b.style, DumpStyle)
      && "author" in d.fields && d.fields["author"] == DumpOptional(b.author, DumpString)
  {
  }

  lemma DumpBlockFields3(b: ContentBlock)
    ensures var d := DumpBlock(b);
      && d.JObj?
      && "variant" in d.fields && d.fields["variant"] == DumpOptional(b.variant, DumpVariant)
      && "columns" in d.fields && d.fields["columns"] == DumpOptional(b.columns, DumpColumns)
      && "src" in d.fields && d.fields["src"] == DumpOptional(b.src, DumpString)
      && "alt" in d.fields && d.fields["alt"] == DumpOptional(b.alt, DumpString)
  {
  }

  lemma DumpBlockFields4(b: ContentBlock)
    ensures var d := DumpBlock(b);
      && d.JObj?
      && "caption" in d.fields && d.fields["caption"] == DumpOptional(b.caption, DumpString)
      && "rows" in d.fields && d.fields["rows"] == DumpOptional(b.rows, DumpRows)
      && "headers" in d.fields && d.fields["headers"] == DumpOptional(b.headers, DumpStringList)
  {
  }

  /** A dict whose every field reads back as the corresponding field of `b`
      parses to `b`. */
  lemma ParseBlockOfFields(b: ContentBlock, d: Json)
    requires d.JObj? && "type" in d.fields && d.fields["type"] == JStr(BlockTypeName(b.kind))
    requires ParseBlockType(BlockTypeName(b.kind)) == Some(b.kind)
    requires ParseOptional(d, "id", ParseString) == Some(b.id)
    requires ParseOptional(d, "text", ParseString) == Some(b.text)
    requires ParseOptional(d, "title", ParseString) == Some(b.title)
    requires ParseOptional(d, "items", ParseItems) == Some(b.items)
    requires ParseOptional(d, "style", ParseStyle) == Some(b.style)
    requires ParseOptional(d, "author", ParseString) == Some(b.author)
    requires ParseOptional(d, "variant", ParseVariant) == Some(b.variant)
    requires ParseOptional(d, "columns", ParseColumns) == Some(b.columns)
    requires ParseOptional(d, "src", ParseString) == Some(b.src)
    requires ParseOptional(d, "alt", ParseString) == Some(b.alt)
    requires ParseOptional(d, "caption", ParseString) == Some(b.caption)
    requires ParseOptional(d, "rows", ParseRows) == Some(b.rows)
    requires ParseOptional(d, "headers", ParseStringList) == Some(b.headers)
    ensures ParseBlock(d) == Some(b)
  {
  }

  lemma ReadDumpedHead(b: ContentBlock, d: Json)
    requires d.JObj?
    requires "id" in d.fields && d.fields["id"] == DumpOptional(b.id, DumpString)
    requires "text" in d.fields && d.fields["text"] == DumpOptional(b.text, DumpString)
    requires "title" in d.fields && d.fields["title"] == DumpOptional(b.title, DumpString)
    requires "items" in d.fields && d.fields["items"] == DumpOptional(b.items, DumpItems)
    requires "style" in d.fields && d.fields["style"] == DumpOptional(b.style, DumpStyle)
    requires "author" in d.fields && d.fields["author"] == DumpOptional(b.author, DumpString)
    ensures ParseOptional(d, "id", ParseString) == Some(b.id)
    ensures ParseOptional(d, "text", ParseString) == Some(b.text)
    ensures ParseOptional(d, "title", ParseString) == Some(b.title)
    ensures ParseOptional(d, "items", ParseItems) == Some(b.items)
    ensures ParseOptional(d, "style", ParseStyle) == Some(b.style)
    ensures ParseOptional(d, "author", ParseString) == Some(b.author)
  {
    ParseOptionalDump(d, "id", ParseString, DumpString, b.id);
    ParseOptionalDump(d, "text", ParseString, DumpString, b.text);
    ParseOptionalDump(d, "title", ParseString, DumpString, b.title);
    ParseOptionalDump(d, "items", ParseItems, DumpItems, b.items);
    ParseOptionalDump(d, "style", ParseStyle, DumpStyle, b.style);
    ParseOptionalDump(d, "author", ParseString, DumpString, b.author);
  }

  lemma ReadDumpedTail(b: ContentBlock, d: Json)
    requires d.JObj?
    requires "variant" in d.fields && d.fields["variant"] == DumpOptional(b.variant, DumpVariant)
    requires "columns" in d.fields && d.fields["columns"] == DumpOptional(b.columns, DumpColumns)
    requires "src" in d.fields && d.fields["src"] == DumpOptional(b.src, DumpString)
    requires "alt" in d.fields && d.fields["alt"] == DumpOptional(b.alt, DumpString)
    requires "caption" in d.fields && d.fields["caption"] == DumpOptional(b.caption, DumpString)
    requires "rows" in d.fields && d.fields["rows"] == DumpOptional(b.rows, DumpRows)
    requires "headers" in d.fields && d.fields["headers"] == DumpOptional(b.headers, DumpStringList)
    ensures ParseOptional(d, "variant", ParseVariant) == Some(b.variant)
    ensures ParseOptional(d, "columns", ParseColumns) == Some(b.columns)
    ensures ParseOptional(d, "src", ParseString) == Some(b.src)
    ensures ParseOptional(d, "alt", ParseString) == Some(b.alt)
    ensures ParseOptional(d, "caption", ParseString) == Some(b.caption)
    ensures ParseOptional(d, "rows", ParseRows) == Some(b.rows)
    ensures ParseOptional(d, "headers", ParseStringList) == Some(b.headers)
  {
    ParseOptionalDump(d, "variant", ParseVariant, DumpVariant, b.variant);
    if b.columns.Some? { ParseDumpColumns(b.columns.value); }
    ParseOptionalDump(d, "columns", ParseColumns, DumpColumns, b.columns);
    ParseOptionalDump(d, "src", ParseString, DumpString, b.src);
    ParseOptionalDump(d, "alt", ParseString, DumpString, b.alt);
    ParseOptionalDump(d, "caption", ParseString, DumpString, b.caption);
    if b.rows.Some? { ParseDumpRows(b.rows.value); }
    ParseOptionalDump(d, "rows", ParseRows, DumpRows, b.rows);
    if b.headers.Some? { ParseDumpStringList(b.headers.value); }
    ParseOptionalDump(d, "headers", ParseStringList, DumpStringList, b.headers);
  }

  /** A dict holding the dumped fields of `b` parses back to `b`. */
  lemma ParseDumpedFields(b: ContentBlock, d: Json)
    requires d.JObj? && "type" in d.fields && d.fields["type"] == JStr(BlockTypeName(b.kind))
    requires "id" in d.fields && d.fields["id"] == DumpOptional(b.id, DumpString)
    requires "text" in d.fields && d.fields["text"] == DumpOptional(b.text, DumpString)
    requires "title" in d.fields && d.fields["title"] == DumpOptional(b.title, DumpString)
    requires "items" in d.fields && d.fields["items"] == DumpOptional(b.items, DumpItems)
    requires "style" in d.fields && d.fields["style"] == DumpOptional(b.style, DumpStyle)
    requires "author" in d.fields && d.fields["author"] == DumpOptional(b.author, DumpString)
    requires "variant" in d.fields && d.fields["variant"] == DumpOptional(b.variant, DumpVariant)
    requires "columns" in d.fields && d.fields["columns"] == DumpOptional(b.columns, DumpColumns)
    requires "src" in d.fields && d.fields["src"] == DumpOptional(b.src, DumpString)
    requires "alt" in d.fields && d.fields["alt"] == DumpOptional(b.alt, DumpString)
    requires "caption" in d.fields && d.fields["caption"] == DumpOptional(b.caption, DumpString)
    requires "rows" in d.fields && d.fields["rows"] == DumpOptional(b.rows, DumpRows)
    requires "headers" in d.fields && d.fields["headers"] == DumpOptional(b.headers, DumpStringList)
    ensures ParseBlock(d) == Some(b)
  {
    ReadDumpedHead(b, d);
    ReadDumpedTail(b, d);
    ParseBlockTypeName(b.kind);
    ParseBlockOfFields(b, d);
  }

  /** `ContentBlock(**block.model_dump()) == block`. */
  lemma ParseDumpBlock(b: ContentBlock)
    ensures ParseBlock(DumpBlock(b)) == Some(b)
  {
    DumpBlockFields1(b);
    DumpBlockFields2(b);
    DumpBlockFields3(b);
    DumpBlockFields4(b);
    ParseDumpedFields(b, DumpBlock(b));
  }

  lemma ParseDumpSection(s: ArticleSection)
    ensures ParseSection(DumpSection(s)) == Some(s)
  {
    var d := DumpSection(s).fields["content"];
    forall k | 0 <= k < |s.content| ensures ParseBlock(d.items[k]) == Some(s.content[k]) {
      ParseDumpBlock(s.content[k]);
    }
    assert ParseEach(d.items, ParseBlock).value == s.content;
  }

  lemma ParseDumpMeta(m: ArticleMeta)
    ensures ParseMeta(DumpMeta(m)) == Some(m)
  {
    var d := DumpMeta(m);
    ParseOptionalDump(d, "author", ParseString, DumpString, m.author);
    ParseOptionalDump(d, "date", ParseString, DumpString, m.date);
    ParseOptionalDump(d, "readTime", ParseString, DumpString, m.readTime);
  }

  /** Parsing what `model_dump` produces gives back the same article, so a
      stored result validates again when it is read. */
  lemma ParseDumpArticle(a: ArticleData)
    ensures ParseArticle(DumpArticle(a)) == Some(a)
    ensures ValidArticle(DumpArticle(a))
  {
    var dump := DumpArticle(a);
    var d := dump.fields["sections"];
    forall k | 0 <= k < |a.sections| ensures ParseSection(d.items[k]) == Some(a.sections[k]) {
      ParseDumpSection(a.sections[k]);
    }
    assert ParseEach(d.items, ParseSection).value == a.sections;
    if a.meta.Some? { ParseDumpMeta(a.meta.value); }
    ParseOptionalDump(dump, "meta", ParseMeta, DumpMeta, a.meta);
    ParseOptionalDump(dump, "subtitle", ParseString, DumpString, a.subtitle);
  }

  /** `code` and `linkcard` blocks, which the prompt offers and the image
      pass handles, are not among the accepted block types. */
  lemma CodeAndLinkcardRejected(j: Json)
    requires HasKey(j, "type") && j.fields["type"] in {JStr("code"), JStr("linkcard")}
    ensures !ValidBlock(j)
  {
  }

  /** `rows` must be a list of `{label, values}` dicts for every block type,
      so a `table` block with array-form rows does not validate. */
  lemma ArrayRowsRejected(j: Json, k: int)
    requires HasKey(j, "rows") && j.fields["rows"].JArr?
    requires 0 <= k < |j.fields["rows"].items| && j.fields["rows"].items[k].JArr?
    ensures !ValidBlock(j)
  {
    assert !IsRow(j.fields["rows"].items[k]);
  }
}
