/** `fix_comparison_rows` of the LLM service: the same repair as the
    database pass, applied to freshly decoded model output, with three
    differences: there is no falsy-input test, sections without `"content"`
    are skipped, and the `rows` of every comparison block that has them is
    reassigned, with an empty list row labelled `str([])`. The row list
    and content loops below repeat the database ones line for line, as the
    two source functions do. */
module LlmRows {
  import opened JsonValue
  import opened ComparisonRows
  import DatabaseRows

  // ----- specification -----

  /** One row: a non-empty list becomes `{label: str(row[0]), values: [str(v) for v in row[1:]]}`,
      a dict stays, anything else, an empty list included, becomes
      `{label: str(row), values: []}`. */
  function FixRow(row: Json): (r: Json)
    ensures r.JObj?
    ensures row.JObj? ==> r == row
    ensures !row.JObj? ==> IsRowObject(r)
  {
    if row.JArr? && |row.items| >= 1 then RowObject(Str(row.items[0]), StrAll(row.items[1..]))
    else if row.JObj? then row
    else RowObject(Str(row), [])
  }

  function FixRows(rows: seq<Json>): (r: seq<Json>)
    ensures |r| == |rows|
    ensures AllObjects(r)
  {
    seq(|rows|, k requires 0 <= k < |rows| => FixRow(rows[k]))
  }

  /** The blocks the pass rewrites: comparison blocks with a `rows` key. */
  predicate Targets(block: Json)
  {
    IsComparison(block) && "rows" in block.fields
  }

  function FixBlock(block: Json): Outcome<Json>
  {
    if !block.JObj? then Raised
    else if !Targets(block) then Ok(block)
    else
      match Elements(block.fields["rows"])
      case Raised => Raised
      case Ok(rows) => Ok(Set(block, "rows", JArr(FixRows(rows))))
  }

  /** A section without `"content"` is skipped (`continue`). */
  function FixSection(section: Json): Outcome<Json>
  {
    match Contains(section, "content")
    case Raised => Raised
    case Ok(present) =>
      if !present then Ok(section)
      else
        match Index(section, "content")
        case Raised => Raised
        case Ok(content) =>
          match MapElements(content, FixBlock)
          case Raised => Raised
          case Ok(fixed) => Ok(Set(section, "content", fixed))
  }

  /** The whole pass: input without `"sections"` comes back unchanged. */
  function FixComparisonRowsSpec(data: Json): Outcome<Json>
  {
    match Contains(data, "sections")
    case Raised => Raised
    case Ok(present) =>
      if !present then Ok(data)
      else
        match Index(data, "sections")
        case Raised => Raised
        case Ok(sections) =>
          match MapElements(sections, FixSection)
          case Raised => Raised
          case Ok(fixed) => Ok(Set(data, "sections", fixed))
  }

  // ----- the source's loops -----

  /** The loop that appends to `fixed_rows`. */
  method FixRowsLoop(rows: seq<Json>) returns (fixed: seq<Json>)
    ensures fixed == FixRows(rows)
  {
    fixed := [];
    var i := 0;
    while i < |rows|
      invariant 0 <= i <= |rows| && |fixed| == i
      invariant forall k :: 0 <= k < i ==> fixed[k] == FixRow(rows[k])
    {
      var row := rows[i];
      if row.JArr? && |row.items| >= 1 {
        fixed := fixed + [RowObject(Str(row.items[0]), StrAll(row.items[1..]))];
      } else if row.JObj? {
        fixed := fixed + [row];
      } else {
        fixed := fixed + [RowObject(Str(row), [])];
      }
      i := i + 1;
    }
  }

  method FixBlockInPlace(block: Json) returns (r: Outcome<Json>)
    ensures r == FixBlock(block)
  {
    if !block.JObj? {
      return Raised;
    }
    if !Targets(block) {
      return Ok(block);
    }
    match Elements(block.fields["rows"]) {
      case Raised =>
        r := Raised;
      case Ok(rows) =>
        var fixed := FixRowsLoop(rows);
        r := Ok(Set(block, "rows", JArr(fixed)));
    }
  }

  /** `for block in section["content"]`. */
  method FixContentLoop(content: Json) returns (r: Outcome<Json>)
    ensures r == MapElements(content, FixBlock)
  {
    match Elements(content) {
      case Raised =>
        return Raised;
      case Ok(blocks) =>
        var out := [];
        var i := 0;
        while i < |blocks|
          invariant 0 <= i <= |blocks| && |out| == i
          invariant forall k :: 0 <= k < i ==> FixBlock(blocks[k]) == Ok(out[k])
        {
          var b := FixBlockInPlace(blocks[i]);
          if b.Raised? {
            MapElementsRaised(content, FixBlock, i);
            return Raised;
          }
          out := out + [b.value];
          i := i + 1;
        }
        MapElementsOk(content, FixBlock, out);
        r := if content.JArr? then Ok(JArr(out)) else Ok(content);
    }
  }

  method FixSectionInPlace(section: Json) returns (r: Outcome<Json>)
    ensures r == FixSection(section)
  {
    var present := Contains(section, "content");
    if present.Raised? {
      return Raised;
    }
    if !present.value {
      return Ok(section);
    }
    var content := Index(section, "content");
    if content.Raised? {
      return Raised;
    }
    var fixed := FixContentLoop(content.value);
    r := if fixed.Raised? then Raised else Ok(Set(section, "content", fixed.value));
  }

  /** `fix_comparison_rows`: the loop over `data["sections"]`. */
  method FixComparisonRows(data: Json) returns (r: Outcome<Json>)
    ensures r == FixComparisonRowsSpec(data)
  {
    var present := Contains(data, "sections");
    if present.Raised? {
      return Raised;
    }
    if !present.value {
      return Ok(data);
    }
    var container := Index(data, "sections");
    if container.Raised? {
      return Raised;
    }
    match Elements(container.value) {
      case Raised =>
        return Raised;
      case Ok(sections) =>
        var out := [];
        var i := 0;
        while i < |sections|
          invariant 0 <= i <= |sections| && |out| == i
          invariant forall k :: 0 <= k < i ==> FixSection(sections[k]) == Ok(out[k])
        {
          var s := FixSectionInPlace(sections[i]);
          if s.Raised? {
            MapElementsRaised(container.value, FixSection, i);
            return Raised;
          }
          out := out + [s.value];
          i := i + 1;
        }
        MapElementsOk(container.value, FixSection, out);
        if container.value.JArr? {
          r := Ok(Set(data, "sections", JArr(out)));
        } else {
          SetSame(data, "sections");
          r := Ok(data);
        }
    }
  }

  // ----- properties -----

  /** Input that is a dict without `"sections"` is returned unchanged. */
  lemma NoSectionsUnchanged(data: Json)
    requires data.JObj? && "sections" !in data.fields
    ensures FixComparisonRowsSpec(data) == Ok(data)
  {
  }

  /** A section dict without `"content"` is skipped. */
  lemma SectionWithoutContentSkipped(section: Json)
    requires section.JObj? && "content" !in section.fields
    ensures FixSection(section) == Ok(section)
  {
  }

  /** Blocks that are not comparison blocks with `rows` come back as they were. */
  lemma OtherBlocksUntouched(block: Json)
    requires block.JObj? && !Targets(block)
    ensures FixBlock(block) == Ok(block)
  {
  }

  /** Every comparison block with `rows` gets a fresh list of the same
      number of rows in the same order, each row rewritten on its own, and
      nothing else in the block changes. */
  lemma FixBlockRewritesRows(block: Json)
    requires FixBlock(block).Ok? && Targets(block)
    ensures var out := FixBlock(block).value;
      var rows := Elements(block.fields["rows"]).value;
      && out.JObj? && out.keys == block.keys
      && out.fields == block.fields["rows" := out.fields["rows"]]
      && out.fields["rows"].JArr? && |out.fields["rows"].items| == |rows|
      && AllObjects(out.fields["rows"].items)
      && forall k :: 0 <= k < |rows| ==> out.fields["rows"].items[k] == FixRow(rows[k])
  {
  }

  lemma {:induction false} FixBlockIdempotent(block: Json)
    requires FixBlock(block).Ok?
    ensures FixBlock(FixBlock(block).value) == FixBlock(block)
  {
    var out := FixBlock(block).value;
    if Targets(block) {
      var rows := out.fields["rows"].items;
      assert FixRows(rows) == rows;
      SetSame(out, "rows");
    }
  }

  lemma {:induction false} FixSectionIdempotent(section: Json)
    requires FixSection(section).Ok?
    ensures FixSection(FixSection(section).value) == FixSection(section)
  {
    var out := FixSection(section).value;
    if out != section {
      forall x | FixBlock(x).Ok? ensures FixBlock(FixBlock(x).value) == FixBlock(x) {
        FixBlockIdempotent(x);
      }
      var content := section.fields["content"];
      MapElementsIdempotent(content, FixBlock);
      var fixed := MapElements(content, FixBlock).value;
      assert out.fields["content"] == fixed;
      SetSame(out, "content");
      assert Set(section, "content", fixed) == Set(out, "content", fixed);
    }
  }

  /** The normaliser is idempotent. */
  lemma {:induction false} FixComparisonRowsIdempotent(data: Json)
    requires FixComparisonRowsSpec(data).Ok?
    ensures FixComparisonRowsSpec(FixComparisonRowsSpec(data).value) == FixComparisonRowsSpec(data)
  {
    var out := FixComparisonRowsSpec(data).value;
    if out != data {
      forall x | FixSection(x).Ok? ensures FixSection(FixSection(x).value) == FixSection(x) {
        FixSectionIdempotent(x);
      }
      var sections := data.fields["sections"];
      MapElementsIdempotent(sections, FixSection);
      var fixed := MapElements(sections, FixSection).value;
      assert out.fields["sections"] == fixed;
      SetSame(out, "sections");
      assert Set(data, "sections", fixed) == Set(out, "sections", fixed);
    }
  }

  /** The two normalisers disagree on an empty array row: the database pass
      labels it `""`, this one `str([])`, that is `"[]"`; on a non-empty
      array row or a dict they agree. */
  lemma EmptyRowLabels()
    ensures DatabaseRows.FixRow(JArr([])).fields["label"] == JStr("")
    ensures FixRow(JArr([])).fields["label"] == JStr("[]")
    ensures forall row: Json :: row.JObj? || (row.JArr? && |row.items| >= 1) ==>
      FixRow(row) == DatabaseRows.FixRow(row)
  {
    StrEmptyList();
  }
}
