/** `fix_comparison_rows_in_result`: the pass that rewrites array-form rows
    of stored `comparison` blocks into `{label, values}` objects before a
    task record is validated. Specified by functions on values, implemented
    by the nested loops of the source, and followed by its properties. */
module DatabaseRows {
  import opened JsonValue
  import opened ComparisonRows

  // ----- specification -----

  /** One row: a non-empty list becomes `{label: str(row[0]), values: [str(v) for v in row[1:]]}`,
      an empty list `{label: "", values: []}`, a dict stays, anything else
      becomes `{label: str(row), values: []}`. */
  function FixRow(row: Json): (r: Json)
    ensures r.JObj?
    ensures row.JObj? ==> r == row
    ensures !row.JObj? ==> IsRowObject(r)
  {
    match row
    case JArr(items) =>
      if |items| >= 1 then RowObject(Str(items[0]), StrAll(items[1..]))
      else RowObject("", [])
    case JObj(_, _) => row
    case _ => RowObject(Str(row), [])
  }

  function FixRows(rows: seq<Json>): (r: seq<Json>)
    ensures |r| == |rows|
    ensures AllObjects(r)
  {
    seq(|rows|, k requires 0 <= k < |rows| => FixRow(rows[k]))
  }

  /** `needs_fix`: some row is not a dict. */
  predicate NeedsFix(rows: seq<Json>)
  {
    exists k :: 0 <= k < |rows| && !rows[k].JObj?
  }

  /** The blocks the pass looks at: comparison blocks whose `rows` is truthy. */
  predicate Targets(block: Json)
  {
    IsComparison(block) && "rows" in block.fields && Truthy(block.fields["rows"])
  }

  /** One block, mutated in place in the source; `rows` is reassigned only
      when some row needed fixing. */
  function FixBlock(block: Json): Outcome<Json>
  {
    if !block.JObj? then Raised
    else if !Targets(block) then Ok(block)
    else
      match Elements(block.fields["rows"])
      case Raised => Raised
      case Ok(rows) =>
        if NeedsFix(rows) then Ok(Set(block, "rows", JArr(FixRows(rows)))) else Ok(block)
  }

  /** One section: its `content` (default `[]`) is walked block by block. */
  function FixSection(section: Json): Outcome<Json>
  {
    if !section.JObj? then Raised
    else if "content" !in section.fields then Ok(section)
    else
      match MapElements(section.fields["content"], FixBlock)
      case Raised => Raised
      case Ok(content) => Ok(Set(section, "content", content))
  }

  /** The whole pass: a falsy input, or one without `"sections"`, comes back
      as it was. */
  function FixResult(data: Json): Outcome<Json>
  {
    if !Truthy(data) then Ok(data)
    else
      match Contains(data, "sections")
      case Raised => Raised
      case Ok(present) =>
        if !present then Ok(data)
        else if !data.JObj? then Raised
        else
          match MapElements(data.fields["sections"], FixSection)
          case Raised => Raised
          case Ok(sections) => Ok(Set(data, "sections", sections))
  }

  // ----- the source's loops -----

  /** The inner loop building `fixed_rows` and `needs_fix`. */
  method FixRowsLoop(rows: seq<Json>) returns (fixed: seq<Json>, needsFix: bool)
    ensures fixed == FixRows(rows)
    ensures needsFix == NeedsFix(rows)
  {
    fixed, needsFix := [], false;
    var i := 0;
    while i < |rows|
      invariant 0 <= i <= |rows| && |fixed| == i
      invariant forall k :: 0 <= k < i ==> fixed[k] == FixRow(rows[k])
      invariant needsFix <==> exists k :: 0 <= k < i && !rows[k].JObj?
    {
      var row := rows[i];
      match row {
        case JArr(items) =>
          needsFix := true;
          if |items| >= 1 {
            fixed := fixed + [RowObject(Str(items[0]), StrAll(items[1..]))];
          } else {
            fixed := fixed + [RowObject("", [])];
          }
        case JObj(_, _) =>
          fixed := fixed + [row];
        case _ =>
          needsFix := true;
          fixed := fixed + [RowObject(Str(row), [])];
      }
      i := i + 1;
    }
  }

  method FixBlockInPlace(block: Json) returns (r: Outcome<Json>)
    ensures r == FixBlock(block)
  {
    if !block.JObj? {
      return Raised;
    }
    if !Targets(block) {
      return Ok(block);
    }
    match Elements(block.fields["rows"]) {
      case Raised =>
        r := Raised;
      case Ok(rows) =>
        var fixed, needsFix := FixRowsLoop(rows);
        r := if needsFix then Ok(Set(block, "rows", JArr(fixed))) else Ok(block);
    }
  }

  /** `for block in section.get("content", [])`. */
  method FixContentLoop(content: Json) returns (r: Outcome<Json>)
    ensures r == MapElements(content, FixBlock)
  {
    match Elements(content) {
      case Raised =>
        return Raised;
      case Ok(blocks) =>
        var out := [];
        var i := 0;
        while i < |blocks|
          invariant 0 <= i <= |blocks| && |out| == i
          invariant forall k :: 0 <= k < i ==> FixBlock(blocks[k]) == Ok(out[k])
        {
          var b := FixBlockInPlace(blocks[i]);
          if b.Raised? {
            MapElementsRaised(content, FixBlock, i);
            return Raised;
          }
          out := out + [b.value];
          i := i + 1;
        }
        MapElementsOk(content, FixBlock, out);
        r := if content.JArr? then Ok(JArr(out)) else Ok(content);
    }
  }

  method FixSectionInPlace(section: Json) returns (r: Outcome<Json>)
    ensures r == FixSection(section)
  {
    if !section.JObj? {
      return Raised;
    }
    if "content" !in section.fields {
      return Ok(section);
    }
    var content := FixContentLoop(section.fields["content"]);
    r := if content.Raised? then Raised else Ok(Set(section, "content", content.value));
  }

  /** `fix_comparison_rows_in_result`: the loop over `data.get("sections", [])`. */
  method FixComparisonRowsInResult(data: Json) returns (r: Outcome<Json>)
    ensures r == FixResult(data)
  {
    if !Truthy(data) {
      return Ok(data);
    }
    var present := Contains(data, "sections");
    if present.Raised? {
      return Raised;
    }
    if !present.value {
      return Ok(data);
    }
    if !data.JObj? {
      return Raised;
    }
    var container := data.fields["sections"];
    match Elements(container) {
      case Raised =>
        return Raised;
      case Ok(sections) =>
        var out := [];
        var i := 0;
        while i < |sections|
          invariant 0 <= i <= |sections| && |out| == i
          invariant forall k :: 0 <= k < i ==> FixSection(sections[k]) == Ok(out[k])
        {
          var s := FixSectionInPlace(sections[i]);
          if s.Raised? {
            MapElementsRaised(container, FixSection, i);
            return Raised;
          }
          out := out + [s.value];
          i := i + 1;
        }
        MapElementsOk(container, FixSection, out);
        if container.JArr? {
          r := Ok(Set(data, "sections", JArr(out)));
        } else {
          SetSame(data, "sections");
          r := Ok(data);
        }
    }
  }

  // ----- properties -----

  /** A falsy input, or a dict without `"sections"`, is returned unchanged. */
  lemma NoSectionsUnchanged(data: Json)
    requires !Truthy(data) || (data.JObj? && "sections" !in data.fields)
    ensures FixResult(data) == Ok(data)
  {
  }

  /** Blocks other than comparison blocks with truthy `rows` (a `table`
      block in particular) come back exactly as they were. */
  lemma OtherBlocksUntouched(block: Json)
    requires block.JObj? && !Targets(block)
    ensures FixBlock(block) == Ok(block)
  {
  }

  /** When every row is already a dict the block is not reassigned at all. */
  lemma {:induction false} ObjectRowsNotReassigned(block: Json)
    requires Targets(block) && block.fields["rows"].JArr?
    requires AllObjects(block.fields["rows"].items)
    ensures FixBlock(block) == Ok(block)
  {
  }

  /** A fixed block differs from its input in `rows` alone, and in a
      comparison block every row is then a dict; each array-form or scalar
      row was rewritten into a `{label, values}` object in place. */
  lemma {:induction false} FixBlockRewritesOnlyRows(block: Json)
    requires FixBlock(block).Ok?
    ensures var out := FixBlock(block).value;
      && block.JObj? && out.JObj? && out.keys == block.keys
      && (forall k :: k in block.fields && k != "rows" ==> k in out.fields && out.fields[k] == block.fields[k])
      && (forall k :: k in out.fields ==> k in block.fields)
    ensures Targets(block) ==>
      var rows := Elements(block.fields["rows"]).value;
      var out := FixBlock(block).value.fields["rows"];
      && (out == block.fields["rows"] || (out.JArr? && |out.items| == |rows|))
      && Elements(out).Ok? && AllObjects(Elements(out).value)
      && (out.JArr? ==> forall k :: 0 <= k < |rows| && !rows[k].JObj? ==> IsRowObject(out.items[k]))
  {
    if Targets(block) {
      var rows := Elements(block.fields["rows"]).value;
      if !NeedsFix(rows) {
        var original := block.fields["rows"];
        assert AllObjects(rows) by {
          forall k | 0 <= k < |rows| ensures rows[k].JObj? {
            if !rows[k].JObj? { assert NeedsFix(rows); }
          }
        }
        if !original.JArr? {
          assert original.JObj? || original.JStr?;
          if |rows| > 0 { assert rows[0].JStr?; }
        }
      }
    }
  }

  /** Running the fix on a block it has already fixed changes nothing. */
  lemma {:induction false} FixBlockIdempotent(block: Json)
    requires FixBlock(block).Ok?
    ensures FixBlock(FixBlock(block).value) == FixBlock(block)
  {
    var out := FixBlock(block).value;
    FixBlockRewritesOnlyRows(block);
    if Targets(block) && NeedsFix(Elements(block.fields["rows"]).value) {
      var fixed := out.fields["rows"].items;
      if Targets(out) {
        ObjectRowsNotReassigned(out);
      }
    }
  }

  lemma FixBlockIdempotentAll()
    ensures forall x :: FixBlock(x).Ok? ==> FixBlock(FixBlock(x).value) == FixBlock(x)
  {
    forall x | FixBlock(x).Ok? ensures FixBlock(FixBlock(x).value) == FixBlock(x) {
      FixBlockIdempotent(x);
    }
  }

  lemma {:induction false} FixSectionIdempotent(section: Json)
    requires FixSection(section).Ok?
    ensures FixSection(FixSection(section).value) == FixSection(section)
  {
    if "content" in section.fields {
      FixBlockIdempotentAll();
      var content := section.fields["content"];
      MapElementsIdempotent(content, FixBlock);
      var out := FixSection(section).value;
      var fixedContent := MapElements(content, FixBlock).value;
      assert out.fields["content"] == fixedContent;
      SetSame(out, "content");
      assert Set(section, "content", fixedContent) == Set(out, "content", fixedContent);
    }
  }

  /** Applying the pass twice is the same as applying it once: after one pass
      no comparison row is left in array or scalar form. */
  lemma {:induction false} FixResultIdempotent(data: Json)
    requires FixResult(data).Ok?
    ensures FixResult(FixResult(data).value) == FixResult(data)
  {
    var out := FixResult(data).value;
    if out != data {
      forall x | FixSection(x).Ok? ensures FixSection(FixSection(x).value) == FixSection(x) {
        FixSectionIdempotent(x);
      }
      var sections := data.fields["sections"];
      MapElementsIdempotent(sections, FixSection);
      var fixedSections := MapElements(sections, FixSection).value;
      assert out.fields["sections"] == fixedSections;
      assert Truthy(out);
      SetSame(out, "sections");
      assert Set(data, "sections", fixedSections) == Set(out, "sections", fixedSections);
    }
  }

  /** A fixed section keeps its list of blocks in number and order, each
      block being the fixed version of the one at the same position. */
  lemma {:induction false} FixSectionBlockwise(section: Json)
    requires FixSection(section).Ok?
    ensures var out := FixSection(section).value;
      && (HasKey(out, "content") && out.fields["content"].JArr?
          <==> HasKey(section, "content") && section.fields["content"].JArr?)
      && (HasKey(section, "content") && section.fields["content"].JArr? ==>
            && |out.fields["content"].items| == |section.fields["content"].items|
            && forall j :: 0 <= j < |section.fields["content"].items| ==>
                 FixBlock(section.fields["content"].items[j]) == Ok(out.fields["content"].items[j]))
  {
  }

  /** The pass keeps the number and order of sections and of blocks: block
      (i, j) exists after the pass exactly when it existed before, and it is
      the fixed version of the block that was there. */
  lemma {:induction false} FixResultBlockwise(data: Json, i: int, j: int)
    requires FixResult(data).Ok?
    ensures BlockAt(FixResult(data).value, i, j).Some? <==> BlockAt(data, i, j).Some?
    ensures BlockAt(data, i, j).Some? ==>
      FixBlock(BlockAt(data, i, j).value) == Ok(BlockAt(FixResult(data).value, i, j).value)
  {
    var out := FixResult(data).value;
    if out != data {
      var sections := data.fields["sections"];
      if sections.JArr? && 0 <= i < |sections.items| {
        FixSectionBlockwise(sections.items[i]);
      }
    }
  }
}
