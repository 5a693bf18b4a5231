/** What the two comparison-row normalisers share: the `{label, values}`
    object a row is rewritten to, and the test for a comparison block. */
module ComparisonRows {
  import opened JsonValue

  /** `[str(v) for v in items]`. */
  function StrAll(items: seq<Json>): (r: seq<string>)
    ensures |r| == |items|
    ensures forall k :: 0 <= k < |items| ==> r[k] == Str(items[k])
  {
    seq(|items|, k requires 0 <= k < |items| => Str(items[k]))
  }

  /** A list of strings as JSON. */
  function StrList(values: seq<string>): (r: Json)
    ensures r.JArr? && |r.items| == |values|
    ensures forall k :: 0 <= k < |values| ==> r.items[k] == JStr(values[k])
  {
    JArr(seq(|values|, k requires 0 <= k < |values| => JStr(values[k])))
  }

  /** The dict `{"label": caption, "values": values}`. */
  function RowObject(caption: string, values: seq<string>): (r: Json)
    ensures IsRowObject(r)
    ensures r.fields["label"] == JStr(caption) && r.fields["values"] == StrList(values)
  {
    JObj(["label", "values"], map["label" := JStr(caption), "values" := StrList(values)])
  }

  /** The shape `ComparisonRow` asks for: a string `label` and a list of
      string `values`. */
  predicate IsRowObject(j: Json)
  {
    && j.JObj?
    && "label" in j.fields && j.fields["label"].JStr?
    && "values" in j.fields && j.fields["values"].JArr?
    && forall k :: 0 <= k < |j.fields["values"].items| ==> j.fields["values"].items[k].JStr?
  }

  /** `block.get("type") == "comparison"`. */
  predicate IsComparison(block: Json)
  {
    HasKey(block, "type") && block.fields["type"] == JStr("comparison")
  }

  predicate AllObjects(rows: seq<Json>)
  {
    forall k :: 0 <= k < |rows| ==> rows[k].JObj?
  }

  /** The block at position `j` of section `i`, when the document has a list
      of sections, that section is a dict with a list `content`, and both
      positions exist. */
  function BlockAt(doc: Json, i: int, j: int): Option<Json>
  {
    if HasKey(doc, "sections") && doc.fields["sections"].JArr?
       && 0 <= i < |doc.fields["sections"].items|
    then
      var section := doc.fields["sections"].items[i];
      if HasKey(section, "content") && section.fields["content"].JArr?
         && 0 <= j < |section.fields["content"].items|
      then Some(section.fields["content"].items[j])
      else None
    else None
  }
}
