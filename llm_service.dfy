/** `LLMService.convert_to_article_json`: the system prompt chosen by the
    translation flag, and the way the model's reply becomes an
    `ArticleData` or one of three error messages. The model call and
    `json.loads` are parameters. */
module LlmService {
  import opened JsonValue
  import opened Models
  import opened ComparisonRows
  import LlmRows

  /** The prompt texts: the shared system prompt and the two language
      instructions, one of which is appended. */
  datatype Prompts = Prompts(system: string, translate: string, keepOriginal: string)

  /** `SYSTEM_PROMPT + (TRANSLATE_INSTRUCTION if translate_to_chinese else KEEP_ORIGINAL_INSTRUCTION)`. */
  function SystemPrompt(p: Prompts, translate: bool): (r: string)
    ensures StartsWith(r, p.system)
    ensures r[|p.system|..] == (if translate then p.translate else p.keepOriginal)
  {
    p.system + (if translate then p.translate else p.keepOriginal)
  }

  /** The reply of the chat-completion call: `message.content`, possibly
      `None`, or a failure of the call itself, which propagates. */
  datatype LlmReply = ApiFailure | Reply(content: Option<string>)

  /** `json.loads`: a decoded value, or a `JSONDecodeError` with its text. */
  datatype Decoded = Parsed(value: Json) | DecodeError(detail: string)

  /** How a conversion ends. The detail of a validation failure, `str(e)`
      of whatever was raised, is not modelled. */
  datatype Conversion =
    | Converted(article: ArticleData)
    | EmptyResponse
    | JsonFailed(detail: string)
    | ValidationFailed
    | ApiFailed

  const EmptyMessage: string := "LLM returned empty response"
  const JsonPrefix: string := "Failed to parse LLM response as JSON: "
  const ValidationPrefix: string := "Failed to validate article structure: "

  /** The message of the `Exception` each failure raises; a validation
      failure's message starts with `ValidationPrefix`. */
  function Message(c: Conversion): (m: string)
    requires !c.Converted? && !c.ApiFailed?
    ensures c.EmptyResponse? ==> m == EmptyMessage
    ensures c.JsonFailed? ==> StartsWith(m, JsonPrefix) && m[|JsonPrefix|..] == c.detail
    ensures c.ValidationFailed? ==> m == ValidationPrefix
  {
    match c
    case EmptyResponse => EmptyMessage
    case JsonFailed(detail) => JsonPrefix + detail
    case ValidationFailed => ValidationPrefix
  }

  /** Decoded model output, repaired by `fix_comparison_rows` and validated;
      an exception in either step is a validation failure. */
  function Validate(data: Json): Conversion
  {
    match LlmRows.FixComparisonRowsSpec(data)
    case Raised => ValidationFailed
    case Ok(fixed) =>
      match ParseArticle(fixed)
      case None => ValidationFailed
      case Some(article) => Converted(article)
  }

  /** `convert_to_article_json` with the model as `llm` (system prompt and
      markdown to reply) and the decoder as `decode`. */
  function Convert(p: Prompts, translate: bool, markdown: string,
                   llm: (string, string) -> LlmReply, decode: string -> Decoded): (r: Conversion)
    ensures r.Converted? <==>
      && llm(SystemPrompt(p, translate), markdown).Reply?
      && var content := llm(SystemPrompt(p, translate), markdown).content;
      && content.Some? && content.value != ""
      && decode(content.value).Parsed?
      && LlmRows.FixComparisonRowsSpec(decode(content.value).value).Ok?
      && ValidArticle(LlmRows.FixComparisonRowsSpec(decode(content.value).value).value)
    ensures r.EmptyResponse? <==> llm(SystemPrompt(p, translate), markdown) in {Reply(None), Reply(Some(""))}
  {
    match llm(SystemPrompt(p, translate), markdown)
    case ApiFailure => ApiFailed
    case Reply(content) =>
      if content.None? || content.value == "" then EmptyResponse
      else
        match decode(content.value)
        case DecodeError(detail) => JsonFailed(detail)
        case Parsed(data) => Validate(data)
  }

  // ----- properties -----

  /** The translation flag alone decides which instruction is appended:
      with two different instructions, the prompt carries the translation
      instruction exactly when translation was asked for. */
  lemma {:induction false} PromptFollowsFlag(p: Prompts, translate: bool)
    requires p.translate != p.keepOriginal
    ensures SystemPrompt(p, translate) == p.system + p.translate <==> translate
    ensures SystemPrompt(p, translate) == p.system + p.keepOriginal <==> !translate
  {
    assert (p.system + p.translate)[|p.system|..] == p.translate;
    assert (p.system + p.keepOriginal)[|p.system|..] == p.keepOriginal;
  }

  /** A valid block survives the LLM repair unchanged, unless it is a
      comparison block whose `rows` is null. */
  lemma {:induction false} ValidBlockKept(block: Json)
    requires ValidBlock(block)
    requires LlmRows.Targets(block) ==> !block.fields["rows"].JNull?
    ensures LlmRows.FixBlock(block) == Ok(block)
  {
    if LlmRows.Targets(block) {
      var rows := block.fields["rows"].items;
      assert LlmRows.FixRows(rows) == rows by {
        forall k | 0 <= k < |rows| ensures LlmRows.FixRow(rows[k]) == rows[k] {
          assert IsRow(rows[k]);
        }
      }
      SetSame(block, "rows");
    }
  }

  /** The LLM repair iterates `rows` of every comparison block that has the
      key, so a `"rows": null`, which `ContentBlock` would accept, raises
      and the conversion fails. */
  lemma NullRowsRejected(block: Json)
    requires IsComparison(block) && "rows" in block.fields && block.fields["rows"] == JNull
    ensures LlmRows.FixBlock(block) == Raised
  {
  }

  /** A comparison block anywhere in a decoded reply whose rows is null
      makes the conversion a validation failure. */
  lemma {:induction false} NullRowsFailConversion(data: Json, i: int, j: int)
    requires BlockAt(data, i, j).Some? && LlmRows.Targets(BlockAt(data, i, j).value)
    requires BlockAt(data, i, j).value.fields["rows"] == JNull
    ensures Validate(data) == ValidationFailed
  {
    var sections := data.fields["sections"];
    var section := sections.items[i];
    var content := section.fields["content"];
    assert LlmRows.FixBlock(content.items[j]).Raised?;
    MapElementsRaised(content, LlmRows.FixBlock, j);
    assert LlmRows.FixSection(section).Raised?;
    MapElementsRaised(sections, LlmRows.FixSection, i);
  }

  /** The dump of an article without null comparison rows converts back to
      the same article: the repair leaves it alone and it validates. */
  lemma {:induction false} ValidArticleKept(data: Json)
    requires ValidArticle(data)
    requires forall i, j :: BlockAt(data, i, j).Some? && LlmRows.Targets(BlockAt(data, i, j).value)
               ==> !BlockAt(data, i, j).value.fields["rows"].JNull?
    ensures LlmRows.FixComparisonRowsSpec(data) == Ok(data)
  {
    var sections := data.fields["sections"];
    forall i | 0 <= i < |sections.items|
      ensures LlmRows.FixSection(sections.items[i]) == Ok(sections.items[i])
    {
      var section := sections.items[i];
      var content := section.fields["content"];
      forall j | 0 <= j < |content.items|
        ensures LlmRows.FixBlock(content.items[j]) == Ok(content.items[j])
      {
        assert BlockAt(data, i, j) == Some(content.items[j]);
        ValidBlockKept(content.items[j]);
      }
      MapElementsFixedPoint(content, LlmRows.FixBlock);
      SetSame(section, "content");
    }
    MapElementsFixedPoint(sections, LlmRows.FixSection);
    SetSame(data, "sections");
  }

  /** A reply that decodes to a dumped article without null comparison
      rows converts to that article. */
  lemma ConvertDumped(p: Prompts, translate: bool, markdown: string,
                      llm: (string, string) -> LlmReply, decode: string -> Decoded, a: ArticleData, text: string)
    requires llm(SystemPrompt(p, translate), markdown) == Reply(Some(text)) && text != ""
    requires decode(text) == Parsed(DumpArticle(a))
    requires forall i, j :: BlockAt(DumpArticle(a), i, j).Some? && LlmRows.Targets(BlockAt(DumpArticle(a), i, j).value)
               ==> !BlockAt(DumpArticle(a), i, j).value.fields["rows"].JNull?
    ensures Convert(p, translate, markdown, llm, decode) == Converted(a)
  {
    ParseDumpArticle(a);
    ValidArticleKept(DumpArticle(a));
  }
}
