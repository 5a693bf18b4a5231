/** `ImageService`: choosing a file extension for a downloaded image, the
    download-and-upload step with its skip and failure rules, and the pass
    that rewrites the image URLs of an article document. The network,
    `urlparse`, `hashlib.md5` and the admin token are inputs. */
module ImageService {
  import opened JsonValue

  // ----- file extension -----

  /** The extensions recognised at the end of a URL path, in the order
      they are tried. */
  const Extensions: seq<string> := [".jpg", ".jpeg", ".png", ".gif", ".webp", ".svg", ".bmp"]

  /** The index of the first extension, from `i` on, that `s` ends with. */
  function FirstSuffixFrom(s: string, i: nat): (r: Option<nat>)
    requires i <= |Extensions|
    ensures r.Some? ==> i <= r.value < |Extensions| && EndsWith(s, Extensions[r.value])
    ensures r.Some? ==> forall k :: i <= k < r.value ==> !EndsWith(s, Extensions[k])
    ensures r.None? <==> forall k :: i <= k < |Extensions| ==> !EndsWith(s, Extensions[k])
    decreases |Extensions| - i
  {
    if i == |Extensions| then None
    else if EndsWith(s, Extensions[i]) then Some(i)
    else FirstSuffixFrom(s, i + 1)
  }

  /** The extension a content type stands for, by substring, in the order
      jpeg/jpg, png, gif, webp, svg; `.jpg` otherwise. */
  function ContentTypeExtension(contentType: string): (r: string)
    ensures r in Extensions && r != ".jpeg" && r != ".bmp"
  {
    var ct := Lower(contentType);
    if IsSubstring("jpeg", ct) || IsSubstring("jpg", ct) then ".jpg"
    else if IsSubstring("png", ct) then ".png"
    else if IsSubstring("gif", ct) then ".gif"
    else if IsSubstring("webp", ct) then ".webp"
    else if IsSubstring("svg", ct) then ".svg"
    else ".jpg"
  }

  /** `_get_file_extension` on the path component of the URL: the first
      listed extension the lower-cased path ends with, else the one the
      content type names. The result is always one of the seven. */
  function FileExtension(path: string, contentType: string): (r: string)
    ensures r in Extensions
    ensures FirstSuffixFrom(Lower(path), 0).Some? ==> EndsWith(Lower(path), r)
    ensures FirstSuffixFrom(Lower(path), 0).None? ==> r == ContentTypeExtension(contentType)
  {
    match FirstSuffixFrom(Lower(path), 0)
    case Some(k) => Extensions[k]
    case None => ContentTypeExtension(contentType)
  }

  /** The path's own extension, when it has one, decides: the content type
      is then irrelevant, and no earlier extension in the list matches. */
  lemma PathExtensionWins(path: string, contentType: string, k: nat)
    requires k < |Extensions| && EndsWith(Lower(path), Extensions[k])
    ensures FileExtension(path, contentType) == FileExtension(path, "")
    ensures EndsWith(Lower(path), FileExtension(path, contentType))
    ensures exists j :: 0 <= j <= k && FileExtension(path, contentType) == Extensions[j]
  {
    var j := FirstSuffixFrom(Lower(path), 0).value;
    assert FileExtension(path, contentType) == Extensions[j];
  }

  /** Every listed extension is written in lower case. */
  lemma ExtensionsLowerCase(e: string)
    requires e in Extensions
    ensures Lower(e) == e
  {
  }

  /** No listed extension is a suffix of a path ending in a different
      listed extension. */
  lemma {:induction false} DistinctSuffixes(stem: string, e: string, f: string)
    requires e in Extensions && f in Extensions && e != f
    ensures !EndsWith(stem + e, f)
  {
    var s := stem + e;
    OneDot(e);
    OneDot(f);
    if |f| <= |s| {
      var t := s[|s| - |f|..];
      if |f| < |e| {
        assert t[0] == e[|e| - |f|];
      } else if |f| == |e| {
        assert t == e;
      } else {
        assert t[|f| - |e|] == e[0];
      }
    }
  }

  /** Every listed extension has its only dot in front. */
  lemma OneDot(x: string)
    requires x in Extensions
    ensures |x| >= 1 && x[0] == '.'
    ensures forall i :: 1 <= i < |x| ==> x[i] != '.'
  {
  }

  /** A path built as stem plus a listed extension is recognised as having
      that extension, whatever the content type: the extension of a file
      name the service generates reads back from it. */
  lemma {:induction false} AppendedExtensionRecognised(stem: string, e: string, contentType: string)
    requires e in Extensions
    ensures FileExtension(stem + e, contentType) == e
  {
    var s := Lower(stem + e);
    assert s == Lower(stem) + e by {
      ExtensionsLowerCase(e);
      assert Lower(stem + e) == Lower(stem) + Lower(e);
    }
    var k :| 0 <= k < |Extensions| && Extensions[k] == e;
    assert EndsWith(s, e);
    forall j | 0 <= j < |Extensions| && Extensions[j] != e
      ensures !EndsWith(s, Extensions[j])
    {
      DistinctSuffixes(Lower(stem), e, Extensions[j]);
    }
    var r := FirstSuffixFrom(s, 0);
    assert r.Some? && Extensions[r.value] == e;
  }

  // ----- download and upload -----

  /** Where uploaded files are served from, below the base URL. */
  const FilesPath: string := "/api/files/infographic_images/"

  /** The GET of the image: a raised exception (timeout, connection
      error), or a response with its status, body and `content-type`
      header if any. */
  datatype Download = DownloadRaised | Downloaded(status: int, body: seq<bv8>, contentType: Option<string>)

  /** The multipart upload: file name, bytes, file content type and the
      `original_url` form field. */
  datatype UploadForm = UploadForm(filename: string, data: seq<bv8>, contentType: string, originalUrl: string)

  /** The POST of the upload: a raised exception, or a response whose body
      decodes as JSON (`Some`) or does not (`None`). */
  datatype UploadReply = UploadRaised | UploadResponse(status: int, record: Option<Json>)

  /** What the service depends on: `urlparse(url).path`, the hex digest of
      `hashlib.md5`, the download, the admin token (or the exception
      raised while obtaining it), and the upload given the token. */
  datatype ImageEnv = ImageEnv(
    urlPath: string -> string,
    md5Hex: string -> string,
    download: string -> Download,
    token: Outcome<string>,
    upload: (string, UploadForm) -> UploadReply)

  /** Python's `s[:n]`. */
  function Prefix(s: string, n: nat): (r: string)
    ensures |r| <= n && r <= s
    ensures |s| <= n ==> r == s
  {
    if |s| <= n then s else s[..n]
  }

  /** The form uploaded for `url` after a download: the first twelve hex
      digits of its MD5 plus the chosen extension, the downloaded bytes,
      the content type or `image/jpeg`, and the URL cut to 500 characters. */
  function Form(url: string, body: seq<bv8>, contentType: string, env: ImageEnv): (r: UploadForm)
    ensures r.data == body && r.originalUrl <= url && |r.originalUrl| <= 500
    ensures r.contentType == (if contentType == "" then "image/jpeg" else contentType)
    ensures EndsWith(r.filename, FileExtension(env.urlPath(url), contentType))
  {
    var name := Prefix(env.md5Hex(url), 12) + FileExtension(env.urlPath(url), contentType);
    UploadForm(name, body, if contentType == "" then "image/jpeg" else contentType, Prefix(url, 500))
  }

  /** `{base_url}/api/files/infographic_images/{id}/{image}`. */
  function FilesUrl(base: string, id: Json, image: Json): (r: string)
    ensures StartsWith(r, base + FilesPath)
  {
    base + FilesPath + Str(id) + "/" + Str(image)
  }

  /** The network half of `download_and_upload_image` for a URL that is
      neither hosted on the base nor a data URL. */
  function Transfer(base: string, url: string, env: ImageEnv): (r: Option<Json>)
    ensures r.Some? ==> r.value.JStr? && StartsWith(r.value.s, base + FilesPath)
  {
    match env.download(url)
    case DownloadRaised => None
    case Downloaded(status, body, header) =>
      if status != 200 || |body| < 100 then None
      else
        var contentType := if header.Some? then header.value else "";
        match env.token
        case Raised => None
        case Ok(token) =>
          match env.upload(token, Form(url, body, contentType, env))
          case UploadRaised => None
          case UploadResponse(upStatus, record) =>
            if upStatus != 200 && upStatus != 201 then None
            else if record.None? || !record.value.JObj? then None
            else
              var fields := record.value.fields;
              var id := if "id" in fields then fields["id"] else JNull;
              var image := if "image" in fields then fields["image"] else JNull;
              if Truthy(id) && Truthy(image) then Some(JStr(FilesUrl(base, id, image))) else None
  }

  /** `download_and_upload_image`: the input itself when it contains the
      base URL or is a data URL, the uploaded file's URL on success, and
      `None` on every failure, including an input that is not a string. */
  function DownloadAndUpload(base: string, url: Json, env: ImageEnv): (r: Option<Json>)
    ensures r.Some? ==> r.value == url || (r.value.JStr? && StartsWith(r.value.s, base + FilesPath))
  {
    match Contains(url, base)
    case Raised => None
    case Ok(hosted) =>
      if hosted then Some(url)
      else if !url.JStr? then None
      else if StartsWith(url.s, "data:") then Some(url)
      else Transfer(base, url.s, env)
  }

  /** A URL that already contains the base URL, or a data URL, comes back
      unchanged and nothing is downloaded. */
  lemma SkipsHostedAndDataUrls(base: string, url: string, env: ImageEnv)
    requires IsSubstring(base, url) || StartsWith(url, "data:")
    ensures DownloadAndUpload(base, JStr(url), env) == Some(JStr(url))
  {
  }

  /** A download that raises, answers other than 200, or brings fewer than
      100 bytes yields `None`. */
  lemma {:induction false} DownloadFailureIsNone(base: string, url: string, env: ImageEnv)
    requires !IsSubstring(base, url) && !StartsWith(url, "data:")
    requires env.download(url).DownloadRaised? ||
             env.download(url).status != 200 || |env.download(url).body| < 100
    ensures DownloadAndUpload(base, JStr(url), env).None?
  {
  }

  /** After a good download, an upload reply that is not 200/201, not a
      JSON object, or lacks a truthy `id` or `image` yields `None`. */
  lemma {:induction false} UploadFailureIsNone(base: string, url: string, env: ImageEnv)
    requires !IsSubstring(base, url) && !StartsWith(url, "data:")
    requires env.download(url).Downloaded? && env.download(url).status == 200
    requires |env.download(url).body| >= 100 && env.token.Ok?
    requires var d := env.download(url);
      var reply := env.upload(env.token.value,
        Form(url, d.body, if d.contentType.Some? then d.contentType.value else "", env));
      || reply.UploadRaised?
      || (reply.status != 200 && reply.status != 201)
      || reply.record.None? || !reply.record.value.JObj?
      || !HasKey(reply.record.value, "id") || !Truthy(reply.record.value.fields["id"])
      || !HasKey(reply.record.value, "image") || !Truthy(reply.record.value.fields["image"])
    ensures DownloadAndUpload(base, JStr(url), env).None?
  {
  }

  /** A good download and an accepted upload whose record names an id and
      a file give the served URL of that file. */
  lemma {:induction false} UploadSuccessUrl(base: string, url: string, env: ImageEnv, id: Json, image: Json)
    requires !IsSubstring(base, url) && !StartsWith(url, "data:")
    requires env.download(url).Downloaded? && env.download(url).status == 200
    requires |env.download(url).body| >= 100 && env.token.Ok?
    requires var d := env.download(url);
      var reply := env.upload(env.token.value,
        Form(url, d.body, if d.contentType.Some? then d.contentType.value else "", env));
      && reply.UploadResponse? && reply.status in {200, 201}
      && reply.record.Some? && HasKey(reply.record.value, "id") && HasKey(reply.record.value, "image")
      && reply.record.value.fields["id"] == id && reply.record.value.fields["image"] == image
    requires Truthy(id) && Truthy(image)
    ensures DownloadAndUpload(base, JStr(url), env) == Some(JStr(base + FilesPath + Str(id) + "/" + Str(image)))
  {
  }

  /** A value that is not a string, a list or a dict makes the `in` test
      raise, and the step yields `None`. */
  lemma NonContainerIsNone(base: string, url: Json, env: ImageEnv)
    requires url.JNull? || url.JBool? || url.JNum?
    ensures DownloadAndUpload(base, url, env).None?
  {
  }

  /** `base in s` always holds when `s` starts with `base`. */
  lemma PrefixIsSubstring(base: string, s: string)
    requires StartsWith(s, base)
    ensures IsSubstring(base, s)
  {
    assert OccursAt(base, s, 0);
  }

  // ----- rewriting the image URLs of a document -----

  /** The result of processing one value: the value afterwards and the
      numbers of replaced and failed image URLs in it. */
  datatype Pass = Pass(doc: Json, processed: nat, failed: nat)

  /** The result of processing the elements of a list in turn. */
  datatype Tally = Tally(items: seq<Json>, processed: nat, failed: nat)

  /** The field of a block that holds an image URL to process: `src` of a
      block whose `type` is `"image"` and whose `src` is truthy, else
      `image` of a `"linkcard"` block whose `image` is truthy. */
  function ImageField(block: Json): (r: Option<string>)
    requires block.JObj?
    ensures r.Some? ==> r.value in block.fields && Truthy(block.fields[r.value])
    ensures r.Some? ==>
      "type" in block.fields && r.value == (if block.fields["type"] == JStr("image") then "src" else "image")
  {
    var kind := if "type" in block.fields then block.fields["type"] else JNull;
    if kind == JStr("image") && "src" in block.fields && Truthy(block.fields["src"]) then Some("src")
    else if kind == JStr("linkcard") && "image" in block.fields && Truthy(block.fields["image"]) then Some("image")
    else None
  }

  /** A block whose image URL the uploader could not handle. */
  predicate Fails(block: Json, upload: Json -> Option<Json>)
  {
    block.JObj? && ImageField(block).Some? && upload(block.fields[ImageField(block).value]).None?
  }

  /** One block: its image URL is replaced by the uploader's answer when
      that is truthy and different; a `None` answer counts as a failure. */
  function ProcessBlock(block: Json, upload: Json -> Option<Json>): (r: Outcome<Pass>)
    ensures r.Ok? <==> block.JObj?
  {
    if !block.JObj? then Raised
    else
      match ImageField(block)
      case None => Ok(Pass(block, 0, 0))
      case Some(key) =>
        var original := block.fields[key];
        match upload(original)
        case None => Ok(Pass(block, 0, 1))
        case Some(v) =>
          if Truthy(v) && v != original then Ok(Pass(Set(block, key, v), 1, 0))
          else Ok(Pass(block, 0, 0))
  }

  /** A block changes exactly when it is counted as processed, and then
      only its image field changes, to the uploader's truthy, different
      answer; it is counted as failed exactly when the uploader answered
      `None`, and never both. */
  lemma BlockOutcome(block: Json, upload: Json -> Option<Json>)
    requires block.JObj?
    ensures var p := ProcessBlock(block, upload).value;
      && p.processed + p.failed <= 1
      && (p.processed == 1 <==> p.doc != block)
      && (p.failed == 1 <==> Fails(block, upload))
    ensures var p := ProcessBlock(block, upload).value;
      p.doc != block <==>
        && ImageField(block).Some?
        && var key := ImageField(block).value;
        && upload(block.fields[key]).Some?
        && var v := upload(block.fields[key]).value;
        && Truthy(v) && v != block.fields[key]
    ensures var p := ProcessBlock(block, upload).value;
      p.doc != block ==>
        var key := ImageField(block).value;
        p.doc == Set(block, key, upload(block.fields[key]).value)
  {
    if ImageField(block).Some? {
      var key := ImageField(block).value;
      if upload(block.fields[key]).Some? {
        var v := upload(block.fields[key]).value;
        assert Set(block, key, v).fields[key] == v;
      }
    }
  }

  /** The number of positions at which two lists differ. */
  function Changed(before: seq<Json>, after: seq<Json>): (r: nat)
    requires |before| == |after|
    ensures r <= |before|
  {
    if before == [] then 0
    else
      var n := |before| - 1;
      Changed(before[..n], after[..n]) + (if before[n] != after[n] then 1 else 0)
  }

  /** The number of blocks in a list whose upload failed. */
  function CountFails(blocks: seq<Json>, upload: Json -> Option<Json>): (r: nat)
    ensures r <= |blocks|
  {
    if blocks == [] then 0
    else
      var n := |blocks| - 1;
      CountFails(blocks[..n], upload) + (if Fails(blocks[n], upload) then 1 else 0)
  }

  // ----- walking a list -----

  /** `for x in items: <step on x>`: the elements processed in turn, their
      counts added up; the first step that raises ends the loop. */
  function Walk(items: seq<Json>, step: Json -> Outcome<Pass>): (r: Outcome<Tally>)
    ensures r.Ok? ==> |r.value.items| == |items|
  {
    if items == [] then Ok(Tally([], 0, 0))
    else
      var n := |items| - 1;
      match Walk(items[..n], step)
      case Raised => Raised
      case Ok(t) =>
        match step(items[n])
        case Raised => Raised
        case Ok(p) => Ok(Tally(t.items + [p.doc], t.processed + p.processed, t.failed + p.failed))
  }

  /** The walk over one more element. */
  lemma WalkSnoc(init: seq<Json>, last: Json, step: Json -> Outcome<Pass>, t: Tally, p: Pass)
    requires Walk(init, step) == Ok(t) && step(last) == Ok(p)
    ensures Walk(init + [last], step) == Ok(Tally(t.items + [p.doc], t.processed + p.processed, t.failed + p.failed))
  {
    var all := init + [last];
    assert all[..|all| - 1] == init && all[|all| - 1] == last;
  }

  /** The walk over the first `i + 1` elements, from the walk over the
      first `i`. */
  lemma WalkStep(items: seq<Json>, i: nat, step: Json -> Outcome<Pass>, t: Tally, p: Pass)
    requires i < |items| && Walk(items[..i], step) == Ok(t) && step(items[i]) == Ok(p)
    ensures Walk(items[..i + 1], step) == Ok(Tally(t.items + [p.doc], t.processed + p.processed, t.failed + p.failed))
  {
    assert items[..i + 1] == items[..i] + [items[i]];
    WalkSnoc(items[..i], items[i], step, t, p);
  }

  /** The walk raises exactly when some step raises. */
  lemma {:induction false} WalkRaise(items: seq<Json>, step: Json -> Outcome<Pass>)
    ensures Walk(items, step).Ok? <==> forall k :: 0 <= k < |items| ==> step(items[k]).Ok?
  {
    if items != [] {
      var n := |items| - 1;
      WalkRaise(items[..n], step);
      assert forall k :: 0 <= k < n ==> items[..n][k] == items[k];
    }
  }

  /** Each element the walk leaves behind is that element processed. */
  lemma {:induction false} WalkItems(items: seq<Json>, step: Json -> Outcome<Pass>)
    requires Walk(items, step).Ok?
    ensures forall k :: 0 <= k < |items| ==>
      step(items[k]).Ok? && Walk(items, step).value.items[k] == step(items[k]).value.doc
  {
    if items != [] {
      var n := |items| - 1;
      WalkItems(items[..n], step);
      var t := Walk(items[..n], step).value;
      var u := Walk(items, step).value;
      assert u.items == t.items + [step(items[n]).value.doc];
      assert forall k :: 0 <= k < n ==> items[..n][k] == items[k] && u.items[k] == t.items[k];
    }
  }

  /** A step that leaves its own output alone, counting nothing replaced
      and the same failures. */
  ghost predicate Settled(step: Json -> Outcome<Pass>)
  {
    forall x :: step(x).Ok? ==> step(step(x).value.doc) == Ok(Pass(step(x).value.doc, 0, step(x).value.failed))
  }

  /** Walking the output of a walk again with a settled step changes
      nothing, replaces nothing and meets the same failures. */
  lemma {:induction false} WalkTwice(items: seq<Json>, step: Json -> Outcome<Pass>)
    requires Settled(step) && Walk(items, step).Ok?
    ensures var t := Walk(items, step).value;
      Walk(t.items, step) == Ok(Tally(t.items, 0, t.failed))
  {
    if items != [] {
      var n := |items| - 1;
      WalkTwice(items[..n], step);
      var t := Walk(items[..n], step).value;
      var p := step(items[n]).value;
      assert items == items[..n] + [items[n]];
      WalkSnoc(items[..n], items[n], step, t, p);
      WalkSnoc(t.items, p.doc, step, Tally(t.items, 0, t.failed), Pass(p.doc, 0, p.failed));
    }
  }

  // ----- blocks and sections -----

  /** `ProcessBlock` as the step of the walk over a section's blocks. */
  function BlockStep(upload: Json -> Option<Json>): Json -> Outcome<Pass>
  {
    block => ProcessBlock(block, upload)
  }

  /** The replaced count of the walk over blocks is the number of blocks
      that changed, and its failed count the number of failed uploads. */
  lemma {:induction false} BlocksCounts(blocks: seq<Json>, upload: Json -> Option<Json>)
    requires Walk(blocks, BlockStep(upload)).Ok?
    ensures var t := Walk(blocks, BlockStep(upload)).value;
      && t.processed == Changed(blocks, t.items)
      && t.failed == CountFails(blocks, upload)
  {
    if blocks != [] {
      var n := |blocks| - 1;
      BlocksCounts(blocks[..n], upload);
      BlockOutcome(blocks[n], upload);
      var t := Walk(blocks[..n], BlockStep(upload)).value;
      var u := Walk(blocks, BlockStep(upload)).value;
      assert u.items[..n] == t.items;
    }
  }

  /** The blocks of a section that the pass walks: its `content` list, or
      nothing. */
  function Blocks(section: Json): seq<Json>
  {
    if HasKey(section, "content") && section.fields["content"].JArr? then section.fields["content"].items
    else []
  }

  /** One section: `for block in section.get("content", [])`, the content
      written back; a section that is not a dict raises. */
  function ProcessSection(section: Json, upload: Json -> Option<Json>): (r: Outcome<Pass>)
    ensures r.Ok? ==> section.JObj? && r.value.doc.JObj?
  {
    if !section.JObj? then Raised
    else if "content" !in section.fields then Ok(Pass(section, 0, 0))
    else
      var content := section.fields["content"];
      match Elements(content)
      case Raised => Raised
      case Ok(blocks) =>
        match Walk(blocks, BlockStep(upload))
        case Raised => Raised
        case Ok(t) =>
          var doc := if content.JArr? then Set(section, "content", JArr(t.items)) else section;
          Ok(Pass(doc, t.processed, t.failed))
  }

  /** A processed section keeps its keys and every field but `content`;
      its blocks are the processed blocks, and its replaced and failed
      counts are those of its blocks. */
  lemma {:induction false} SectionResult(section: Json, upload: Json -> Option<Json>)
    requires ProcessSection(section, upload).Ok?
    ensures var p := ProcessSection(section, upload).value;
      && p.doc.keys == section.keys
      && (forall k :: k in section.fields && k != "content" ==> k in p.doc.fields && p.doc.fields[k] == section.fields[k])
      && |Blocks(p.doc)| == |Blocks(section)|
      && (forall k :: 0 <= k < |Blocks(section)| ==>
          ProcessBlock(Blocks(section)[k], upload).Ok? && Blocks(p.doc)[k] == ProcessBlock(Blocks(section)[k], upload).value.doc)
      && p.processed == Changed(Blocks(section), Blocks(p.doc))
      && p.failed == CountFails(Blocks(section), upload)
  {
    if "content" in section.fields {
      var content := section.fields["content"];
      var blocks := Elements(content).value;
      WalkItems(blocks, BlockStep(upload));
      BlocksCounts(blocks, upload);
    }
  }

  /** `ProcessSection` as the step of the walk over the sections. */
  function SectionStep(upload: Json -> Option<Json>): Json -> Outcome<Pass>
  {
    section => ProcessSection(section, upload)
  }

  /** The sum over sections of the number of changed blocks. */
  function ChangedBlocks(before: seq<Json>, after: seq<Json>): nat
    requires |before| == |after|
    requires forall k :: 0 <= k < |before| ==> |Blocks(before[k])| == |Blocks(after[k])|
  {
    if before == [] then 0
    else
      var n := |before| - 1;
      ChangedBlocks(before[..n], after[..n]) + Changed(Blocks(before[n]), Blocks(after[n]))
  }

  /** The sum over sections of the number of failed uploads. */
  function FailedBlocks(sections: seq<Json>, upload: Json -> Option<Json>): nat
  {
    if sections == [] then 0
    else
      var n := |sections| - 1;
      FailedBlocks(sections[..n], upload) + CountFails(Blocks(sections[n]), upload)
  }

  /** Each section the walk leaves behind has as many blocks as before. */
  lemma SectionsLengths(sections: seq<Json>, upload: Json -> Option<Json>)
    requires Walk(sections, SectionStep(upload)).Ok?
    ensures forall k :: 0 <= k < |sections| ==>
      |Blocks(sections[k])| == |Blocks(Walk(sections, SectionStep(upload)).value.items[k])|
  {
    WalkItems(sections, SectionStep(upload));
    forall k | 0 <= k < |sections|
      ensures |Blocks(sections[k])| == |Blocks(Walk(sections, SectionStep(upload)).value.items[k])|
    {
      SectionResult(sections[k], upload);
    }
  }

  /** The replaced count of the walk over sections is the number of
      changed blocks across all sections, and its failed count the number
      of failed uploads. */
  lemma {:induction false} SectionsCounts(sections: seq<Json>, upload: Json -> Option<Json>)
    requires Walk(sections, SectionStep(upload)).Ok?
    ensures var t := Walk(sections, SectionStep(upload)).value;
      && (forall k :: 0 <= k < |sections| ==> |Blocks(sections[k])| == |Blocks(t.items[k])|)
      && t.processed == ChangedBlocks(sections, t.items)
      && t.failed == FailedBlocks(sections, upload)
  {
    SectionsLengths(sections, upload);
    if sections != [] {
      var n := |sections| - 1;
      SectionsCounts(sections[..n], upload);
      SectionResult(sections[n], upload);
      var t := Walk(sections[..n], SectionStep(upload)).value;
      var u := Walk(sections, SectionStep(upload)).value;
      assert u.items[..n] == t.items;
      assert sections[..n] == sections[..|sections| - 1];
    }
  }

  /** `process_article_images`: a falsy document, or one without
      `"sections"`, comes back as it was; otherwise every section is
      walked and the sections list written back. */
  function ProcessArticle(data: Json, upload: Json -> Option<Json>): Outcome<Pass>
  {
    if !Truthy(data) then Ok(Pass(data, 0, 0))
    else
      match Contains(data, "sections")
      case Raised => Raised
      case Ok(present) =>
        if !present then Ok(Pass(data, 0, 0))
        else if !data.JObj? then Raised
        else
          var sections := data.fields["sections"];
          match Elements(sections)
          case Raised => Raised
          case Ok(ss) =>
            match Walk(ss, SectionStep(upload))
            case Raised => Raised
            case Ok(t) =>
              var doc := if sections.JArr? then Set(data, "sections", JArr(t.items)) else data;
              Ok(Pass(doc, t.processed, t.failed))
  }

  /** A falsy document, or a dict without `"sections"`, is returned as it
      was, with nothing counted. */
  lemma NoSectionsUnchanged(data: Json, upload: Json -> Option<Json>)
    requires !Truthy(data) || (data.JObj? && "sections" !in data.fields)
    ensures ProcessArticle(data, upload) == Ok(Pass(data, 0, 0))
  {
  }

  /** A processed document keeps its keys and every field but `sections`;
      each section is the processed section, the replaced count is the
      number of blocks that changed and the failed count the number of
      failed uploads. */
  lemma {:induction false} ArticleResult(data: Json, upload: Json -> Option<Json>)
    requires ProcessArticle(data, upload).Ok? && HasKey(data, "sections")
    ensures var p := ProcessArticle(data, upload).value;
      && p.doc.JObj? && p.doc.keys == data.keys
      && (forall k :: k in data.fields && k != "sections" ==> k in p.doc.fields && p.doc.fields[k] == data.fields[k])
    ensures var p := ProcessArticle(data, upload).value;
      var before := Elements(data.fields["sections"]).value;
      var after := if p.doc.fields["sections"].JArr? then p.doc.fields["sections"].items else before;
      && |after| == |before|
      && (forall k :: 0 <= k < |before| ==>
          ProcessSection(before[k], upload).Ok? && after[k] == ProcessSection(before[k], upload).value.doc)
      && (forall k :: 0 <= k < |before| ==> |Blocks(before[k])| == |Blocks(after[k])|)
      && p.processed == ChangedBlocks(before, after)
      && p.failed == FailedBlocks(before, upload)
  {
    var sections := data.fields["sections"];
    var ss := Elements(sections).value;
    WalkItems(ss, SectionStep(upload));
    SectionsCounts(ss, upload);
    if !sections.JArr? {
      WalkRaise(ss, SectionStep(upload));
      assert ss == [];
    }
  }

  // ----- a second pass -----

  /** An uploader that answers a URL it produced with that URL again. */
  ghost predicate Stable(upload: Json -> Option<Json>)
  {
    forall x :: upload(x).Some? ==> upload(upload(x).value) == upload(x)
  }

  /** With a stable uploader, processing a processed block again changes
      nothing and counts the same failures. */
  lemma {:induction false} BlockTwice(block: Json, upload: Json -> Option<Json>)
    requires Stable(upload) && block.JObj?
    ensures var p := ProcessBlock(block, upload).value;
      ProcessBlock(p.doc, upload) == Ok(Pass(p.doc, 0, p.failed))
  {
    BlockOutcome(block, upload);
    var p := ProcessBlock(block, upload).value;
    if p.doc != block {
      var key := ImageField(block).value;
      var v := upload(block.fields[key]).value;
      assert p.doc.fields == block.fields[key := v];
      assert ImageField(p.doc) == Some(key);
      assert upload(v) == Some(v);
    }
  }

  /** With a stable uploader, the block step is settled. */
  lemma BlockStepSettled(upload: Json -> Option<Json>)
    requires Stable(upload)
    ensures Settled(BlockStep(upload))
  {
    forall x | BlockStep(upload)(x).Ok?
      ensures ProcessBlock(ProcessBlock(x, upload).value.doc, upload) ==
        Ok(Pass(ProcessBlock(x, upload).value.doc, 0, ProcessBlock(x, upload).value.failed))
    {
      BlockTwice(x, upload);
    }
  }

  /** With a stable uploader, a processed section processed again is
      unchanged and counts the same failures. */
  lemma {:induction false} SectionTwice(section: Json, upload: Json -> Option<Json>)
    requires Stable(upload) && ProcessSection(section, upload).Ok?
    ensures var p := ProcessSection(section, upload).value;
      ProcessSection(p.doc, upload) == Ok(Pass(p.doc, 0, p.failed))
  {
    if "content" in section.fields {
      var content := section.fields["content"];
      var blocks := Elements(content).value;
      var t := Walk(blocks, BlockStep(upload)).value;
      if content.JArr? {
        BlockStepSettled(upload);
        WalkTwice(blocks, BlockStep(upload));
        var doc := Set(section, "content", JArr(t.items));
        assert Elements(doc.fields["content"]) == Ok(t.items);
        SetSame(doc, "content");
      } else {
        WalkRaise(blocks, BlockStep(upload));
        assert blocks == [];
      }
    }
  }

  /** With a stable uploader, the section step is settled. */
  lemma SectionStepSettled(upload: Json -> Option<Json>)
    requires Stable(upload)
    ensures Settled(SectionStep(upload))
  {
    forall x | SectionStep(upload)(x).Ok?
      ensures ProcessSection(ProcessSection(x, upload).value.doc, upload) ==
        Ok(Pass(ProcessSection(x, upload).value.doc, 0, ProcessSection(x, upload).value.failed))
    {
      SectionTwice(x, upload);
    }
  }

  /** With a stable uploader, running the pass over its own result leaves
      the document as it is, replaces nothing and meets the same failures. */
  lemma {:induction false} ArticleTwice(data: Json, upload: Json -> Option<Json>)
    requires Stable(upload) && ProcessArticle(data, upload).Ok?
    ensures var p := ProcessArticle(data, upload).value;
      ProcessArticle(p.doc, upload) == Ok(Pass(p.doc, 0, p.failed))
  {
    if Truthy(data) && HasKey(data, "sections") {
      var sections := data.fields["sections"];
      var ss := Elements(sections).value;
      var t := Walk(ss, SectionStep(upload)).value;
      if sections.JArr? {
        SectionStepSettled(upload);
        WalkTwice(ss, SectionStep(upload));
        var doc := Set(data, "sections", JArr(t.items));
        assert "sections" in doc.fields;
        assert Truthy(doc);
        assert Elements(doc.fields["sections"]) == Ok(t.items);
        SetSame(doc, "sections");
      } else {
        WalkRaise(ss, SectionStep(upload));
        assert ss == [];
      }
    }
  }

  /** The service's own uploader: `download_and_upload_image` against one
      base URL and one environment. */
  function Uploader(base: string, env: ImageEnv): Json -> Option<Json>
  {
    url => DownloadAndUpload(base, url, env)
  }

  /** The service's uploader is stable: a URL it produced contains the
      base URL, so it is passed through untouched. */
  lemma {:induction false} UploaderStable(base: string, env: ImageEnv)
    ensures Stable(Uploader(base, env))
  {
    var upload := Uploader(base, env);
    forall x | upload(x).Some?
      ensures upload(upload(x).value) == upload(x)
    {
      var v := upload(x).value;
      if v != x {
        assert StartsWith(v.s, base) by {
          assert v.s[..|base|] == (base + FilesPath)[..|base|];
        }
        PrefixIsSubstring(base, v.s);
      }
    }
  }

  /** Processing the images of an article a second time with the service's
      uploader leaves the document as the first pass left it. */
  lemma ServiceIdempotent(base: string, env: ImageEnv, data: Json)
    requires ProcessArticle(data, Uploader(base, env)).Ok?
    ensures var p := ProcessArticle(data, Uploader(base, env)).value;
      ProcessArticle(p.doc, Uploader(base, env)) == Ok(Pass(p.doc, 0, p.failed))
  {
    UploaderStable(base, env);
    ArticleTwice(data, Uploader(base, env));
  }

  // ----- the source's loops -----

  /** The body of the loop over blocks: the image field of one block
      replaced in place when the uploader gives a truthy, different URL. */
  method ProcessBlockStep(block: Json, upload: Json -> Option<Json>) returns (r: Outcome<Pass>)
    ensures r == ProcessBlock(block, upload)
  {
    if !block.JObj? {
      return Raised;
    }
    var doc, replaced, missing := block, 0, 0;
    var field := ImageField(block);
    if field.Some? {
      var original := block.fields[field.value];
      var replacement := upload(original);
      if replacement.Some? && Truthy(replacement.value) && replacement.value != original {
        doc := Set(block, field.value, replacement.value);
        replaced := 1;
      } else if replacement.None? {
        missing := 1;
      }
    }
    r := Ok(Pass(doc, replaced, missing));
  }

  /** The loop over one section's blocks, counting replacements and
      failures as it goes. */
  method ProcessBlocksLoop(blocks: seq<Json>, upload: Json -> Option<Json>) returns (r: Outcome<Tally>)
    ensures r == Walk(blocks, BlockStep(upload))
  {
    var items: seq<Json> := [];
    var processed: nat, failed: nat := 0, 0;
    var i := 0;
    while i < |blocks|
      invariant 0 <= i <= |blocks|
      invariant Walk(blocks[..i], BlockStep(upload)) == Ok(Tally(items, processed, failed))
    {
      var p := ProcessBlockStep(blocks[i], upload);
      if p.Raised? {
        assert !BlockStep(upload)(blocks[i]).Ok?;
        WalkRaise(blocks, BlockStep(upload));
        return Raised;
      }
      assert BlockStep(upload)(blocks[i]) == p;
      WalkStep(blocks, i, BlockStep(upload), Tally(items, processed, failed), p.value);
      items := items + [p.value.doc];
      processed := processed + p.value.processed;
      failed := failed + p.value.failed;
      i := i + 1;
    }
    assert blocks[..i] == blocks;
    r := Ok(Tally(items, processed, failed));
  }

  /** One section: `section.get("content", [])` walked by the block loop. */
  method ProcessSectionStep(section: Json, upload: Json -> Option<Json>) returns (r: Outcome<Pass>)
    ensures r == ProcessSection(section, upload)
  {
    if !section.JObj? {
      return Raised;
    }
    if "content" !in section.fields {
      return Ok(Pass(section, 0, 0));
    }
    var content := section.fields["content"];
    match Elements(content) {
      case Raised =>
        r := Raised;
      case Ok(blocks) =>
        var t := ProcessBlocksLoop(blocks, upload);
        match t {
          case Raised =>
            r := Raised;
          case Ok(tally) =>
            var doc := if content.JArr? then Set(section, "content", JArr(tally.items)) else section;
            r := Ok(Pass(doc, tally.processed, tally.failed));
        }
    }
  }

  /** The loop over the sections. */
  method ProcessSectionsLoop(sections: seq<Json>, upload: Json -> Option<Json>) returns (r: Outcome<Tally>)
    ensures r == Walk(sections, SectionStep(upload))
  {
    var items: seq<Json> := [];
    var processed: nat, failed: nat := 0, 0;
    var i := 0;
    while i < |sections|
      invariant 0 <= i <= |sections|
      invariant Walk(sections[..i], SectionStep(upload)) == Ok(Tally(items, processed, failed))
    {
      var p := ProcessSectionStep(sections[i], upload);
      if p.Raised? {
        assert !SectionStep(upload)(sections[i]).Ok?;
        WalkRaise(sections, SectionStep(upload));
        return Raised;
      }
      assert SectionStep(upload)(sections[i]) == p;
      WalkStep(sections, i, SectionStep(upload), Tally(items, processed, failed), p.value);
      items := items + [p.value.doc];
      processed := processed + p.value.processed;
      failed := failed + p.value.failed;
      i := i + 1;
    }
    assert sections[..i] == sections;
    r := Ok(Tally(items, processed, failed));
  }

  /** `process_article_images` with the uploader as `upload`: the loop over
      sections around the loop over blocks, counting replacements and
      failures as it goes. */
  method ProcessArticleImages(data: Json, upload: Json -> Option<Json>) returns (r: Outcome<Pass>)
    ensures r == ProcessArticle(data, upload)
  {
    if !Truthy(data) {
      return Ok(Pass(data, 0, 0));
    }
    match Contains(data, "sections") {
      case Raised =>
        return Raised;
      case Ok(present) =>
        if !present {
          return Ok(Pass(data, 0, 0));
        }
    }
    if !data.JObj? {
      return Raised;
    }
    var sections := data.fields["sections"];
    match Elements(sections) {
      case Raised =>
        r := Raised;
      case Ok(ss) =>
        var t := ProcessSectionsLoop(ss, upload);
        if t.Raised? {
          return Raised;
        }
        var doc := if sections.JArr? then Set(data, "sections", JArr(t.value.items)) else data;
        r := Ok(Pass(doc, t.value.processed, t.value.failed));
    }
  }
}
