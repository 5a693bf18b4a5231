# Infographic article renderer: the Python backend, modelled in Dafny

The backend takes a URL and creates a task for it. A background job then:

- crawls the page;
- asks a language model to turn the page into an article document (sections of typed content blocks);
- repairs the document's comparison rows;
- validates it against the article schema;
- stores it in PocketBase.

It also rehosts the document's images in PocketBase.

This project models the deterministic part of that backend and proves what it promises:

- `JsonValue` (json.dfy): decoded JSON values and the pieces of Python used on them. These are truthiness, `dict.get`, the `in` operator, iteration and `str()`.
- `ComparisonRows`, `DatabaseRows` and `LlmRows`: the two comparison-row normalisers.
  - `fix_comparison_rows_in_result` in the PocketBase service.
  - `fix_comparison_rows` in the LLM service.
  - Each is a specification function, the source's nested loops proved equal to it, and lemmas: idempotence, shape preservation, untouched blocks, and the edge cases where the two differ.
- `Models`: the Pydantic models as datatypes.
  - The article schema is also a validity predicate over JSON.
  - Its parser accepts exactly the valid documents.
  - Dumping an article and parsing it gives the article back.
- `LlmService`: how the translation flag chooses the system prompt, and how the model's reply becomes an article or one of the three error messages.
- `TaskRecords`: how a stored record becomes a `Task` (`_parse_task`), and the bodies that `create_task` and `update_task_status` send.
- `PocketBase`: a class over the cached admin token and a log of the calls sent.
  - Both authentication endpoints are tried in order.
  - A request is retried once with a fresh token after a 401 or 403.
  - The task operations are built on top of these.
- `ImageService`:
  - Choosing a file extension.
  - The skip, failure and success rules of `download_and_upload_image`.
  - `process_article_images`: the image URLs replaced in place, with the replaced and failed counts, and the result of running it twice.
- `Routes`: a class over an in-memory task store.
  - `create_task` with de-duplication and forced refresh, and `refresh_task`.
  - `get_task` and `get_task_by_url` with their 404s.
  - The background `process_task`.

The network, the model call, `json.loads`, `urlparse` and `hashlib.md5` are parameters of the operations that use them.

## Model

| member | source | states |
|---|---|---|
| DatabaseRows.FixRow | backend/app/services/database.py:25-40 | a dict row is kept as it is; any other row becomes a `{label, values}` object |
| DatabaseRows.FixRows | backend/app/services/database.py:22-41 | the fixed rows have the same number of rows as the input, and every fixed row is an object |
| DatabaseRows.FixRowsLoop | backend/app/services/database.py:22-41 | the row loop builds exactly the fixed rows, and sets `needs_fix` iff some row is not a dict |
| DatabaseRows.FixBlockInPlace | backend/app/services/database.py:19-43 | the block step of the loop equals the block specification |
| DatabaseRows.FixContentLoop | backend/app/services/database.py:18-43 | the loop over a section's content rewrites each block by the block specification, or raises as it does |
| DatabaseRows.FixSectionInPlace | backend/app/services/database.py:18-43 | the section step equals the section specification |
| DatabaseRows.FixComparisonRowsInResult | backend/app/services/database.py:8-45 | the whole pass equals the result specification |
| DatabaseRows.NoSectionsUnchanged | backend/app/services/database.py:14-15 | a falsy input, or a dict without `sections`, is returned unchanged |
| DatabaseRows.OtherBlocksUntouched | backend/app/services/database.py:19-21 | a block that is not a comparison with non-empty `rows` is left exactly as it was |
| DatabaseRows.ObjectRowsNotReassigned | backend/app/services/database.py:35-43 | when every row is already a dict, `rows` is not reassigned and the block is unchanged |
| DatabaseRows.FixBlockRewritesOnlyRows | backend/app/services/database.py:21-43 | only `rows` can change and every other field is kept; the new rows have the old count and are all objects, each non-dict row rewritten |
| DatabaseRows.FixBlockIdempotent | backend/app/services/database.py:22-43 | fixing a fixed block changes nothing |
| DatabaseRows.FixBlockIdempotentAll | backend/app/services/database.py:22-43 | the block fix is idempotent on every block it accepts |
| DatabaseRows.FixSectionIdempotent | backend/app/services/database.py:18-43 | fixing a fixed section changes nothing |
| DatabaseRows.FixResultIdempotent | backend/app/services/database.py:14-45 | applying the pass twice equals applying it once |
| DatabaseRows.FixSectionBlockwise | backend/app/services/database.py:18-43 | a section keeps its content list and its length; each block is its own fix |
| DatabaseRows.FixResultBlockwise | backend/app/services/database.py:17-45 | block (i, j) exists after the pass iff it existed before, and it is the fix of the block that was there |
| LlmRows.FixRow | backend/app/services/llm.py:128-139 | a dict row is kept; any other row becomes a `{label, values}` object |
| LlmRows.FixRows | backend/app/services/llm.py:125-139 | the fixed rows have the same number of rows as the input, and every fixed row is an object |
| LlmRows.FixRowsLoop | backend/app/services/llm.py:125-139 | the loop that appends to `fixed_rows` builds exactly the fixed rows |
| LlmRows.FixBlockInPlace | backend/app/services/llm.py:124-140 | the block step equals the block specification |
| LlmRows.FixContentLoop | backend/app/services/llm.py:123-140 | the loop over a section's content rewrites each block by the block specification |
| LlmRows.FixSectionInPlace | backend/app/services/llm.py:121-140 | the section step equals the section specification |
| LlmRows.FixComparisonRows | backend/app/services/llm.py:111-142 | the whole pass equals its specification |
| LlmRows.NoSectionsUnchanged | backend/app/services/llm.py:117-118 | a document without `sections` is returned unchanged |
| LlmRows.SectionWithoutContentSkipped | backend/app/services/llm.py:121-122 | a section without `content` is skipped |
| LlmRows.OtherBlocksUntouched | backend/app/services/llm.py:124 | a block that is not a comparison with a `rows` key is untouched |
| LlmRows.FixBlockRewritesRows | backend/app/services/llm.py:124-140 | in a comparison block `rows` is always reassigned: same count and order, all objects, each row its own fix, other fields unchanged |
| LlmRows.FixBlockIdempotent | backend/app/services/llm.py:125-140 | fixing a fixed block changes nothing |
| LlmRows.FixSectionIdempotent | backend/app/services/llm.py:123-140 | fixing a fixed section changes nothing |
| LlmRows.FixComparisonRowsIdempotent | backend/app/services/llm.py:117-142 | applying the normaliser twice equals applying it once |
| LlmRows.EmptyRowLabels | backend/app/services/llm.py:137-139 | an empty list row is labelled `"[]"` here but `""` by the database pass; on dict rows and non-empty list rows the two agree |
| LlmService.SystemPrompt | backend/app/services/llm.py:157-158 | the prompt is the system prompt followed by the translate instruction iff the flag is set, otherwise by the keep-original instruction |
| LlmService.PromptFollowsFlag | backend/app/services/llm.py:157-158 | the translate prompt is chosen iff `translate_to_chinese`, and the keep-original prompt iff not |
| LlmService.Message | backend/app/services/llm.py:171-182 | an empty reply raises "LLM returned empty response"; a decode error gives a message starting "Failed to parse LLM response as JSON: " followed by its text; anything else gives "Failed to validate article structure: " |
| LlmService.Convert | backend/app/services/llm.py:154-182 | the conversion succeeds iff the reply is non-empty, decodes, is normalised without raising and validates; it reports an empty response iff the content is missing or empty |
| LlmService.ValidBlockKept | backend/app/services/llm.py:124-140 | a block that already validates is not changed by the normaliser |
| LlmService.NullRowsRejected | backend/app/services/llm.py:124-126 | a comparison block whose `rows` is null makes the normaliser raise |
| LlmService.NullRowsFailConversion | backend/app/services/llm.py:174-182 | such a block anywhere in the document ends the conversion with a validation failure |
| LlmService.ValidArticleKept | backend/app/services/llm.py:117-142 | a valid document passes through the normaliser unchanged |
| LlmService.ConvertDumped | backend/app/services/llm.py:170-178 | a reply that decodes to a dumped article converts back to that article |
| Models.ParseStatus | backend/app/models.py:7 | a status is accepted iff it is one of the four literals, and it reads back as that literal |
| Models.ParseStatusName | backend/app/models.py:7 | every status parses back from its name |
| Models.ParseBoolWithDefault | backend/app/models.py:13-14 | a missing flag takes its default, and a present flag must be a boolean |
| Models.ParseCreateTaskRequest | backend/app/models.py:11-14 | `url` is required; `force_refresh` defaults to false and `translate_to_chinese` to true |
| Models.ParseRefreshTaskRequest | backend/app/models.py:17-19 | `url` is required and `translate_to_chinese` defaults to true |
| Models.ParseBlockType | backend/app/models.py:48-51 | a block type is accepted iff it is one of the eleven literals |
| Models.ParseBlockTypeName | backend/app/models.py:48-51 | every block type parses back from its name |
| Models.NewTask | backend/app/models.py:94-99 | a new task has status `pending` and no id, result or error |
| Models.ParseColumns | backend/app/models.py:64 | `columns` is accepted iff it is an integer or a list of strings |
| Models.ParseRow | backend/app/models.py:42-44 | a row is accepted iff it is `{label: str, values: list[str]}` |
| Models.ParseRows | backend/app/models.py:70 | `rows` is accepted iff it is a list of such rows |
| Models.ParseBlock | backend/app/models.py:47-72 | a block parses iff it satisfies the block validity predicate |
| Models.ParseSection | backend/app/models.py:75-77 | a section parses iff it has a string `title` and a list of valid blocks as `content` |
| Models.ParseMeta | backend/app/models.py:80-83 | meta parses iff its three optional fields are strings when present |
| Models.ParseArticle | backend/app/models.py:86-90 | an article parses iff it has a string `title` and valid `sections`, with `subtitle` and `meta` optional |
| Models.ParseDumpColumns | backend/app/models.py:64 | dumped columns parse back |
| Models.ParseDumpRows | backend/app/models.py:42-44 | dumped rows parse back |
| Models.ParseDumpBlock | backend/app/models.py:47-72 | a dumped block parses back to itself |
| Models.ParseDumpSection | backend/app/models.py:75-77 | a dumped section parses back to itself |
| Models.ParseDumpMeta | backend/app/models.py:80-83 | dumped meta parses back to itself |
| Models.ParseDumpArticle | backend/app/models.py:86-90 | a dumped article is valid and parses back to itself |
| Models.CodeAndLinkcardRejected | backend/app/models.py:48-51 | blocks of type `code` or `linkcard` do not validate |
| Models.ArrayRowsRejected | backend/app/models.py:70 | a block, even a table, with an array-form row does not validate |
| TaskRecords.ParseResult | backend/app/services/database.py:131-135 | a record's result is read iff `result` is truthy; it is present iff the repaired value validates |
| TaskRecords.ParseTask | backend/app/services/database.py:129-145 | `url` defaults to `""` and `status` to `"pending"`; a result is present iff `result` is truthy; id and error are read when present |
| TaskRecords.CreateBody | backend/app/services/database.py:172-177 | the create body is exactly `url`, `status="pending"`, `result=None`, `error=None` |
| TaskRecords.UpdateBody | backend/app/services/database.py:189-195 | the PATCH body always has `status`; it has `result` iff one is given (as its dump) and `error` iff one is given |
| TaskRecords.Updated | backend/app/services/database.py:181-202 | an update keeps id and url, sets the status, and replaces result and error only when given |
| TaskRecords.ValidBlockUnfixed | backend/app/services/database.py:19-43 | a valid block is not changed by the database repair |
| TaskRecords.ValidSectionUnfixed | backend/app/services/database.py:18-43 | a valid section is not changed by the database repair |
| TaskRecords.ValidArticleUnfixed | backend/app/services/database.py:131-135 | a valid stored result is not changed by the repair before validation |
| TaskRecords.ParseRecord | backend/app/services/database.py:129-145 | reading back the record of a task gives the task |
| TaskRecords.CreatedRecord | backend/app/services/database.py:170-179 | the record created from the create body reads as a new pending task |
| TaskRecords.PatchRecord | backend/app/services/database.py:181-202 | a record patched with the update body reads as the updated task |
| PocketBase.AuthEndpoints | backend/app/services/database.py:67-70 | the superusers endpoint is tried first, then the admins endpoint |
| PocketBase.Finish | backend/app/services/database.py:126-127 | a request succeeds iff the answer has a 2xx status; otherwise it fails with that status |
| PocketBase.ByUrlResult | backend/app/services/database.py:147-160 | a status error gives no task; otherwise the first item is read |
| PocketBase.ByIdResult | backend/app/services/database.py:162-168 | a status error gives no task; otherwise the record is read |
| PocketBase.ParsedResult | backend/app/services/database.py:178-179 | a created or updated record is read, and a status error propagates |
| PocketBase.DeleteResult | backend/app/services/database.py:204-210 | delete answers true on success, false on a status error, and lets other errors propagate |
| PocketBase.PocketBaseService.constructor | backend/app/services/database.py:53-59 | a new service has no token |
| PocketBase.PocketBaseService.GetAuthToken | backend/app/services/database.py:61-89 | the token fetch follows its specification: the same token, the same calls, the same outcome |
| PocketBase.PocketBaseService.Request | backend/app/services/database.py:96-127 | the request with its retry follows its specification |
| PocketBase.PocketBaseService.GetTaskByUrl | backend/app/services/database.py:147-160 | the filtered, newest-first query read by `ByUrlResult` |
| PocketBase.PocketBaseService.GetTaskById | backend/app/services/database.py:162-168 | the GET by id read by `ByIdResult` |
| PocketBase.PocketBaseService.CreateTask | backend/app/services/database.py:170-179 | a POST of the create body, read by `ParsedResult` |
| PocketBase.PocketBaseService.UpdateTaskStatus | backend/app/services/database.py:181-202 | a PATCH of the update body, read by `ParsedResult` |
| PocketBase.PocketBaseService.DeleteTask | backend/app/services/database.py:204-210 | a DELETE read by `DeleteResult` |
| PocketBase.TryFromCalls | backend/app/services/database.py:73-85 | the endpoint loop calls the endpoints in order, each at most once |
| PocketBase.CachedTokenReused | backend/app/services/database.py:63-64 | a cached token is returned with no auth request |
| PocketBase.AuthCallsInOrder | backend/app/services/database.py:67-85 | the token fetch makes at most two auth calls, in endpoint order, and no data call |
| PocketBase.FirstSuccessWins | backend/app/services/database.py:73-85 | a 200 from the first endpoint ends the loop and caches its token |
| PocketBase.FallbackToOlderEndpoint | backend/app/services/database.py:73-85 | when the first endpoint fails, a 200 from the second is used |
| PocketBase.AllEndpointsFail | backend/app/services/database.py:87-89 | when both fail, the last status is raised, or `""` is returned if it is a success status other than 200; no token is cached |
| PocketBase.AtMostOneRetry | backend/app/services/database.py:103-126 | a request sends the data call at most twice, and twice only after a 401 or 403 |
| PocketBase.CachedTokenSingleCall | backend/app/services/database.py:103-127 | with a cached token and no 401/403, exactly one call is sent; the outcome is its content, `{}` when there is none, or its status error |
| PocketBase.RetryReauthenticates | backend/app/services/database.py:115-124 | after a 401 or 403 the token is dropped and the first auth endpoint is called next |
| PocketBase.DoneMeansSuccess | backend/app/services/database.py:115-127 | a successful request had a token, and its first answer was a success or a 401/403 |
| ImageService.FirstSuffixFrom | backend/app/services/image_service.py:57-59 | the first extension in the list order that the path ends with, or none iff no extension matches |
| ImageService.ContentTypeExtension | backend/app/services/image_service.py:62-74 | the content-type choice is one of the seven extensions and never `.jpeg` or `.bmp` |
| ImageService.FileExtension | backend/app/services/image_service.py:52-74 | the result is always one of the seven extensions; a matching path suffix wins, otherwise the content type decides |
| ImageService.PathExtensionWins | backend/app/services/image_service.py:55-59 | when the lower-cased path ends with an extension, the content type is ignored and an extension no later in the list is returned |
| ImageService.DistinctSuffixes | backend/app/services/image_service.py:57-59 | a name ending with one listed extension does not end with another |
| ImageService.AppendedExtensionRecognised | backend/app/services/image_service.py:52-59 | a path ending in a listed extension (`.jpeg` included) gets exactly that extension back |
| ImageService.Form | backend/app/services/image_service.py:116-130 | the upload form carries the body and a filename ending in the chosen extension; its content type defaults to `image/jpeg`; the original URL is cut to 500 characters |
| ImageService.FilesUrl | backend/app/services/image_service.py:147 | a file URL starts with `{base_url}/api/files/infographic_images/` |
| ImageService.Transfer | backend/app/services/image_service.py:92-156 | a successful transfer answers a file URL under the base URL |
| ImageService.DownloadAndUpload | backend/app/services/image_service.py:76-156 | the answer is the input itself or a file URL under the base URL |
| ImageService.SkipsHostedAndDataUrls | backend/app/services/image_service.py:83-90 | a URL containing the base URL, or starting with `data:`, is returned unchanged |
| ImageService.DownloadFailureIsNone | backend/app/services/image_service.py:104-114 | a failed download, a non-200 status or a body under 100 bytes gives `None` |
| ImageService.UploadFailureIsNone | backend/app/services/image_service.py:140-152 | a failed upload, a status other than 200/201, or a reply without a truthy `id` and `image` gives `None` |
| ImageService.UploadSuccessUrl | backend/app/services/image_service.py:140-149 | on success the answer is `{base_url}/api/files/infographic_images/{id}/{image}` |
| ImageService.NonContainerIsNone | backend/app/services/image_service.py:154-156 | a URL value on which `in` raises ends in the `except` branch and gives `None` |
| ImageService.ImageField | backend/app/services/image_service.py:171-182 | the field read is `src` of an image block or `image` of a linkcard block, and it is truthy |
| ImageService.ProcessBlock | backend/app/services/image_service.py:169-190 | a block step raises iff the block is not a dict |
| ImageService.BlockOutcome | backend/app/services/image_service.py:171-190 | a block changes iff the uploader gives a truthy answer that differs from the field, and then only that field changes, to the answer; processed iff changed, failed iff the answer is `None`, never both |
| ImageService.WalkRaise | backend/app/services/image_service.py:168-169 | a loop over a list raises iff the step raises on some element |
| ImageService.WalkItems | backend/app/services/image_service.py:168-169 | after the loop each element is that element processed |
| ImageService.WalkTwice | backend/app/services/image_service.py:168-169 | looping again over the output of a loop whose step leaves its own output alone changes nothing, counts no replacement and counts the same failures |
| ImageService.BlocksCounts | backend/app/services/image_service.py:165-190 | over one section, the processed count is the number of blocks that changed and the failed count the number of `None` answers |
| ImageService.SectionResult | backend/app/services/image_service.py:169-190 | a section keeps its keys and other fields; its blocks are the processed blocks, with the counts of its blocks |
| ImageService.SectionsCounts | backend/app/services/image_service.py:165-190 | over the sections, processed counts the changed blocks and failed counts the `None` answers |
| ImageService.NoSectionsUnchanged | backend/app/services/image_service.py:162-163 | a falsy input, or one without `sections`, is returned unchanged with nothing counted |
| ImageService.ArticleResult | backend/app/services/image_service.py:158-193 | the document keeps every field but `sections`; each section is processed in place, and the counts are the changed blocks and the failed uploads |
| ImageService.BlockTwice | backend/app/services/image_service.py:171-190 | with an uploader that maps its own answers to themselves, a processed block processed again is unchanged |
| ImageService.SectionTwice | backend/app/services/image_service.py:169-190 | the same for a section |
| ImageService.ArticleTwice | backend/app/services/image_service.py:158-193 | the same for the whole document: nothing is replaced, and the same failures are met |
| ImageService.UploaderStable | backend/app/services/image_service.py:83-85 | the service's uploader passes its own file URLs through untouched, because they contain the base URL |
| ImageService.ServiceIdempotent | backend/app/services/image_service.py:158-193 | processing a document a second time with the service's uploader leaves it as the first pass left it |
| ImageService.ProcessBlockStep | backend/app/services/image_service.py:171-190 | the body of the block loop equals the block step |
| ImageService.ProcessBlocksLoop | backend/app/services/image_service.py:169-190 | the loop over a section's blocks, with its counters, equals the walk over them |
| ImageService.ProcessSectionStep | backend/app/services/image_service.py:169 | one section of the loop equals the section step |
| ImageService.ProcessSectionsLoop | backend/app/services/image_service.py:168-190 | the loop over the sections equals the walk over them |
| ImageService.ProcessArticleImages | backend/app/services/image_service.py:158-193 | the whole pass equals its specification |
| Routes.IdIndex | backend/app/services/database.py:162-168 | the position of the record with an id, or none iff no record has that id |
| Routes.LatestIndex | backend/app/services/database.py:147-158 | the newest record with a URL, or none iff there is none |
| Routes.Remove | backend/app/services/database.py:204-210 | deleting removes the records with that id and keeps every other record |
| Routes.Replace | backend/app/services/database.py:181-202 | an update keeps every record's id and URL |
| Routes.Insert | backend/app/services/database.py:170-179 | creating appends a pending task with a fresh id |
| Routes.Delete | backend/app/services/database.py:204-210 | deleting leaves the id counter and the jobs alone |
| Routes.Update | backend/app/services/database.py:181-202 | an update goes through iff the store is reachable and the id exists |
| Routes.Schedule | backend/app/api/routes.py:110 | scheduling queues one job for the new task's id, URL and flag, and changes nothing else |
| Routes.TaskService.constructor | backend/app/services/database.py:213 | the service starts with an empty store and no jobs |
| Routes.TaskService.FindTaskByUrl | backend/app/services/database.py:147-160 | a task is found iff some task has the URL, and it is the newest one |
| Routes.TaskService.FindTaskById | backend/app/services/database.py:162-168 | a task is found iff some task has the id, and it is that task |
| Routes.TaskService.InsertTask | backend/app/services/database.py:170-179 | creation follows `Insert` and keeps the store valid |
| Routes.TaskService.DeleteTask | backend/app/services/database.py:204-210 | answers true iff a record had the id; follows `Delete` |
| Routes.TaskService.UpdateTask | backend/app/services/database.py:181-202 | follows `Update`; the store is unchanged when it does not go through |
| Routes.TaskService.CreateTask | backend/app/api/routes.py:75-120 | `create_task` follows its specification and keeps the store valid |
| Routes.TaskService.RefreshTask | backend/app/api/routes.py:151-181 | `refresh_task` follows its specification and keeps the store valid |
| Routes.TaskService.GetTask | backend/app/api/routes.py:128-143 | 404 "Task not found" iff no task has the id; otherwise that task |
| Routes.TaskService.GetTaskByUrl | backend/app/api/routes.py:189-204 | 404 "Task not found for this URL" iff no task has the URL; otherwise the newest such task |
| Routes.TaskService.ProcessTask | backend/app/api/routes.py:18-67 | the background job follows its specification and keeps the store valid |
| Routes.InsertValid | backend/app/services/database.py:170-179 | creation keeps ids present, fresh and distinct |
| Routes.RemoveDistinct | backend/app/services/database.py:204-210 | deletion keeps ids distinct |
| Routes.DeleteValid | backend/app/services/database.py:204-210 | deletion keeps the store valid |
| Routes.UpdateValid | backend/app/services/database.py:181-202 | an update keeps the store valid |
| Routes.RemoveOnePerUrl | backend/app/services/database.py:204-210 | deletion keeps at most one task per URL |
| Routes.UpdateEffect | backend/app/services/database.py:181-202 | an update changes the task with the id as `Updated` says and no other task |
| Routes.CreateThenLookup | backend/app/api/routes.py:88-110 | after `create_task`, looking the URL up gives the task it answered |
| Routes.CreateDeduplicates | backend/app/api/routes.py:88-100 | a second `create_task` without refresh answers the same task and leaves the store unchanged |
| Routes.CreateSchedulesNewTask | backend/app/api/routes.py:102-110 | with no task for the URL, or with `force_refresh`, a new pending task is created and its job queued |
| Routes.NoneLeftForUrl | backend/app/api/routes.py:103-104 | with one task per URL, deleting the latest task for a URL leaves none for it |
| Routes.ReplaceForUrlOnePerUrl | backend/app/api/routes.py:160-171 | deleting the existing task and creating a new one keeps one task per URL |
| Routes.CreateKeepsOnePerUrl | backend/app/api/routes.py:88-110 | `create_task` keeps at most one task per URL |
| Routes.RefreshKeepsOnePerUrl | backend/app/api/routes.py:160-171 | `refresh_task` keeps at most one task per URL |
| Routes.RefreshReplacesTask | backend/app/api/routes.py:160-171 | `refresh_task` answers a new pending task, which is the URL's latest task, and every earlier task for the URL is gone |
| Routes.ProcessCompletes | backend/app/api/routes.py:21-43 | when crawl, conversion and both updates go through, the task ends `completed` with the article and its error unchanged |
| Routes.ProcessFails | backend/app/api/routes.py:45-65 | when any step fails, the task ends `failed` with the fixed fallback error and its result unchanged |
| Routes.FailureUpdateSwallowed | backend/app/api/routes.py:58-67 | when the final `failed` update itself fails, the task stays `processing` and the job ends without raising |
| Routes.ProcessOutcome | backend/app/api/routes.py:18-67 | the task ends `completed` iff every step succeeds and `failed` iff one does not |
| Routes.ProcessIsolated | backend/app/api/routes.py:18-67 | the job changes only its own task, never the number of tasks, the id counter or the jobs, and nothing at all when its task does not exist |

## Left out

- The crawler, the one-shot PocketBase set-up script, the FastAPI application wiring and the settings are not part of this model. Neither is the TypeScript renderer with its polling front end.
- Floating point: JSON numbers are integers. `str()` of a float and Pydantic's coercion between types are not modelled. A value validates only when it already has the schema's type.
- Timestamps: `created`/`updated` and `fromisoformat` are left out. The newest-first order of the URL query is the creation order of the store.
- Record ids: the store issues ids from a counter (`Routes.IdOf`) in place of PocketBase's random ids, so the ids are fresh and distinct by construction.
- Routes.TaskService.FindTaskByUrl: the URL filter is exact equality. The source puts `url="{url}"` into the query string without escaping. For a URL containing `"`, `&`, `#`, `+` or `%` (so also any URL that `HttpUrl` percent-encodes), that filter is cut off, split, decoded or never sent. The lookup then most likely fails or misses, and the error is turned into "no task". For such URLs `create_task` would not deduplicate and `refresh_task` would not delete the old task. `Routes.CreateDeduplicates`, `Routes.CreateThenLookup`, `Routes.CreateKeepsOnePerUrl`, `Routes.RefreshKeepsOnePerUrl` and `Routes.RefreshReplacesTask` are therefore stated for URLs whose filter reaches the store intact.
- URL normalisation by `HttpUrl` and `str(request.url)` is not modelled. The request's URL is taken as the string the handlers use.
- Models.ParseCreateTaskRequest: any string is accepted as `url`. The source's `HttpUrl` answers 422 to anything that is not an absolute http or https URL with a host (`""`, `"example.com"`, `"ftp://x"`); that validation is not modelled.
- Models.ParseRefreshTaskRequest: the same; `url` is any string, without the `HttpUrl` validation.
- DatabaseRows.FixRow: `str()` of a nested string uses Python's repr escapes for backslash, quotes, `\n`, `\r`, `\t` and the other ASCII control characters. Non-ASCII characters that Python's repr escapes as non-printable (for example U+00A0) are kept as they are, because that depends on the Unicode database.
- LlmRows.FixRow: the same repr limitation as `DatabaseRows.FixRow`.
- Routes.TaskService: the task endpoints work on an in-memory store rather than on the `PocketBase` class. The record bodies and their parsing are linked to the store by the `TaskRecords` lemmas. A failed PATCH is the `reachable` / `failing` parameter of an update. The store always answers lookups and deletes. In the source, three of those calls catch `httpx.HTTPStatusError` (a 400 or 500 answer, or a 401/403 that comes back again after the retry) and carry on instead of failing the request. `PocketBase.ByUrlResult`, `PocketBase.ByIdResult` and `PocketBase.DeleteResult` model that swallowing on the PocketBase side; the endpoints below do not. A failed POST, a failed connection or a record that `_parse_task` rejects is not caught and would surface as HTTP 500; that is not modelled either.
- Routes.TaskService.FindTaskByUrl: an error answer from the store gives None in the source, as if the URL had no task. The "iff" holds only when the store answers.
- Routes.TaskService.FindTaskById: an error answer gives None in the source, even for an id that exists. The "iff" holds only when the store answers.
- Routes.TaskService.DeleteTask: an error answer gives False in the source and the record stays. The "iff" holds only when the store answers.
- Routes.TaskService.CreateTask: when the URL lookup fails, `create_task` creates a second task for a URL that already has one. When the delete fails under `force_refresh`, the handler ignores the False and the old task stays beside the new one. `Routes.CreateDeduplicates`, `Routes.CreateThenLookup` and `Routes.CreateKeepsOnePerUrl` hold only for a store that answers.
- Routes.TaskService.RefreshTask: a failed lookup or a failed delete leaves the old task beside the new one. `Routes.RefreshKeepsOnePerUrl` and `Routes.RefreshReplacesTask` hold only for a store that answers.
- Routes.TaskService.GetTask: the source also answers 404 "Task not found" when the id lookup gets an error answer, so the "iff" holds only for a store that answers.
- Routes.TaskService.GetTaskByUrl: the source also answers 404 "Task not found for this URL" when the URL lookup gets an error answer, so the "iff" holds only for a store that answers. The exact-equality filter limits it as well (see `Routes.TaskService.FindTaskByUrl` above).
- Routes.TaskService.ProcessTask: `failing` names the statuses whose update raises for a reason other than a missing record. Which exception is raised, and the log lines, are not modelled.
- Concurrency: the background job runs to completion as one step. Interleavings of requests and jobs are not modelled.
- In-place mutation: the normalisers and the image pass build new values. When the source raises halfway (a block that is not a dict, say), the blocks it has already rewritten in the caller's dict are lost in the model, which reports only the exception.
- The network: model replies and HTTP answers are functions of their arguments. An image URL met twice gets the same download and upload answers both times.
- `urlparse`, `hashlib.md5` and the image service's own admin-token cache are inputs (`ImageEnv`). So are `json.loads` and the model call (`LlmService.Convert`).
- LlmService.Message: a validation failure's message is the prefix alone; the `str(e)` detail after it is not modelled.
- The wording of the system prompt and of the two language instructions: they are parameters (`LlmService.Prompts`).
- Logging is not modelled.
