# Document extraction pipeline: a Dafny model

This project models the core of a document-processing service in Dafny. The
service:

- ingests a file from an upload, a local or network path, S3 or Azure Blob
  Storage;
- extracts its text and metadata (PDF, TXT, DOCX, PPTX);
- renders the result as JSON, XML, CSV or plain text;
- sends it to a large language model through one of four providers (OpenAI,
  Anthropic, Ollama, AWS Bedrock), with a prompt built from built-in or custom
  templates;
- stores results locally, on a network path, in S3 or in Azure;
- offers a separate `InformationExtractor` that asks an OpenAI model for
  named fields and parses the JSON it returns, also when the JSON comes
  wrapped in a Markdown code fence.

One Dafny module models each source module:

| Dafny file | Module | Models |
|---|---|---|
| `file_processing.dfy` | `FileProcessing` | `modules/file_processing.py` |
| `output_formatter.dfy` | `OutputFormatter` | `modules/output_formatter.py` |
| `prompt_manager.dfy` | `PromptManager` | `modules/prompt_manager.py` |
| `llm_manager.dfy` | `LlmManager` | `modules/llm_manager.py` |
| `file_storage.dfy` | `FileStorage` | `modules/file_storage.py` |
| `file_ingestion.dfy` | `FileIngestion` | `modules/file_ingestion.py` |
| `openai_client.dfy`, `anthropic_client.dfy`, `ollama_client.dfy`, `bedrock_client.dfy` | `OpenAIClient`, `AnthropicClient`, `OllamaClient`, `BedrockClient` | `providers/*.py` |
| `extractor.dfy` | `Extractor` | `extract/extractor.py` |

Shared modules:

- `Outcomes`: `Option`, `Result` and the Python exception kinds, plus
  Python truthiness of optional values.
- `Text`: the string operations the source relies on, such as `strip`,
  `lower`, `split`, `join`, `os.path.basename`, `os.path.join`,
  `str.format` with a `{content}` field, and `int` to `str`.
- `JsonValue`: a JSON value with insertion-ordered dictionaries, plus Python's
  subscript and `dict.get` semantics over it.
- `Utf8`: UTF-8 encoding of text.
- `Http`: the request a provider sends and the outcome it gets back.
- `Settings`: the configuration defaults of `config/settings.py`.

Modelling choices:

- **Objects whose fields change become classes.** This covers the prompt
  table, the provider cache of the LLM manager, the Bedrock provider's lazily
  created client and the storage service.
- **Remote stores are values.** The storage service keeps its directories,
  files, S3 objects, Azure containers and blobs as a `Stores` value. Each
  storage operation is stated as a function from the old stores to the
  result and the new stores.
- **Library calls are parameters.** HTTP calls, the AWS and Azure SDKs,
  `json.loads`, the OpenAI chat client and the document parsers are
  function or value parameters.
- **Loops stay loops.** Loops in the source are `while` loops here, proved
  against the functions that specify them.

Consequences proved about the default configuration:

- The LLM manager always passes `settings.anthropic_base_url` to the
  Anthropic provider. That setting defaults to `https://api.anthropic.com`,
  so with default settings the provider posts to
  `https://api.anthropic.com/messages`, and its own fallback URL, which ends
  in `/v1`, is not used (`LlmManager.DefaultAnthropicUrl`). An empty
  `ANTHROPIC_BASE_URL` does select that fallback.
- The text extractor tries UTF-8, then Latin-1, then cp1252. Latin-1 decodes
  every byte sequence, so `.txt` extraction never fails and cp1252 is never
  reached (`FileProcessing.TxtNeverFails`).
- XML output re-parses the serialised tree, and the parser rejects any tag
  that is not an XML name. pypdf keys its document-information entries with
  PDF names such as `/Producer`, and these become tags under
  `pdf_metadata`. So XML output of a PDF that has such an entry raises
  `ExpatError` (`OutputFormatter.PdfInfoBreaksXml`).

## Model

| member | source | states |
|---|---|---|
| Outcomes.StrOr | providers/openai_client.py:19 | `x or default` on an optional string: the value when it is set and non-empty, the default otherwise |
| Outcomes.IntOr | providers/anthropic_client.py:52 | `max_tokens or 4096`: the value when it is set and non-zero, the default otherwise |
| Text.TrimLeftSuffix | modules/file_processing.py:113 | the leading part `strip` removes is all whitespace, and what remains is a suffix that starts with a non-space |
| Text.TrimRightPrefix | modules/file_processing.py:113 | the trailing part `strip` removes is all whitespace, and what remains is a prefix that ends with a non-space |
| Text.StripEmptyIffBlank | modules/file_processing.py:113 | `text.strip()` is empty exactly when every character is whitespace |
| Text.Lower | modules/llm_manager.py:40 | `lower()` keeps the length and maps each character through the ASCII lower-case mapping |
| Text.LowerIdempotent | modules/llm_manager.py:40 | lower-casing twice equals lower-casing once, and the result has no upper-case letter |
| Text.Split | modules/output_formatter.py:137 | `str.split(c)` always returns at least one piece |
| Text.SplitJoin | modules/output_formatter.py:137 | splitting on `c` gives one more piece than there are `c`s, no piece holds `c`, and joining with `c` gives back the string |
| Text.JoinHasPart | extract/extractor.py:184 | `sep.join(parts)` contains every part |
| Text.FormatPlain | modules/prompt_manager.py:91 | `str.format` leaves a template without braces unchanged |
| Text.FormatOneField | modules/prompt_manager.py:91 | formatting `p{content}q` (with `p` and `q` brace-free) gives `p + content + q` |
| Text.AfterLastSegment | modules/file_ingestion.py:117 | `os.path.basename`: the longest suffix without `/`, preceded by `/` whenever it is not the whole path |
| Text.AfterLastNone | modules/file_ingestion.py:117 | the basename of a path without `/` is the path itself |
| Text.AfterLastSuffix | modules/file_ingestion.py:117 | the basename of `p + "/" + q`, for a `q` without `/`, is `q` |
| Text.SplitAtFirst | modules/file_storage.py:176 | splitting at the first `c` gives a `c`-free head, `c` and the rest, and fails exactly when `c` is absent |
| Text.SplitAtFirstConcat | modules/file_storage.py:176 | splitting `a + c + b` at the first `c`, for a `c`-free `a`, gives `(a, b)` |
| Text.PathJoin | modules/file_storage.py:115 | `os.path.join(dir, name)` ends with `name`; an absolute `name` replaces `dir`; otherwise the result starts with `dir` |
| Text.NatToString | modules/output_formatter.py:76 | `str(n)` is a non-empty string of decimal digits, longer than one digit exactly when `n >= 10` |
| Text.NatToStringValue | modules/output_formatter.py:76 | the digits of `str(n)` denote `n`, with no leading zero |
| Text.Repeat | modules/output_formatter.py:154 | `"=" * 80`: `n` copies of the character |
| JsonValue.Keys | modules/output_formatter.py:95 | a dictionary's keys in insertion order |
| JsonValue.Lookup | modules/output_formatter.py:95 | a key is found exactly when it is among the dictionary's keys |
| JsonValue.LookupAt | modules/output_formatter.py:95 | in a dictionary with unique keys, looking up the key of entry `i` gives entry `i`'s value |
| JsonValue.PutLookup | providers/openai_client.py:54-55 | after `d[k] = v`, key `k` maps to `v` and every other key is unchanged |
| JsonValue.PutKeys | providers/ollama_client.py:47-48 | `d[k] = v` keeps the key order when `k` is present and appends `k` when it is not |
| JsonValue.PutNew | modules/file_processing.py:213 | assigning a new key appends an entry at the end |
| JsonValue.PutUnique | providers/openai_client.py:54-55 | `d[k] = v` keeps the keys unique |
| JsonValue.MergeLookup | providers/openai_client.py:48-52 | in `{**a, **b}` a key takes its value from `b` when `b` has it and from `a` otherwise |
| JsonValue.Index | providers/openai_client.py:66 | Python subscripting: a dictionary key succeeds exactly when present; a list index succeeds exactly for `-len <= i < len` |
| JsonValue.GetOr | providers/ollama_client.py:58 | `dict.get(k, default)`: the stored value when the key is present, the default otherwise; an error on a non-dictionary |
| JsonValue.EscapeVerbatim | modules/output_formatter.py:145 | with `ensure_ascii=False`, a string without quotes, backslashes or control characters is serialised as itself |
| Utf8.EncodeChar | modules/file_storage.py:167 | one to four bytes per character, a single byte exactly for ASCII, and continuation bytes in `0x80..0xBF` |
| Utf8.Encode | modules/file_storage.py:167 | `str.encode("utf-8")` has between one and four bytes per character |
| Utf8.EncodeConcat | modules/file_storage.py:167 | encoding distributes over concatenation |
| Utf8.EncodeAscii | modules/file_storage.py:167 | an ASCII string encodes to its own code points, one byte each |
| Utf8.EncodeNonAscii | modules/file_storage.py:182 | a string holding a non-ASCII character encodes to more bytes than characters (the logged size is in bytes) |
| FileProcessing.ExtensionParts | modules/file_processing.py:86-88 | `"." + name.split(".")[-1].lower()`: a dot followed by the lower-cased text after the last dot, or the whole lower-cased name when there is no dot |
| FileProcessing.ExtensionOfSuffix | modules/file_processing.py:86-88 | the extension of `stem.suffix` is `.` plus the lower-cased suffix, whatever the stem holds |
| FileProcessing.PdfPartsPages | modules/file_processing.py:110-122 | the PDF parts are exactly the pages whose text is present and not blank, each headed `--- Página n ---` with its 1-based number |
| FileProcessing.ExtractFromPdf | modules/file_processing.py:103-126 | the page loop yields the joined parts; a reader failure becomes `ValueError("Erro ao processar PDF: ...")` |
| FileProcessing.KeptParagraphsExact | modules/file_processing.py:151-153 | a paragraph is kept exactly when it is not blank |
| FileProcessing.TableLines | modules/file_processing.py:158-160 | one line per row, each the row's stripped cells joined by ` \| ` |
| FileProcessing.TablePartsCount | modules/file_processing.py:156-162 | one part per table that has rows, and each part is that table's lines joined by newlines |
| FileProcessing.CollectParagraphs | modules/file_processing.py:151-153 | the paragraph loop keeps exactly the non-blank paragraphs, in order |
| FileProcessing.CollectRows | modules/file_processing.py:158-160 | the row loop builds `TableLines` |
| FileProcessing.CollectTables | modules/file_processing.py:156-162 | the table loop appends the parts of the tables that have rows after the paragraphs |
| FileProcessing.ExtractFromDocx | modules/file_processing.py:143-168 | paragraphs, then tables, joined by blank lines; a reader failure becomes `ValueError("Erro ao processar DOCX: ...")` |
| FileProcessing.KeptShapesExact | modules/file_processing.py:179-181 | a shape's text is kept exactly when the shape has text and it is not blank |
| FileProcessing.SlidePartShape | modules/file_processing.py:177-183 | a slide contributes nothing exactly when all its shape texts are blank; otherwise it contributes its header followed by the kept texts |
| FileProcessing.CollectSlide | modules/file_processing.py:178-181 | the shape loop builds the header followed by the kept shape texts |
| FileProcessing.ExtractFromPptx | modules/file_processing.py:170-189 | the slide parts joined by blank lines; a reader failure becomes `ValueError("Erro ao processar PPTX: ...")` |
| FileProcessing.Latin1 | modules/file_processing.py:135 | Latin-1 decoding maps each byte to the character with the same code |
| FileProcessing.ExtractFromTxt | modules/file_processing.py:128-141 | the result is the first of utf-8, latin-1 and cp1252 that decodes; it fails only when none does |
| FileProcessing.TxtNeverFails | modules/file_processing.py:132-138 | TXT extraction always succeeds, with the UTF-8 text when the bytes are UTF-8 and the Latin-1 text otherwise |
| FileProcessing.SupportedExtensionsDispatch | modules/file_processing.py:90-101 | every supported extension reaches an extractor; `.txt` never fails; every other failure is a `ValueError` starting `Erro ao processar ` |
| FileProcessing.ExtractText | modules/file_processing.py:90-101 | dispatch by extension to the PDF, TXT, DOCX or PPTX extractor |
| FileProcessing.StrDict | modules/file_processing.py:213-215 | `{k: str(v)}`: one string entry per metadata pair, in order |
| FileProcessing.ExtractMetadata | modules/file_processing.py:191-242 | the four base entries come first, followed by the format's entries; a parser failure keeps only the base entries |
| FileProcessing.AddPdfMetadata | modules/file_processing.py:203-215 | a readable PDF adds its page count and encryption flag, then its document information as strings when there is any; an unreadable one adds nothing |
| FileProcessing.AddDocxMetadata | modules/file_processing.py:217-232 | a readable DOCX adds its paragraph and table counts, then title, author, created and modified when it has core properties |
| FileProcessing.AddPptxMetadata | modules/file_processing.py:234-237 | a readable PPTX adds its slide count |
| FileProcessing.ProcessFile | modules/file_processing.py:55-84 | an unsupported extension is a `ValueError` naming it; an extraction error propagates unchanged; otherwise it succeeds, whatever the metadata extraction meets, with the text, the metadata, the name, the byte size, the extension and the time |
| OutputFormatter.FormatAsJson | modules/output_formatter.py:56-66 | an object with the six keys in order and unique, carrying the content, the metadata and the size |
| OutputFormatter.ItemElementsShape | modules/output_formatter.py:100-107 | a list value gives one element per item, each tagged with the key |
| OutputFormatter.DictElementsShape | modules/output_formatter.py:93-111 | `_dict_to_xml` gives as many elements as the entries and list items count, each tagged with one of the dictionary's keys |
| OutputFormatter.ListToXml | modules/output_formatter.py:100-107 | the item loop builds `ItemElements` |
| OutputFormatter.DictToXml | modules/output_formatter.py:93-111 | the entry loop builds `DictElements` |
| OutputFormatter.FormatAsXml | modules/output_formatter.py:68-91 | succeeds exactly when the document is serialisable, with a `document` root holding `file_info` (name, type, size, time attributes), `content` and `metadata`, in that order; otherwise the re-parse raises `ExpatError` |
| OutputFormatter.DictWellFormed | modules/output_formatter.py:93-111 | the elements `_dict_to_xml` builds all re-parse exactly when every key that becomes a tag is an XML name and every value's text holds only XML characters |
| OutputFormatter.XmlLayoutWellFormed | modules/output_formatter.py:68-91 | the document tree re-parses exactly when the file's facts, the content and the metadata are serialisable |
| OutputFormatter.PdfInfoBreaksXml | modules/file_processing.py:212-215 | a `pdf_metadata` entry whose key starts with `/` makes the document unserialisable as XML |
| OutputFormatter.FormatAsCsv | modules/output_formatter.py:119-149 | seven header rows, one row per content line, a blank row, the `Metadados` row, then one row per metadata entry with dictionaries serialised as JSON |
| OutputFormatter.CsvContentRows | modules/output_formatter.py:137-138 | the content rows number the newlines plus one, and joined back with newlines they give the content |
| OutputFormatter.TxtLineCount | modules/output_formatter.py:153-182 | the metadata section has one line per scalar entry and one plus its size per dictionary entry; the rules are 80 characters wide |
| OutputFormatter.TxtSubLines | modules/output_formatter.py:177-179 | a dictionary entry gives `key:` followed by indented `sub: value` lines |
| OutputFormatter.TxtEntry | modules/output_formatter.py:176-181 | one metadata item's lines: a dictionary's sub-lines, or one `key: value` line |
| OutputFormatter.AppendMetadataLines | modules/output_formatter.py:175-181 | the metadata loop appends `TxtMetadataLines` to the header |
| OutputFormatter.FormatAsTxt | modules/output_formatter.py:151-184 | the fixed header lines, then the metadata lines, joined by newlines |
| OutputFormatter.FormatOutput | modules/output_formatter.py:40-54 | the format is lower-cased; json, csv and txt always succeed and xml succeeds exactly when the document is serialisable, each giving that renderer's full output (the JSON object, the XML tree's layout, every CSV row, the text); a failed xml re-parse is an `ExpatError`; any other format is a `ValueError` |
| PromptManager.BuiltinNamesDistinct | modules/prompt_manager.py:10-30 | the ten built-in prompt names are distinct |
| PromptManager.FormatPrompt | modules/prompt_manager.py:90-94 | a template with `{content}` is formatted; one without gets `\n\nDocumento:\n` and the content appended |
| PromptManager.FormatPromptField | modules/prompt_manager.py:90-91 | a brace-free template around `{content}` yields the text with the content in place |
| PromptManager.PromptTable.constructor | modules/prompt_manager.py:10-30 | the table starts with the ten built-in prompts in order |
| PromptManager.PromptTable.GetPrompt | modules/prompt_manager.py:46-51 | a known name gives its template, which contains `{content}`; an unknown name is a `KeyError` listing the names |
| PromptManager.PromptTable.ListPrompts | modules/prompt_manager.py:61 | the names are distinct and are exactly the table's keys |
| PromptManager.PromptTable.AddCustomPrompt | modules/prompt_manager.py:72-76 | a template without `{content}` is rejected and the table is unchanged; otherwise the name maps to the template, and a new name goes last |
| OpenAIClient.PayloadLookup | providers/openai_client.py:48-55 | `max_tokens` is set only when it is truthy, else taken from the extra arguments; `model` and `messages` come from the call unless the extra arguments hold them. In Python only `messages` can arrive that way, because `model` and `max_tokens` are named parameters of `generate_response`. |
| OpenAIClient.ReplyTextOfChoice | providers/openai_client.py:66 | the answer is `choices[0].message.content` |
| OpenAIClient.OpenAIProvider.constructor | providers/openai_client.py:16-19 | the key is kept, and the base URL falls back to `https://api.openai.com/v1` |
| OpenAIClient.OpenAIProvider.ChatRequest | providers/openai_client.py:43-63 | a POST to `base/chat/completions` with a bearer token and a JSON content type |
| OpenAIClient.OpenAIProvider.Generate | providers/openai_client.py:40-70 | a missing key is a `ValueError`; otherwise the reply to the chat request |
| AnthropicClient.PayloadMaxTokens | providers/anthropic_client.py:49-54 | `max_tokens` is `max_tokens or 4096` unless the extra arguments hold one. Python cannot produce that case, because `max_tokens` is a named parameter of `generate_response`. |
| AnthropicClient.ReplyTextOfBlock | providers/anthropic_client.py:65 | the answer is `content[0].text` |
| AnthropicClient.AnthropicProvider.constructor | providers/anthropic_client.py:16-19 | the key is kept, and the base URL falls back to `https://api.anthropic.com/v1` |
| AnthropicClient.AnthropicProvider.MessagesRequest | providers/anthropic_client.py:43-62 | a POST to `base/messages` with `x-api-key`, `anthropic-version: 2023-06-01` and a JSON content type |
| AnthropicClient.AnthropicProvider.Generate | providers/anthropic_client.py:40-69 | a missing key is a `ValueError`; otherwise the reply to the messages request |
| OllamaClient.PayloadOptions | providers/ollama_client.py:47-48 | a truthy `max_tokens` sets `options.num_predict`; otherwise `options` comes from the extra arguments |
| OllamaClient.PayloadStream | providers/ollama_client.py:40-45 | `stream` is false unless the extra arguments override it |
| OllamaClient.ReplyText | providers/ollama_client.py:58 | `result.get("response", "")` |
| OllamaClient.Names | providers/ollama_client.py:71 | every model's `name`, in order, or a failure naming a model without one |
| OllamaClient.ListModels | providers/ollama_client.py:64-74 | the names of the listed models; a failed call, a reply that is not a dict, a `models` value that cannot be iterated, or a model without a name falls back to the built-in catalogue |
| OllamaClient.CatalogueJson | providers/ollama_client.py:76-85 | the catalogue as JSON strings, element by element |
| OllamaClient.ListModelsOfTags | providers/ollama_client.py:68-71 | a tags reply whose models all have names lists exactly those names |
| OllamaClient.OllamaProvider.constructor | providers/ollama_client.py:16-19 | the base URL falls back to `http://localhost:11434` |
| OllamaClient.OllamaProvider.GenerateRequest | providers/ollama_client.py:52-55 | a POST without headers to `base/api/generate` |
| OllamaClient.OllamaProvider.Generate | providers/ollama_client.py:50-62 | the reply to the generate request; Ollama needs no key |
| OllamaClient.OllamaProvider.TagsUrl | providers/ollama_client.py:68 | the model list comes from `base/api/tags` |
| BedrockClient.BodyBudget | providers/bedrock_client.py:71-85 | a Claude model gets `max_tokens` and the user message; any other model gets `inputText` and a `textGenerationConfig` whose `maxTokenCount` the extra arguments may override |
| BedrockClient.IsClaudeIgnoresCase | providers/bedrock_client.py:71 | the Claude test ignores case |
| BedrockClient.ClaudeAt | providers/bedrock_client.py:71 | a model id containing `claude` is a Claude model |
| BedrockClient.NotClaude | providers/bedrock_client.py:71 | a model id without any `c` or `C` is not a Claude model |
| BedrockClient.CatalogueShapes | providers/bedrock_client.py:114-124 | of the seven listed models, the first three use the Claude format and the other four the generic one |
| BedrockClient.GenericReplyText | providers/bedrock_client.py:102-104 | a generic reply gives `results[0].outputText`, and `""` when `results` is absent |
| BedrockClient.BedrockProvider.constructor | providers/bedrock_client.py:17-30 | the credentials are kept, the region falls back to `us-east-1`, and there is no client yet |
| BedrockClient.BedrockProvider.GetClient | providers/bedrock_client.py:32-41 | the client is created once and reused afterwards |
| BedrockClient.BedrockProvider.Generate | providers/bedrock_client.py:62-108 | missing credentials are a `ValueError` and leave the client untouched; otherwise the model is invoked with the body and JSON content types |
| LlmManager.BuildPrompt | modules/llm_manager.py:100-109 | a non-empty template is used as `format_prompt` uses it; a missing or empty one gives the default summary instruction |
| LlmManager.DefaultAnthropicUrl | config/settings.py:29-31 | with default settings the manager's Anthropic provider posts to `https://api.anthropic.com/messages`, not to its own `/v1` fallback |
| LlmManager.Manager.constructor | modules/llm_manager.py:22-25 | the cache starts empty |
| LlmManager.Manager.GetAvailableProviders | modules/llm_manager.py:72-74 | four distinct lower-case names, exactly those `get_provider` accepts |
| LlmManager.Manager.GetProvider | modules/llm_manager.py:40-70 | the name is lower-cased; a cached provider is returned as it is; a known name builds a provider from the settings and caches it; an unknown name is a `ValueError` and changes nothing |
| LlmManager.CreateProvider | modules/llm_manager.py:45-67 | each of the four known names gets a new provider of its own kind with the configured key and URL; any other name is the `ValueError` listing the four |
| LlmManager.Manager.ProcessWithLlm | modules/llm_manager.py:98-121 | an unknown provider fails first and leaves the cache alone; a provider not yet cached is built from the settings and cached; a prompt error comes next; otherwise the built prompt, model and `max_tokens` go to that provider, and for Bedrock the result is the credential error or the reply through the cached client, created on first use |
| FileStorage.S3UriRoundTrip | modules/file_storage.py:176 | `s3://bucket/key` gives back its bucket and key |
| FileStorage.AzureUriRoundTrip | modules/file_storage.py:224 | the blob URI gives back its account, container and blob |
| FileStorage.ObjectName | modules/file_storage.py:273 | `prefix/name` when there is a prefix, otherwise the name; it always ends with the name |
| FileStorage.ObjectNameBasename | modules/file_storage.py:273 | the prefix does not change the basename of the object name |
| FileStorage.LocalSave | modules/file_storage.py:110-121 | fails exactly when the directory is missing and cannot be created, changing nothing; otherwise the directory exists, the UTF-8 content is stored at `os.path.join(dir, name)`, which is returned, and nothing else changes |
| FileStorage.NetworkSave | modules/file_storage.py:123-147 | as the local save, but a directory that cannot be created is an `IOError` naming it |
| FileStorage.S3Save | modules/file_storage.py:149-192 | missing credentials are a `ValueError`; a client error is an `IOError`; otherwise the object is stored and `s3://bucket/key` is returned |
| FileStorage.AzureSave | modules/file_storage.py:194-237 | every failure is an `IOError` and changes nothing; otherwise the container exists, the blob is stored and its URI is returned |
| FileStorage.ItemSave | modules/file_storage.py:270-293 | a file that fails to save changes nothing |
| FileStorage.SaveEach | modules/file_storage.py:270-293 | one outcome per file, and each success is at the location its destination and object name dictate |
| FileStorage.Present | modules/file_storage.py:286 | only successes are collected, so never more than the files |
| FileStorage.PresentLocations | modules/file_storage.py:286-292 | every returned location is the location of a file at or after its position |
| FileStorage.PresentAll | modules/file_storage.py:286 | when every file succeeds, all locations are returned, in order |
| FileStorage.SaveEachWithoutCredentials | modules/file_storage.py:156-157 | a batch to S3 without credentials saves nothing and returns an empty list |
| FileStorage.FileStorageService.constructor | modules/file_storage.py:30-37 | the default output directory exists afterwards |
| FileStorage.FileStorageService.SaveToLocal | modules/file_storage.py:110-121 | the result and new stores are those of `LocalSave` |
| FileStorage.FileStorageService.SaveToNetwork | modules/file_storage.py:123-147 | the result and new stores are those of `NetworkSave` |
| FileStorage.FileStorageService.SaveToS3 | modules/file_storage.py:149-192 | the result and new stores are those of `S3Save` |
| FileStorage.FileStorageService.SaveToAzure | modules/file_storage.py:194-237 | the result and new stores are those of `AzureSave` |
| FileStorage.FileStorageService.SaveFile | modules/file_storage.py:77-104 | the result and new stores are those of `FileSave`: local uses the default directory when none is given; a network path, S3 or Azure without its parameters is a `ValueError` and changes nothing |
| FileStorage.FileStorageService.SaveItem | modules/file_storage.py:270-293 | one file of a batch, with errors swallowed |
| FileStorage.FileStorageService.SaveMultipleFiles | modules/file_storage.py:268-300 | the file loop returns the locations of the successes and leaves the stores as `SaveEach` says |
| FileIngestion.ReadFromS3 | modules/file_ingestion.py:122-153 | missing credentials are a `ValueError`, any other failure is a `FileNotFoundError`, and success gives the object's bytes and the key's basename |
| FileIngestion.ReadFromAzure | modules/file_ingestion.py:155-183 | every failure is a `FileNotFoundError`; success gives the blob's bytes and the blob's basename |
| FileIngestion.ReadFromPath | modules/file_ingestion.py:110-120 | succeeds exactly for an existing file, giving its bytes and the path's basename; a path that does not exist is a `FileNotFoundError` naming it; a directory is an `IOError` |
| FileIngestion.IngestFile | modules/file_ingestion.py:77-104 | an upload succeeds exactly with content and name and returns them; a source without its parameters is a `ValueError` with that source's fixed message; otherwise the result is that of the path, S3 or Azure reader |
| FileIngestion.Zip | modules/file_ingestion.py:209 | `zip` pairs elements index by index, up to the shorter list |
| FileIngestion.ReadAll | modules/file_ingestion.py:214-215 | the gathered reads give one result per path, each what reading that path alone gives |
| FileIngestion.ReadAllSucceeds | modules/file_ingestion.py:214-215 | when every path can be read, the gather succeeds |
| FileIngestion.ReadAllFirstFailure | modules/file_ingestion.py:214-215 | the gather fails with the error of the first path that cannot be read |
| FileIngestion.IngestMultipleFiles | modules/file_ingestion.py:206-218 | uploads are zipped; a missing list is a `ValueError`; S3 and Azure are a `ValueError` |
| FileIngestion.BatchMatchesSingles | modules/file_ingestion.py:211-215 | a batch of paths succeeds exactly when each path ingests alone, with the same results |
| FileIngestion.LocalReadBack | modules/file_ingestion.py:110-120 | a file saved locally reads back as its UTF-8 bytes under its own name |
| FileIngestion.LocalRoundTrip | modules/file_ingestion.py:84-87 | ingesting the path a local save returned gives the saved bytes and name |
| FileIngestion.S3RoundTrip | modules/file_ingestion.py:89-94 | an S3 object just saved ingests as its UTF-8 bytes and its key's basename |
| FileIngestion.S3BatchRoundTrip | modules/file_ingestion.py:141 | a batch-saved S3 object ingests under its original file name, whatever the prefix |
| FileIngestion.AzureRoundTrip | modules/file_ingestion.py:96-101 | an Azure blob just saved ingests as its UTF-8 bytes and its blob's basename |
| Extractor.ResolveApiKey | extract/extractor.py:41-46 | the argument key wins, then the environment; with neither it is a `ValueError`; a resolved key is never empty |
| Extractor.SchemaLines | extract/extractor.py:284-285 | one `- field: description` line per schema entry, in order |
| Extractor.PromptInstructions | extract/extractor.py:162-184 | the prompt has ten lines exactly when there are instructions, which then form line 4 followed by a blank line; the text follows `Text:` |
| Extractor.PromptMentions | extract/extractor.py:162-184 | the prompt contains the joined fields, the text, `JSON` and the instructions |
| Extractor.SchemaPromptLayout | extract/extractor.py:278-304 | one line per schema entry after the header, then a blank line; ten extra lines exactly when there are instructions |
| Extractor.SchemaPromptMentions | extract/extractor.py:278-304 | the prompt contains every schema entry and the text |
| Extractor.SkipSpace | extract/extractor.py:68 | `\s*` consumes exactly the run of whitespace |
| Extractor.LazyClose | extract/extractor.py:68 | the lazy `.*?\}` ends where a `}` is followed by optional whitespace and a fence |
| Extractor.LazyCloseFirst | extract/extractor.py:68 | the lazy match ends at the first position that can close |
| Extractor.MatchAt | extract/extractor.py:68 | a match at a position is a brace-delimited substring of the reply |
| Extractor.SearchFrom | extract/extractor.py:68 | `re.search` from a position finds a brace-delimited substring |
| Extractor.FencedGroup | extract/extractor.py:68-70 | the captured group starts with `{`, ends with `}` and occurs in the reply |
| Extractor.NoFenceNoGroup | extract/extractor.py:68-71 | a reply without a backtick has no fenced group |
| Extractor.FencedLayout | extract/extractor.py:68 | the layout of a fenced reply: fence, optional `json`, newline, object, newline, fence |
| Extractor.ClosesBeforeFence | extract/extractor.py:68 | a `}` followed by a newline and a fence closes the match |
| Extractor.NoCloseInside | extract/extractor.py:68 | no fence starts inside a backtick-free object |
| Extractor.MatchFencedObject | extract/extractor.py:68 | the match at the start of a fenced reply is the object |
| Extractor.FencedObject | extract/extractor.py:68-70 | a fenced object, tagged `json` or untagged, is captured exactly |
| Extractor.ParseJsonResponse | extract/extractor.py:64-71 | valid JSON is returned as parsed; any other result comes from parsing the fenced group |
| Extractor.ParseFencedReply | extract/extractor.py:64-70 | a fenced reply parses as its object |
| Extractor.ParseWithoutFence | extract/extractor.py:64-71 | a reply without backticks parses as itself, error included |
| Extractor.Shape | extract/extractor.py:124-143 | success exactly when there is no error, with empty data on failure; call errors and `None` content give no raw reply; a parse failure keeps the raw reply |
| Extractor.UnparseableReply | extract/extractor.py:124-131 | an unparseable reply without a fence gives the parse-failure result with the raw reply |
| Extractor.FencedReply | extract/extractor.py:133-137 | a fenced JSON object gives a successful result with its fields and the raw reply |
| Extractor.InformationExtractor.constructor | extract/extractor.py:48 | the key and model are kept |
| Extractor.InformationExtractor.BuildPrompt | extract/extractor.py:162-184 | the prompt is the prompt lines joined by newlines |
| Extractor.InformationExtractor.BuildSchemaPrompt | extract/extractor.py:278-304 | the schema loop builds the schema prompt lines, joined by newlines |
| Extractor.InformationExtractor.Extract | extract/extractor.py:99-143 | the result is the shaped reply to the chat request for the built prompt |
| Extractor.InformationExtractor.ExtractWithSchema | extract/extractor.py:215-259 | the result is the shaped reply to the chat request for the schema prompt |
| Extractor.NewExtractor | extract/extractor.py:31-49 | construction fails exactly when no key resolves, with the key-required `ValueError`; otherwise it keeps the resolved key and the model |

## Left out

- I/O, clocks and the network are parameters. This covers file contents,
  HTTP replies, SDK calls, parser outputs and `datetime.now()`. Floating
  point (`file_size_mb`, the TXT size in MB) arrives as already-rendered text.
- `asyncio` concurrency is not modelled. `asyncio.gather` is modelled as
  reading the paths in order, and its error is the first failing path's.
- Logging (`structlog` calls) has no effect on results and is not modelled.
- `base_provider.py`'s abstract class is replaced by the `LlmManager.Provider`
  datatype, which dispatches over the four provider classes.
- `get_available_models` is a constant `Catalogue` in each provider module.
  Only the Ollama list (the fallback of `list_models`) and the Bedrock list
  (which formats each id selects) carry proved statements.
- `Text.Lower`: only ASCII letters are lower-cased. Python's Unicode case
  mapping is not modelled.
- `Text.Format`: `str.format` is modelled for `{content}` fields, literal text
  and `{{`/`}}` escapes. Any other use of `{` is a `KeyError` with a message
  that is not Python's. Python raises `KeyError` only for an unknown name. It
  raises `IndexError` for `{}` and `{0}`, `ValueError` for an unmatched `{`,
  and `AttributeError` for `{content.x}`. It formats `{content[0]}`,
  `{content!r}` and `{content:>9}` instead of failing.
- Exception messages from libraries are opaque strings supplied with the
  failure. This covers `IsADirectoryError`, SDK errors, pydantic's
  validation text (the `invalid` parameter of `Extractor.Shape`) and parser
  errors.
- Exceptions outside the class a handler catches propagate unchanged in the
  source and are not modelled. `Http.Outcome`, the S3 error maps and the
  Azure error maps hold only what the handlers catch: `httpx.HTTPError`,
  botocore's `ClientError` and, for Azure, any exception. A botocore
  `BotoCoreError` (an unreachable endpoint, a read timeout) from the Bedrock
  client, `_save_to_s3` or `_read_from_s3` escapes unwrapped in the source.
  The model has no such outcome.
- `FileProcessing.ProcessFile`: the order of the supported extensions in the
  error message follows a Python `set`. The model fixes one order.
- Serialisation layouts are not modelled: `json.dumps` indentation, minidom
  pretty-printing and `csv` quoting. The rendered structure (JSON value,
  element tree, rows) is the result.
- `OutputFormatter.FormatAsXml`: the re-parse is modelled by a
  well-formedness test on the tree, which approximates expat in four ways.
  First, non-ASCII name characters follow the XML 1.0 fifth-edition ranges,
  while expat uses the older, narrower character classes.
  Second, a tag with the predefined `xml:` prefix, which expat accepts, is
  reported as an error.
  Third, a tag starting with `{` is read by ElementTree as `{namespace}name`;
  it is reported as a parse error, although ElementTree may instead
  serialise it with a generated prefix or raise `ValueError`.
  Fourth, a key that is not a name but happens to serialise into
  well-formed markup is reported as an error. An example is `a b="c"` with
  an empty value.
- `OutputFormatter.FormatOutput`: an `ExpatError` is stated by kind only.
  Its message, with the line and column of the bad token, is not modelled.
- `PromptManager.PromptTable`: the class-level dictionary shared by all
  callers is one object. Concurrent mutation is not modelled.
- `FileStorage.FileStorageService.constructor`: it requires that the default
  output directory can be created. In the source, a failure there raises
  from `__init__`.
- `FileStorage.LocalSave`: `open()` failures other than creating the
  directory (permissions, a name that is a directory) are not modelled.
- `FileStorage.AzureSave`: a container created just before a failed upload
  stays in the store in the source. The model keeps the stores unchanged on
  any failure.
- `FileStorage.SaveEach`: a batch to S3 or Azure with no bucket or container
  fails for each file. Only the fact that nothing is saved is stated, not
  the error kind.
- `FileIngestion.IngestMultipleFiles`: the unsupported-source error is stated
  by kind only. Its message embeds `f"{source}"`, which prints `s3` on
  Python 3.8 to 3.10 and `FileSource.S3` from 3.11 on; the model's message
  uses the first form.
- `FileIngestion` does not model the service's `__init__`, which creates the
  upload directory.
- Settings loading (`pydantic-settings`, `.env`, `load_dotenv`) is not
  modelled. `Settings.Defaults` is the configuration with nothing set, and
  `os.getenv` is a parameter of `Extractor.NewExtractor`.
- The Streamlit front end, `main.py`, the examples and the tests are not part
  of this model.
