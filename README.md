# LinkedIn Post Generator — a verified Dafny model of its core

The application turns briefs into LinkedIn posts. A brief is one topic. Briefs come from an
uploaded document (CSV, XLSX, TXT, MD, PDF, DOCX) or from a single pasted topic. The posts are
generated one brief at a time through a server relay that calls a chat-completion provider.

This project models the pieces that decide what happens:

- the brief extractor (`src/utils/fileParser.ts`): the row filter, the single-text rule, the PDF
  page loop, and the extension whitelist and dispatch;
- the browser client (`src/services/api.ts`), which classifies the relay's reply;
- the relay (`app/api/generate/route.ts`), which validates requests and maps provider outcomes to
  400/502/500/200;
- the batch pipeline (`src/hooks/usePostGeneration.ts`), a class holding the published list and
  the error banner, with one sequential loop over the briefs;
- the settings store (`src/contexts/SettingsContext.tsx`), a class over a key-value storage object;
- the single-topic form (`src/components/SingleTopicInput.tsx`);
- the preview's counter bands and its status-to-view dispatch (`src/components/PostPreview.tsx`).

Modules follow the source files: `Strings` (JavaScript `trim`, `toLowerCase`, `join` and decimal
formatting), `Types` (`src/types/index.ts`), `FileParser`, `GenerateRoute`, `ApiClient`,
`PostGeneration`, `SettingsContext`, `SingleTopicInput` and `PostPreview`.

Everything outside the program is an input to the model:

- the third-party decoders: rows, page items and raw text arrive as values, or as an error;
- the provider: either a list of choices or a thrown value;
- the HTTP transport: a reply with its `ok` flag and payload, or a failure;
- `Date.now()`: a natural number `now`;
- `localStorage`: a `LocalStorage` object holding a map.

The pipeline's class keeps a ghost log of everything it publishes and every call it issues. This
log is what lets the model state the strict ordering of the batch. In the model, `replies[i]` is
what the transport yields to call i.

Decisions that follow the code:

- An empty reply is rejected twice. The relay trims the provider's text and answers 502 when
  nothing is left. The client itself refuses an ok reply without content, whatever its status.
  The model keeps both checks, and `ApiClient.ClientOverRoute` relates them.
- Only the relay rejects a whitespace-only key. The pipeline and the client test the key only for
  being the empty string, so the key `" "` reaches the relay, which answers 400.

## Model

| member | source | states |
|---|---|---|
| Strings.Trim | src/utils/fileParser.ts:16-24 | the result of `trim` has no leading or trailing JavaScript whitespace |
| Strings.TrimEmptyIff | src/utils/fileParser.ts:24-25 | `trim` yields the empty string exactly when the input is all whitespace in JavaScript's sense (white space and line terminators) |
| Strings.TrimIdempotent | src/utils/fileParser.ts:18 | trimming twice gives the same as trimming once |
| Strings.TrimPadded | app/api/generate/route.ts:19-21 | whitespace added on either side of a trimmed text is exactly what `trim` removes |
| Strings.Join | src/utils/fileParser.ts:45-51 | joining no parts gives the empty string |
| Strings.JoinTrimmed | src/utils/fileParser.ts:51 | joining non-empty trimmed page texts with a separator gives a trimmed text, empty only when there are no pages |
| Strings.LowerChar | src/utils/fileParser.ts:62 | ASCII lower-casing: an upper-case ASCII letter becomes the letter 32 code points above it, and every other character is unchanged |
| Strings.ToLower | src/utils/fileParser.ts:62 | ASCII lower-casing: keeps the length, lower-cases each upper-case ASCII letter in place and leaves every other character as it was |
| Strings.Utf16Length | src/components/PostPreview.tsx:16 | defined as `.length` in UTF-16 code units, one per character up to U+FFFF and two for a character beyond it; the contract states the bounds: between the number of characters and twice it |
| Strings.Utf16LengthAppend | src/components/PostPreview.tsx:16 | `.length` of a concatenation is the sum of the lengths |
| Strings.Utf16LengthBasic | src/components/PostPreview.tsx:16 | without characters beyond U+FFFF, `.length` is the number of characters |
| Strings.Utf16LengthRepeat | src/components/PostPreview.tsx:16 | n copies of a character have n times its code units |
| Strings.NatToString | src/utils/fileParser.ts:19 | a decimal numeral: at least one character, all of them digits, and two or more exactly from 10 up |
| Strings.NatToStringInjective | src/utils/fileParser.ts:19 | different indices print as different decimal strings |
| FileParser.TopicRows | src/utils/fileParser.ts:15-16 | the filter keeps no more rows than it is given, and every kept row has a string first cell with a non-empty trim |
| FileParser.TopicRowsMembers | src/utils/fileParser.ts:15-16 | a row is kept exactly when it is an input row whose first cell is a string with a non-empty trim; number, boolean, null and missing first cells are dropped |
| FileParser.TopicRowsAppend | src/utils/fileParser.ts:15-16 | the row filter distributes over concatenation, so kept rows stay in their original order |
| FileParser.ToBriefsFromRows | src/utils/fileParser.ts:14-21 | one brief per kept row, at most as many as rows, numbered `brief-i` by position after filtering, with the trimmed first cell as non-empty trimmed content |
| FileParser.BriefIdInjective | src/utils/fileParser.ts:19 | `brief-i` and `brief-j` coincide only when i = j |
| FileParser.RowBriefIdsDistinct | src/utils/fileParser.ts:17-20 | the briefs extracted from rows have pairwise distinct ids |
| FileParser.TwoTopicsAroundBlankRow | src/utils/fileParser.ts:14-21 | two topic rows around a blank row give exactly two briefs, `brief-0` and `brief-1`, with those topics |
| FileParser.RowsExample | src/utils/fileParser.ts:14-21 | rows ["Topic 1",""], ["",""], ["Topic 2"] give exactly `brief-0` "Topic 1" and `brief-1` "Topic 2" |
| FileParser.ToSingleBrief | src/utils/fileParser.ts:23-33 | a text gives no brief exactly when it is all whitespace, and otherwise exactly one brief `brief-0` holding the trimmed text |
| FileParser.PageText | src/utils/fileParser.ts:43-46 | the page text is trimmed; it is defined as the page's items, marked content counting as '', joined with single spaces and then trimmed |
| FileParser.PageTexts | src/utils/fileParser.ts:40-46 | one trimmed text per page, in page order |
| FileParser.NonEmptyTexts | src/utils/fileParser.ts:48 | a text is kept exactly when it is one of the page texts and is not empty |
| FileParser.NonEmptyTextsAppend | src/utils/fileParser.ts:48 | the text filter distributes over concatenation, so kept page texts stay in page order |
| FileParser.NonEmptyTextsEmptyIff | src/utils/fileParser.ts:48 | no page text is kept exactly when every page text is empty |
| FileParser.NonBlankPages | src/utils/fileParser.ts:40-49 | every kept page text is non-empty and trimmed |
| FileParser.CollectPageTexts | src/utils/fileParser.ts:38-49 | the loop over pages 1..numPages pushes exactly the non-blank page texts, in page order |
| FileParser.ParsePdf | src/utils/fileParser.ts:35-52 | the non-blank pages joined by a blank line become one brief; there is no brief exactly when every page is blank |
| FileParser.AfterLastDot | src/utils/fileParser.ts:62 | the last piece of `split('.')` contains no dot and is no longer than the name |
| FileParser.AfterLastDotSuffix | src/utils/fileParser.ts:62 | the last piece is a suffix of the name, either the whole name or preceded by a dot |
| FileParser.AfterLastDotOf | src/utils/fileParser.ts:62 | whatever precedes the last dot, the extension of `stem.ext` is `ext` |
| FileParser.AfterLastDotNoDot | src/utils/fileParser.ts:62 | a name without a dot is its own extension |
| FileParser.FileExtension | src/utils/fileParser.ts:62 | the extension contains no dot and no upper-case ASCII letter, and is no longer than the name |
| FileParser.FileExtensionOf | src/utils/fileParser.ts:62 | whatever precedes the last dot, the extension of `stem.e` is `e` lower-cased |
| FileParser.FileExtensionNoDot | src/utils/fileParser.ts:62 | a name without a dot is its own extension, lower-cased |
| FileParser.ParseFile | src/utils/fileParser.ts:59-114 | a missing file fails with 'No file provided'; an extension outside csv/xlsx/txt/md/pdf/docx fails with the invalid-format message before any decoder runs; otherwise the format's decoder and brief rule decide, and a decoder error is passed on |
| FileParser.Dispatch | src/utils/fileParser.ts:68-111 | whatever the format, a successful parse yields only non-empty, trimmed briefs |
| FileParser.ExtensionExamples | src/utils/fileParser.ts:62-66 | `X.CSV` has the extension `csv`; `X.gif` has the extension `gif`, which is not supported |
| GenerateRoute.TrimField | app/api/generate/route.ts:19-21 | trimming keeps an absent field absent and a present field present |
| GenerateRoute.ThrownMessage | app/api/generate/route.ts:55-56 | an `Error` contributes its own message; any other thrown value gives 'Unknown server error' |
| GenerateRoute.TruthyTrimField | app/api/generate/route.ts:19-23 | a trimmed field passes the `!field` test exactly when it is present and not all whitespace |
| GenerateRoute.FirstContent | app/api/generate/route.ts:45 | the first choice's content, when present, is trimmed |
| GenerateRoute.FirstContentTruthy | app/api/generate/route.ts:45-46 | the content test passes exactly when a first choice exists with content that is not all whitespace |
| GenerateRoute.Post | app/api/generate/route.ts:10-62 | bad JSON gives 400 'Invalid JSON body'; a missing or blank field gives 400 with the required-fields message and no provider call; status 400 exactly when no provider call is made; otherwise one provider call with the trimmed key, system prompt and brief, and: when the first choice holds non-whitespace text, 200 with that text trimmed, and a content reply only then; 502 'No content generated' when no first choice holds text; 500 'Failed to generate post: ' plus the error's message, or 'Unknown server error', when the provider throws; status 200 exactly when the reply carries content |
| ApiClient.ErrorOrDefault | src/services/api.ts:37 | the reply's error when it is a non-empty string, 'Failed to generate post' otherwise; never empty |
| ApiClient.GeneratePost | src/services/api.ts:14-45 | an empty key fails with 'API key is required' before anything is sent; otherwise the three options are sent, and the call resolves with the payload's content exactly when the reply is ok with non-empty content; a non-ok reply fails with its error or the default; an ok reply without content fails with 'No content generated'; a transport failure is the only non-`APIError` outcome |
| ApiClient.ClientOverRoute | src/services/api.ts:23-44 | client over relay: with a key, the call resolves exactly when the relay answers 200, then with trimmed non-empty content; a blank field is refused with no provider call and its message reaches the caller; every relay error message reaches the caller unchanged |
| PostGeneration.ErrorMessage | src/hooks/usePostGeneration.ts:41-43 | an `APIError`'s own message, 'Failed to generate post' for anything else |
| PostGeneration.Settle | src/hooks/usePostGeneration.ts:33-55 | settling keeps the id and brief; success sets `generated` and the content; failure sets `error` and the message and leaves the content as it was |
| PostGeneration.Snapshot | src/hooks/usePostGeneration.ts:24-57 | a published list has exactly one record per brief |
| PostGeneration.SnapshotShape | src/hooks/usePostGeneration.ts:17-57 | every published list has one record per brief in brief order, with the brief's id and text; the records whose calls have settled are `generated` or `error`, and the rest are the pending record (content '', no error) |
| PostGeneration.SnapshotStep | src/hooks/usePostGeneration.ts:33-55 | applying call k's outcome changes record k only |
| PostGeneration.BatchEvents | src/hooks/usePostGeneration.ts:24-57 | after k calls the batch has published and requested 2k+1 events in all |
| PostGeneration.BatchEventsLayout | src/hooks/usePostGeneration.ts:24-57 | a batch publishes the all-pending list first, then alternates call j and the list after call j settles, 2n+1 events in all |
| PostGeneration.StrictSequencing | src/hooks/usePostGeneration.ts:26-57 | call j carries brief j's content and the key and prompt captured at the start; it is issued right after a list where records before j have settled and records from j on are pending; the next list differs only at record j |
| PostGeneration.FinalRecord | src/hooks/usePostGeneration.ts:26-57 | at the end record i is `generated` exactly when reply i was ok with non-empty content, and then holds it; otherwise it is `error` with content '' and a non-empty message: 'No content generated', the relay's error or its default, or 'Failed to generate post' for a transport failure |
| PostGeneration.ErrorIsolation | src/hooks/usePostGeneration.ts:26-57 | record i depends on reply i alone, so one failure never affects another record |
| PostGeneration.MixedBatchExample | src/hooks/usePostGeneration.ts:26-57 | a success followed by a transport failure leaves the first record generated and the second failed, side by side in input order |
| PostGeneration.PostGenerationHook.constructor | src/hooks/usePostGeneration.ts:7-8 | the hook starts with no posts and no error |
| PostGeneration.PostGenerationHook.SetError | src/hooks/usePostGeneration.ts:8 | sets the banner and nothing else |
| PostGeneration.PostGenerationHook.GeneratePosts | src/hooks/usePostGeneration.ts:11-58 | with an empty key: the settings message is set, and the posts and the log are untouched, so no call is made; otherwise: the error is cleared, the final list is the settled snapshot, and the log grows by exactly the batch's events |
| SettingsContext.LocalStorage.GetItem | src/contexts/SettingsContext.tsx:23-24 | a stored entry, or nothing for a missing key |
| SettingsContext.LocalStorage.SetItem | src/contexts/SettingsContext.tsx:32 | writes one entry and leaves the others |
| SettingsContext.FreshLoad | src/contexts/SettingsContext.tsx:19-28 | after the mount-time load each field is its stored entry when that entry is non-empty, and '' or the default prompt otherwise |
| SettingsContext.LoadIdempotent | src/contexts/SettingsContext.tsx:22-28 | loading again from the same storage changes nothing |
| SettingsContext.ApiKeyRoundTrip | src/contexts/SettingsContext.tsx:26-32 | after `updateApiKey(k)` a reload restores k when it is non-empty and '' otherwise; the stored prompt is unaffected |
| SettingsContext.SystemPromptRoundTrip | src/contexts/SettingsContext.tsx:27-37 | after `updateSystemPrompt(p)` a reload restores p when it is non-empty and the default otherwise; the stored key is unaffected |
| SettingsContext.UseSettings | src/contexts/SettingsContext.tsx:49-55 | outside a provider it fails with 'useSettings must be used within a SettingsProvider'; inside one it yields the provider's value |
| SettingsContext.SettingsProvider.constructor | src/contexts/SettingsContext.tsx:19-20 | the first state is an empty key and the default prompt |
| SettingsContext.SettingsProvider.Load | src/contexts/SettingsContext.tsx:22-28 | the state becomes the loaded settings of the current storage |
| SettingsContext.SettingsProvider.UpdateApiKey | src/contexts/SettingsContext.tsx:30-33 | the key in state and storage becomes the new key; the prompt and other entries are unchanged |
| SettingsContext.SettingsProvider.UpdateSystemPrompt | src/contexts/SettingsContext.tsx:35-38 | the prompt in state and storage becomes the new prompt; the key and other entries are unchanged |
| SettingsContext.ReloadAfterPromptUpdate | src/contexts/SettingsContext.tsx:22-38 | update on one provider, then mount a fresh one on the same storage: it shows the new prompt, or the default when the new prompt was '' |
| SingleTopicInput.Submit | src/components/SingleTopicInput.tsx:17-30 | a blank topic is rejected with 'Please enter or paste a topic.' and emits nothing; any other topic emits exactly one brief holding the trimmed topic, with an id starting 'brief-single-' |
| SingleTopicInput.SubmitIgnoresPadding | src/components/SingleTopicInput.tsx:20-29 | whitespace around a topic does not change the brief it becomes |
| SingleTopicInput.DistinctInstantsDistinctIds | src/components/SingleTopicInput.tsx:27 | submissions at different instants get different ids |
| SingleTopicInput.TopicForm.constructor | src/components/SingleTopicInput.tsx:15 | the field starts empty |
| SingleTopicInput.TopicForm.SetTopic | src/components/SingleTopicInput.tsx:50 | the field takes the typed value |
| SingleTopicInput.TopicForm.HandleSubmit | src/components/SingleTopicInput.tsx:17-34 | the submission is that of the current topic; the field is cleared only after an emit and kept after a rejection |
| PostPreview.ContentLength | src/components/PostPreview.tsx:16 | the counter's length is between the number of characters and twice it |
| PostPreview.IsOverLimit | src/components/PostPreview.tsx:20 | definition; no ensures: over the limit means more than 3000 |
| PostPreview.IsNearLimit | src/components/PostPreview.tsx:21-22 | the comparison with 90% of the limit over the reals holds exactly for the integer lengths 2701..3000 |
| PostPreview.LimitBands | src/components/PostPreview.tsx:7-22 | over the limit exactly from 3001 characters; near the limit exactly for 2701..3000; never both |
| PostPreview.CounterTone | src/components/PostPreview.tsx:68-76 | the counter is red above 3000, yellow for 2701..3000 and gray up to 2700 |
| PostPreview.Render | src/components/PostPreview.tsx:32-97 | `error` shows the error box with the record's message; `pending` shows the placeholder; only `generated` shows the brief, the content and the counter, with the content's UTF-16 length, the limit 3000 and the colour of that length |
| PostPreview.SurrogatePairsCountTwice | src/components/PostPreview.tsx:16-22 | 1400 rockets (U+1F680) and 300 letters are 1700 characters but 3100 code units, so the counter shows 3100 in red |

## Left out

- The decoders (PapaParse, XLSX, mammoth, pdf.js), `FileReader` and `file.text()` are not modelled. Their output (rows, page items, raw text) or their error is an input.
- The numeric payload of a number cell is dropped: any number in the first cell drops the row, whatever its value.
- The OpenAI client and `fetch` are not modelled. Their possible outcomes are inputs: a list of choices or a thrown value, and a reply with `ok` and a payload or a transport failure.
- A reply body that is not JSON is not modelled separately. `response.json()` rejecting is folded into the transport failure, which is what it is to the pipeline.
- The relay handles only JSON bodies whose fields are strings, `null` or absent. A `null` field acts like an absent one, because `?.` short-circuits on it, and both are `None` in the model. A JSON value that is not an object, such as a number, a string or an array, has none of the three fields, so it is the all-`None` body. A `null` body, or a field that is neither a string nor `null` (a number, say), makes the source throw a `TypeError` outside its `try`, and that is not modelled.
- Async/await, promises and React state batching are not modelled. Each `setPosts` is an immediate assignment, and each `await` has finished before the next statement.
- Two overlapping batches are not modelled: their order is unspecified.
- A record updated by something other than the batch while it runs is not modelled either: the model's `setPosts` updater always sees the list the batch published last.
- The clipboard write and the console message in the preview are I/O and are not modelled.
- `Date.now()` is not modelled: it is the parameter `now`.
- The default system prompt (src/config/prompts.ts) is an opaque constructor parameter.
- FileParser.FileExtension: `toLowerCase` is modelled for ASCII letters only. No other character lower-cases to a letter of `csv`, `xlsx`, `txt`, `md`, `pdf` or `docx`, so the whitelist decision is the same.
- FileParser.ParseFile: the final branch ('Unsupported file format') cannot be reached once the whitelist passes. The model proves this.
- Strings.LowerChar, Strings.ToLower: only ASCII letters are lower-cased, while JavaScript's `toLowerCase` maps every Unicode upper-case character. The only non-ASCII characters that lower-case to an ASCII letter are U+0130 (to 'i' plus a combining dot) and U+212A, the Kelvin sign (to 'k'). Neither yields a letter of the six supported extensions, so no extension decision changes.
- PostPreview.Render: `content?.length ?? 0` is modelled as the UTF-16 length of `content`: a record's content is always a string in `src/types/index.ts`. The absent-content case is not modelled.
- The user interface files are not modelled: App, FileUpload, the settings panels, the layout and the configuration. The apiKey guard in App duplicates the pipeline's.
