# easylark in Dafny

A verified model of the core of `easylark`, a small Go client for the
Feishu/Lark open platform. The client does three things:

- It keeps a cached tenant access token. The token is fetched on demand,
  reused until it expires, and replaced only when a fetch succeeds.
- It sends every API call through one authenticated JSON dispatcher
  (`DoRequest`), or through a multipart uploader (`UploadFile`).
- Its messaging and spreadsheet services build payloads and paths. Each
  service then turns a non-zero envelope code into an `*Error{Code, Message}`.

The network, the JSON codec and the clock are inputs of the model:

- A round trip is a `Reply<T>`: the request could not be built, sending
  failed, reading failed, or a body was received. A received body either
  failed to decode or decoded to a value of type `T`.
- A token fetch is a `TokenExchange`: the reply plus the clock reading taken
  after decoding. The source reads `time.Now()` once to test the cache and
  again to compute the new expiry.
- The clock is whole seconds (`int`).
- Nothing is sent. Each operation returns the `Request` descriptors it would
  have put on the wire.

Modules, one per concern:

| file | module | what it holds |
|---|---|---|
| wire.dfy | `Wire` | `Option`, `Result`, the JSON value, requests, replies, the `{code, msg, data}` envelope |
| errors.dfy | `Errors` | the package's errors and their `Error()` text, including `%d` rendering and its inverse |
| dispatch.dfy | `Dispatch` | client.go as functions: `Acquire` (token cache), `DoRequestStep` (`DoRequest`), `Upload` (`UploadFile`), `Checked`/`Serve` (the services' code check), with their lemmas |
| messages.dfy | `Messages` | message.go: the content variants, the `MessageCard` and `PostContent` builders (classes), message and group requests, and the query loop of `RemoveGroupMember` |
| sheets.dfy | `Sheets` | sheet.go: path templates, values and batch-update bodies with parsers that read them back, and the `AddSheet` reply rule |
| easylark.dfy | `Easylark` | the objects: `Client` (token fields updated in place), `MessageService`, `SheetService`, each method proved equal to its function in `Dispatch` |

`Client` and the two services refer to each other, so they share one module.

Three things the code does that a reader might not expect:

- Token fetch failures and upload rejections are plain `fmt.Errorf` errors
  (`TokenRejected`, `UploadRejected`). They are not `*Error` values.
- The new expiry is counted from the clock reading taken after the reply is
  decoded, not from when the request was sent.
- Nothing guards the token fields against concurrent callers.

## Model

| member | source | states |
|---|---|---|
| Wire.Strings | message.go:302-309 | a `[]string` body is an array with one string per id, in order |
| Errors.Text | client.go:74-104 | the text of every modelled error (client.go:74-104, 183, 204-255 and sheet.go:172); exactly the `*Error` values start with `easylark API error: code=` |
| Errors.TextEndsWithMessage | client.go:182-184 | every error that reports a server or transport message prints it verbatim at the end of its text |
| Errors.Digits | client.go:182-184 | the `%d` digits are non-empty, all digits, without a leading zero |
| Errors.Decimal | client.go:182-184 | `%d` writes a minus sign exactly for negative codes, then digits only |
| Errors.DigitsRoundTrip | client.go:182-184 | reading the digits back gives the number |
| Errors.DecimalRoundTrip | client.go:182-184 | reading a `%d` rendering back gives the code, negative codes included |
| Errors.DecimalHasNoComma | client.go:182-184 | a rendered code never contains the comma that follows it in the text |
| Errors.ApiTextInjective | client.go:182-184 | two `*Error` texts are equal only when code and message are equal: the text loses nothing |
| Errors.InvalidSecretText | client_test.go:351-357 | `Error{10002, "invalid app_secret"}` prints `easylark API error: code=10002, message=invalid app_secret` |
| Dispatch.TokenRequest | client.go:61-77 | a POST to the token URL whose JSON body holds exactly `app_id` and `app_secret`, carrying the client identity |
| Dispatch.TokenRequestHeaders | client.go:72-77 | the token request is sent as JSON and carries no `Authorization` header |
| Dispatch.ApiRequest | client.go:122-143 | the call's verb at `BaseURL + path`, with exactly the JSON content type and `Bearer <token>` headers, and a JSON body exactly when the call has one |
| Dispatch.UploadRequest | client.go:195-225 | a POST to `BaseURL + path` with exactly the multipart content type (with the writer's boundary) and `Bearer <token>` headers, and one `file` part holding the name and bytes |
| Dispatch.Acquire | client.go:54-112 | the token returned is the one held afterwards; only a successful exchange changes the credential; at most one request is sent, the token request, and it is sent exactly on a miss whose request could be built |
| Dispatch.DoRequestStep | client.go:115-166 | the credential afterwards is the one acquisition left; besides acquisition's requests at most one more is sent, the API request carrying the acquired token; a success holds a decoded value exactly when a sink was given |
| Dispatch.Upload | client.go:187-259 | the credential afterwards is the one acquisition left; at most one request is sent besides acquisition's, the multipart request with the writer's boundary and the acquired token; a success needs a token and a written form |
| Dispatch.Serve | message.go:109-119 | every service call: the credential is the one acquisition left, and a success only comes from a decoded reply with code 0 and returns its data |
| Dispatch.Checked | message.go:112-119 | after a dispatch with a sink: success exactly when the code is 0, the payload is the data; a non-zero code gives `Api(code, msg)`; dispatch errors pass through |
| Dispatch.ErrorOf | sheet.go:82-91 | an error-only service returns an error exactly when its call failed, and that error |
| Dispatch.CacheHit | client.go:56-58 | a non-empty token before its expiry is returned; nothing is sent; both fields stay |
| Dispatch.MissExchangesOnce | client.go:60-84 | any other call sends exactly the one token request, unless the request cannot be built |
| Dispatch.EmptyTokenExchanges | client.go:56 | an empty token goes to the endpoint whatever the stored expiry |
| Dispatch.FailureKeepsCredential | client.go:66-105 | a failed fetch keeps both fields and reports the failing stage; a non-zero code reports the envelope's `msg` at the end of the text |
| Dispatch.SuccessInstalls | client.go:102-111 | a fetch succeeds exactly when the code is 0; then the token and `answeredAt + expire` replace the credential and the token is returned |
| Dispatch.NonPositiveLifetimeExpires | client.go:107-111 | after a successful exchange of a token with `expire <= 0`, the next call at any later time fetches again |
| Dispatch.AcquireEach | client.go:54-112 | a series of calls gives one result per call |
| Dispatch.ReusedUntilExpiry | client.go:56-58 | every call before the expiry reuses the held token, sends nothing and keeps the credential |
| Dispatch.AcquireEachConcat | client.go:54-112 | two series of calls run one after the other equal their concatenation: the second starts from the credential the first left, results and requests follow in order |
| Dispatch.CacheLifecycle | client.go:54-112 | a token with lifetime L fetched at T serves every call before T+L without the network; the first call at or after T+L fetches exactly once |
| Dispatch.TokenFailureStopsDispatch | client.go:117-120 | when no token can be had, `DoRequest` returns that error unchanged and sends nothing of its own |
| Dispatch.DispatchShape | client.go:122-143 | the request sent is `BaseURL + path` verbatim with the JSON content type and `Bearer <token>`, and has a body exactly when one was given; the token request carries no Authorization |
| Dispatch.DispatchKeepsAcquiredCredential | client.go:115-166 | `DoRequest` changes the credential only through the token fetch |
| Dispatch.DispatchDecodesOnlyIntoSink | client.go:158-165 | once a body is in: without a sink the call succeeds undecoded; with one it returns what decoded, whatever the code, or the unmarshal error |
| Dispatch.DispatchStageErrors | client.go:137-161 | with a token held, a request that cannot be built, a send failure and a read failure are errors naming `create request`, `send request` and `read response body`, with or without a result; with a result an undecodable body is the `unmarshal` error; the call succeeds exactly when a body came back and, with a result, decoded |
| Dispatch.SinkFilledOnSuccess | client.go:158-165 | a successful dispatch with a sink always carries the decoded value |
| Dispatch.UploadKeyIffCodeZero | client.go:187-259 | `UploadFile` returns `data.file_key` exactly when every stage passes and the code is 0; a non-zero code fails with its `msg` |
| Dispatch.UploadStageErrors | client.go:203-250 | with a token held, the form-writer failures are the `create form file`, `write file content` and `close multipart writer` errors, and after a written form the build, send, read and decode failures are the `create request`, `send request`, `read response body` and `unmarshal` errors |
| Dispatch.UploadShape | client.go:193-232 | the upload is a POST of one `file` part to `BaseURL + path` with the multipart content type and the bearer token |
| Dispatch.ServeChecksCode | message.go:100-120 | every service call: payload exactly when token, transport and decoding succeed with code 0; `Api(code, msg)` for a non-zero code; earlier errors unchanged |
| Easylark.Client.constructor | client.go:37-51 | `NewClient` stores the identity, holds no token, and binds fresh message and sheet services to the client |
| Easylark.Client.GetTenantAccessToken | client.go:54-112 | the method's result, requests and new token fields are those of `Acquire` |
| Easylark.Client.DoRequest | client.go:115-166 | the method's result, requests and new token fields are those of `DoRequestStep`; with a sink a success carries a value |
| Easylark.Client.UploadFile | client.go:187-259 | the method's result, requests and new token fields are those of `Upload` |
| Easylark.Client.DoChecked | message.go:111-119 | `DoRequest` with a result, then the code check: equal to `Serve` |
| Easylark.MessageService.constructor | message.go:13-15 | the message service refers to the client it was made for |
| Easylark.MessageService.SendMessage | message.go:100-120 | POSTs the content's tag and document for the chat under the uniform code check |
| Easylark.MessageService.SendText | message.go:123-126 | `SendMessage` of a text content |
| Easylark.MessageService.SendCard | message.go:129-131 | `SendMessage` of the card |
| Easylark.MessageService.SendPost | message.go:215-217 | `SendMessage` of the rich text |
| Easylark.MessageService.SendImage | message.go:237-240 | `SendMessage` of an image content |
| Easylark.MessageService.SendFile | message.go:367-370 | `SendMessage` of a file content |
| Easylark.MessageService.GetMessage | message.go:134-153 | GETs the message and returns its data under the code check |
| Easylark.MessageService.UploadImage | message.go:243-246 | `UploadFile` to `/im/v1/images` |
| Easylark.MessageService.CreateGroup | message.go:256-277 | POSTs the request (or `null`) to `/im/v1/chats` and returns the `chat_id` under the code check |
| Easylark.MessageService.GetGroupInfo | message.go:280-299 | GETs the chat and returns its data under the code check |
| Easylark.MessageService.AddGroupMember | message.go:302-320 | POSTs `{"id_list": ids}` to the chat's members under the code check |
| Easylark.MessageService.RemoveGroupMember | message.go:323-347 | DELETEs the chat's members with the `id_list` query and no body, under the code check |
| Easylark.MessageService.UploadFile | message.go:373-376 | `UploadFile` to `/im/v1/files` |
| Easylark.SheetService.constructor | sheet.go:13-15 | the sheet service refers to the client it was made for |
| Easylark.SheetService.Get | sheet.go:25-44 | GETs `metainfo` and returns the (possibly absent) metadata under the code check |
| Easylark.SheetService.ReadRange | sheet.go:52-71 | GETs the range's values and returns the grid under the code check |
| Easylark.SheetService.WriteRange | sheet.go:74-92 | PUTs `{"values": grid}` to the range under the code check |
| Easylark.SheetService.AppendRange | sheet.go:95-113 | POSTs `{"values": grid}` to `range:append` under the code check |
| Easylark.SheetService.ClearRange | sheet.go:116-130 | POSTs no body to `range:clear` under the code check |
| Easylark.SheetService.AddSheet | sheet.go:133-176 | POSTs one `addSheet` request; a dispatch or code error passes through, otherwise the first reply's non-empty sheet id or "failed to get sheet ID" |
| Easylark.SheetService.DeleteSheet | sheet.go:179-203 | POSTs one `deleteSheet` request under the code check |
| Easylark.SheetService.GetSheets | sheet.go:214-235 | GETs `sheets/query` and returns the sheet list under the code check |
| Easylark.SheetService.SetCellStyle | sheet.go:260-288 | POSTs one `updateCells` request carrying the style under the code check |
| Easylark.SheetService.MergeCells | sheet.go:291-318 | POSTs one `mergeCells` request under the code check |
| Easylark.SheetService.SetDimension | sheet.go:329-362 | POSTs one `updateDimensionProperties` request, whatever the order of start and end, under the code check |
| Messages.MessageCard.constructor | message.go:57-61 | a new card has no title, no elements, and only plain-text elements |
| Messages.MessageCard.SetTitle | message.go:64-67 | changes the title only, keeps the card's elements plain text, and returns the same card |
| Messages.MessageCard.AddText | message.go:70-76 | appends exactly one `plain_text` element at the end, keeps the earlier ones and the title, returns the same card |
| Messages.MessageCard.Content | message.go:84-97 | the card document has the single key `elements`, holding one `div` |
| Messages.CardContentLists | message.go:84-97 | the card document is `{"elements": [div]}` with the div's keys `tag`, `text`, `fields`; the title is a `{tag: plain_text, content: title}` object, and the fields are the added texts, in order |
| Messages.PostContent.constructor | message.go:192-194 | a new rich text has neither language |
| Messages.PostContent.WithZhCn | message.go:197-203 | sets the Chinese body and leaves the English one |
| Messages.PostContent.WithEnUs | message.go:206-212 | sets the English body and leaves the Chinese one |
| Messages.PostContent.Content | message.go:182-189 | the rich-text document is `{"post": {"zh_cn", "en_us"}}`; a language is JSON null exactly when it was never set, and otherwise its encoded body |
| Messages.PostBodyJson | message.go:162-165 | a language body is encoded as its title and its lines, line by line, in order |
| Messages.ElementJson | message.go:168-174 | each optional element field appears exactly when non-empty and carries its value; the tag always appears |
| Messages.LineJson | message.go:162-165 | a line is encoded element by element, in order |
| Messages.MessageContent.Type | message.go:20-25 | each content's `msg_type` is one of `text`, `interact`, `post`, `image`, `file` (message.go:39-41, 79-81, 177-179, 225-227, 355-357) |
| Messages.KindTags | message.go:39-41 | text is sent as `text`, a card as `interact`, rich text as `post`, an image as `image` and a file as `file` (message.go:39-41, 79-81, 177-179, 225-227, 355-357) |
| Messages.MessageContent.Content | message.go:44-48 | every content document is an object with exactly one top-level key (message.go:44-48, 84-97, 182-189, 230-234, 360-364) |
| Messages.TypeIdentifiesKind | message.go:20-25 | the five kinds of content have five distinct tags: the tag tells the kind |
| Messages.SimpleContentKeys | message.go:44-48 | text, image and file contents are one-key documents carrying their value |
| Messages.SendMessageShape | message.go:101-110 | `SendMessage` POSTs exactly `receive_id`, `msg_type = Type()` and `content = Content()` to the messages path |
| Messages.GroupRequestJson | message.go:249-253 | the group request always names the chat; description and user ids appear exactly when non-empty, and then carry the given description and ids; no other key appears |
| Messages.NilGroupRequestSendsNull | message.go:256-266 | a nil request still sends a body, the JSON `null` |
| Messages.MembershipCalls | message.go:302-334 | adding and removing members address the same path; removal puts the ids in the query and sends no body |
| Messages.IdListParams | message.go:327-333 | one `id_list=<id>` parameter per id, in order |
| Messages.IdListQuery | message.go:327-334 | the removal query always starts with `?`, and is the bare `?` exactly when no ids are given |
| Messages.BuildIdListQuery | message.go:326-334 | the loop yields `?` followed by the parameters joined with `&` |
| Messages.EmptyIdListQuery | message.go:326-334 | an empty id list yields a bare `?` |
| Messages.SplitLast | message.go:326-334 | appending one more `&`-free id to a query adds exactly that id to what the query splits into |
| Messages.SplitJoin | message.go:326-334 | cutting a join at its `&`s gives the parts back when no part holds `&` |
| Messages.IdListQueryRoundTrip | message.go:326-334 | the ids can be read back from the query when none holds `&` |
| Messages.IdListQueryInjective | message.go:326-334 | distinct id lists without `&` give distinct queries |
| Messages.UnescapedIdsCollide | message.go:326-334 | ids are not escaped: `["a&id_list=b"]` and `["a", "b"]` give the same query |
| Sheets.MetainfoPath | sheet.go:26 | the metadata path lies under the spreadsheet's own prefix and ends in `/metainfo` |
| Sheets.ValuesPath | sheet.go:53 | the range path (read and write, sheet.go:53 and 75) lies under the spreadsheet's own prefix and ends in `/values/` followed by the range |
| Sheets.AppendPath | sheet.go:96 | the append path is the range path followed by the 7 characters `:append` |
| Sheets.ClearPath | sheet.go:117 | the clear path is the range path followed by the 6 characters `:clear` |
| Sheets.BatchUpdatePath | sheet.go:134 | the batch-update path (sheet.go:134, 180, 261, 292, 330) lies under the spreadsheet's own prefix and ends in `/sheets_batch_update` |
| Sheets.SheetsQueryPath | sheet.go:215 | the sheet-list path lies under the spreadsheet's own prefix and ends in `/sheets/query` |
| Sheets.Grid | sheet.go:77-79 | the values are encoded row by row, in order |
| Sheets.ValuesRoundTrip | sheet.go:77-79 | the grid read back from a values body is the caller's, unchanged |
| Sheets.RangePaths | sheet.go:53-117 | read and write both go to the range path `…/values/<range>`; append and clear add `:append` and `:clear` to it; every path lies under the spreadsheet's own prefix |
| Sheets.WriteRangeTestPath | sheet_test.go:272 | writing `Sheet1!A1:B2` of spreadsheet `sheet123` goes to exactly the path the test server answers |
| Sheets.RangeVerbsAndBodies | sheet.go:34-120 | get, read, clear and list send no body; write PUTs and append POSTs the same unchanged values body |
| Sheets.OpJson | sheet.go:134-349 | each operation's body has exactly the keys the source writes: `properties`; `sheetId`; `range` and `style` (the caller's style); `range`; `range`, `properties` and `fields` |
| Sheets.BatchRequest | sheet.go:134-349 | one request object whose only key is the operation's name |
| Sheets.BatchCall | sheet.go:134-349 | a POST to the batch-update path whose body has the single key `requests`, holding exactly the one request |
| Sheets.BatchRequestRoundTrip | sheet.go:134-349 | a batch request object has the operation's name as its only key and reads back as the operation |
| Sheets.BatchCallRoundTrip | sheet.go:134-349 | every batch operation POSTs exactly one request to `sheets_batch_update`, keyed by its name, which reads back as the operation itself |
| Sheets.DimensionUpdatesPixelSizeOnly | sheet.go:342-345 | `SetDimension` asks for the pixel size field only |
| Sheets.FirstSheetId | sheet.go:171-175 | a sheet id exactly when the first reply carries a non-empty one; it is that id; otherwise "failed to get sheet ID" |

## Left out

- The HTTP transport is not modelled: `http.Client.Do`, `io.ReadAll` and the 10-second timeout are I/O. Their outcome is the `Reply` input. A timeout is a `SendFailed`, or a `ReadFailed` when it fires while the body is being read.
- The HTTP status of a response is not modelled; the source never inspects it either.
- The JSON codec is not modelled. Decoding is the `Decoding` input. Encoding is the `Json` value itself, so marshalling cannot fail in the model.
- `DoRequest`'s "marshal request body failed" error (client.go:128-131) is not modelled. In the source it fires when a body holds a value `encoding/json` rejects, such as NaN or an infinity in a cell grid, in `PostElement.Attrs` or in a `CellStyle` colour, or a channel or func; the model's `Json` bodies cannot hold such values, so `Errors.Stage` has no case for it. The token body's marshal error (client.go:66-69) is left out too; a map of two strings always marshals.
- Nil pointers are not modelled. `SendMessage(chat, nil)` panics at `content.Type()` (message.go:105); `SendCard(chat, nil)` and `SendPost(chat, nil)` panic in `Content()` (message.go:91, 185); and `SetTitle`, `AddText`, `WithZhCn` and `WithEnUs` panic on a nil receiver (message.go:65, 71, 198, 207). The model's `MessageContent`, `MessageCard` and `PostContent` are never null, so these inputs cannot be written. `CreateGroup(nil)` does not panic and is modelled.
- Numbers in JSON are integers only. Floating-point cell values and the `Color` fields of `CellStyle` are not modelled. `SetCellStyle` takes its style already encoded as JSON.
- The model does not tell a nil slice or map from an empty one. A `MessageCard` built without its constructor would send `"fields": null`, and nil values would send `"values": null`. The model sends empty arrays.
- Multipart encoding is not modelled. The writer's outcome and its random boundary are the `FormOutcome` input, and the body is one opaque `file` part.
- `time.Now()` is not modelled. It is two integer clock readings, in whole seconds. The zero `time.Time` of a new client is 0. This is harmless because an empty token always triggers a fetch.
- Dispatch.SuccessInstalls: does not model the int64 nanosecond overflow of `time.Duration(expire) * time.Second` for lifetimes beyond about 292 years.
- `BaseURL` and `TenantAccessTokenURL` are mutable package variables in the source. The model uses constants.
- `AppID` and `AppSecret` are exported and mutable in the source. The model makes them constants, since the source never writes them after `NewClient`.
- Concurrency is not modelled. The source has no lock around the token fields.
- The `httpClient` field is not modelled. It belongs to the transport.
- The test files mostly build requests by hand. The model keeps only what they pin down about the library: the `Error` text, the fields set by `NewClient`, and the PUT of `WriteRange`.
