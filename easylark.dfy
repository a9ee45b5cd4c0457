/**
 * The objects of the package: the `Client`, whose token fields change as
 * it fetches tokens, and the two services it owns, which reach the API
 * through it. Each method takes the clock reading and the abstract answers
 * of the network as inputs, returns the requests it sent, and is proved
 * to do what the matching function of module Dispatch says.
 */
module Easylark {
  import opened Wire
  import opened Errors
  import opened Dispatch
  import opened Messages
  import opened Sheets

  class Client {
    const AppID: string
    const AppSecret: string
    var tenantAccessToken: string
    var tokenExpireTime: int
    var Message: MessageService?
    var Sheet: SheetService?

    /** The credential the token fields hold. */
    function Held(): Credential
      reads this`tenantAccessToken, this`tokenExpireTime
    {
      Credential(tenantAccessToken, tokenExpireTime)
    }

    /** `NewClient`: the given identity, no token yet, and both services
        bound to this client. */
    constructor (appId: string, appSecret: string)
      ensures AppID == appId && AppSecret == appSecret
      ensures tenantAccessToken == "" && tokenExpireTime == 0
      ensures Message != null && fresh(Message) && Message.client == this
      ensures Sheet != null && fresh(Sheet) && Sheet.client == this
    {
      AppID := appId;
      AppSecret := appSecret;
      tenantAccessToken := "";
      tokenExpireTime := 0;
      new;
      Message := new MessageService(this);
      Sheet := new SheetService(this);
    }

    method GetTenantAccessToken(now: int, ex: TokenExchange) returns (r: Result<string, Error>, sent: seq<Request>)
      modifies this`tenantAccessToken, this`tokenExpireTime
      ensures Step(Held(), r, sent) == Acquire(AppID, AppSecret, old(Held()), now, ex)
    {
      if tenantAccessToken != "" && now < tokenExpireTime {
        return Ok(tenantAccessToken), [];
      }
      var req := TokenRequest(AppID, AppSecret);
      if ex.reply.Unbuildable? {
        return Err(Failed(CreateRequest, ex.reply.cause)), [];
      }
      sent := [req];
      if ex.reply.SendFailed? {
        return Err(Failed(Send, ex.reply.cause)), sent;
      }
      if ex.reply.ReadFailed? {
        return Err(Failed(ReadBody, ex.reply.cause)), sent;
      }
      if ex.reply.decoding.Malformed? {
        return Err(Failed(Unmarshal, ex.reply.decoding.cause)), sent;
      }
      var result := ex.reply.decoding.value;
      if result.code != 0 {
        return Err(TokenRejected(result.msg)), sent;
      }
      tenantAccessToken := result.token;
      tokenExpireTime := ex.answeredAt + result.expire;
      r := Ok(tenantAccessToken);
    }

    /** `DoRequest`; `sink` says whether a result was passed to decode into. */
    method DoRequest<T>(verb: string, path: string, body: Option<Json>, sink: bool,
                        now: int, ex: TokenExchange, reply: Reply<T>)
      returns (r: Result<Option<T>, Error>, sent: seq<Request>)
      modifies this`tenantAccessToken, this`tokenExpireTime
      ensures Step(Held(), r, sent) == Dispatch.DoRequestStep(AppID, AppSecret, old(Held()), now, ex, Call(verb, path, body), sink, reply)
      ensures sink && r.Ok? ==> r.value.Some?
    {
      var token;
      token, sent := GetTenantAccessToken(now, ex);
      if token.Err? {
        return Err(token.error), sent;
      }
      var url := BaseURL + path;
      var reqBody := NoBody;
      if body.Some? {
        reqBody := JsonBody(body.value);
      }
      if reply.Unbuildable? {
        return Err(Failed(CreateRequest, reply.cause)), sent;
      }
      var headers := [Header("Content-Type", JsonContentType)];
      headers := headers + [Header("Authorization", "Bearer " + token.value)];
      assert Request(verb, url, headers, reqBody) == ApiRequest(Call(verb, path, body), token.value);
      sent := sent + [Request(verb, url, headers, reqBody)];
      if reply.SendFailed? {
        return Err(Failed(Send, reply.cause)), sent;
      }
      if reply.ReadFailed? {
        return Err(Failed(ReadBody, reply.cause)), sent;
      }
      if sink {
        if reply.decoding.Malformed? {
          return Err(Failed(Unmarshal, reply.decoding.cause)), sent;
        }
        r := Ok(Some(reply.decoding.value));
      } else {
        r := Ok(None);
      }
    }

    /** `UploadFile`: the multipart writer's fate and the boundary it chose are `form`. */
    method UploadFile(path: string, fileBytes: seq<bv8>, fileName: string,
                      now: int, ex: TokenExchange, form: FormOutcome, reply: Reply<Envelope<string>>)
      returns (r: Result<string, Error>, sent: seq<Request>)
      modifies this`tenantAccessToken, this`tokenExpireTime
      ensures Step(Held(), r, sent)
              == Upload(AppID, AppSecret, old(Held()), now, ex, path, fileBytes, fileName, form, reply)
    {
      var token;
      token, sent := GetTenantAccessToken(now, ex);
      if token.Err? {
        return Err(token.error), sent;
      }
      var url := BaseURL + path;
      if form.FormFileFailed? {
        return Err(Failed(CreateFormFile, form.cause)), sent;
      }
      if form.WriteFailed? {
        return Err(Failed(WriteFileContent, form.cause)), sent;
      }
      if form.CloseFailed? {
        return Err(Failed(CloseWriter, form.cause)), sent;
      }
      if reply.Unbuildable? {
        return Err(Failed(CreateRequest, reply.cause)), sent;
      }
      var headers := [Header("Content-Type", MultipartContentType + form.boundary)];
      headers := headers + [Header("Authorization", "Bearer " + token.value)];
      assert Request("POST", url, headers, MultipartBody("file", fileName, fileBytes))
          == UploadRequest(path, fileBytes, fileName, form.boundary, token.value);
      sent := sent + [Request("POST", url, headers, MultipartBody("file", fileName, fileBytes))];
      if reply.SendFailed? {
        return Err(Failed(Send, reply.cause)), sent;
      }
      if reply.ReadFailed? {
        return Err(Failed(ReadBody, reply.cause)), sent;
      }
      if reply.decoding.Malformed? {
        return Err(Failed(Unmarshal, reply.decoding.cause)), sent;
      }
      var result := reply.decoding.value;
      if result.code != 0 {
        return Err(UploadRejected(result.msg)), sent;
      }
      r := Ok(result.data);
    }

    /** `DoRequest` with a result to decode into, followed by the code check
        every service makes. */
    method DoChecked<D>(call: Call, now: int, ex: TokenExchange, reply: Reply<Envelope<D>>)
      returns (r: Result<D, Error>, sent: seq<Request>)
      modifies this`tenantAccessToken, this`tokenExpireTime
      ensures Step(Held(), r, sent) == Serve(AppID, AppSecret, old(Held()), now, ex, call, reply)
    {
      var result;
      result, sent := DoRequest(call.verb, call.path, call.body, true, now, ex, reply);
      if result.Err? {
        return Err(result.error), sent;
      }
      var envelope := result.value.value;
      if envelope.code != 0 {
        return Err(Api(envelope.code, envelope.msg)), sent;
      }
      r := Ok(envelope.data);
    }
  }

  /** The messaging and group operations. */
  class MessageService {
    const client: Client

    constructor (client: Client)
      ensures this.client == client
    {
      this.client := client;
    }

    method SendMessage(chatId: string, content: MessageContent, now: int, ex: TokenExchange, reply: Reply<Envelope<Json>>)
      returns (err: Option<Error>, sent: seq<Request>)
      modifies client`tenantAccessToken, client`tokenExpireTime
      ensures var s := Serve(client.AppID, client.AppSecret, old(client.Held()), now, ex, SendMessageCall(chatId, content), reply);
              client.Held() == s.held && err == ErrorOf(s.outcome) && sent == s.sent
    {
      var body := Obj(map["receive_id" := Str(chatId), "msg_type" := Str(content.Type()), "content" := content.Content()]);
      var r;
      r, sent := client.DoChecked(Call("POST", SendMessagePath, Some(body)), now, ex, reply);
      err := ErrorOf(r);
    }

    method SendText(chatId: string, text: string, now: int, ex: TokenExchange, reply: Reply<Envelope<Json>>)
      returns (err: Option<Error>, sent: seq<Request>)
      modifies client`tenantAccessToken, client`tokenExpireTime
      ensures var s := Serve(client.AppID, client.AppSecret, old(client.Held()), now, ex, SendMessageCall(chatId, TextContent(text)), reply);
              client.Held() == s.held && err == ErrorOf(s.outcome) && sent == s.sent
    {
      err, sent := SendMessage(chatId, TextContent(text), now, ex, reply);
    }

    method SendCard(chatId: string, card: MessageCard, now: int, ex: TokenExchange, reply: Reply<Envelope<Json>>)
      returns (err: Option<Error>, sent: seq<Request>)
      modifies client`tenantAccessToken, client`tokenExpireTime
      ensures var s := Serve(client.AppID, client.AppSecret, old(client.Held()), now, ex, SendMessageCall(chatId, Card(card)), reply);
              client.Held() == s.held && err == ErrorOf(s.outcome) && sent == s.sent
    {
      err, sent := SendMessage(chatId, Card(card), now, ex, reply);
    }

    method SendPost(chatId: string, post: PostContent, now: int, ex: TokenExchange, reply: Reply<Envelope<Json>>)
      returns (err: Option<Error>, sent: seq<Request>)
      modifies client`tenantAccessToken, client`tokenExpireTime
      ensures var s := Serve(client.AppID, client.AppSecret, old(client.Held()), now, ex, SendMessageCall(chatId, Post(post)), reply);
              client.Held() == s.held && err == ErrorOf(s.outcome) && sent == s.sent
    {
      err, sent := SendMessage(chatId, Post(post), now, ex, reply);
    }

    method SendImage(chatId: string, imageKey: string, now: int, ex: TokenExchange, reply: Reply<Envelope<Json>>)
      returns (err: Option<Error>, sent: seq<Request>)
      modifies client`tenantAccessToken, client`tokenExpireTime
      ensures var s := Serve(client.AppID, client.AppSecret, old(client.Held()), now, ex, SendMessageCall(chatId, ImageContent(imageKey)), reply);
              client.Held() == s.held && err == ErrorOf(s.outcome) && sent == s.sent
    {
      err, sent := SendMessage(chatId, ImageContent(imageKey), now, ex, reply);
    }

    method SendFile(chatId: string, fileKey: string, now: int, ex: TokenExchange, reply: Reply<Envelope<Json>>)
      returns (err: Option<Error>, sent: seq<Request>)
      modifies client`tenantAccessToken, client`tokenExpireTime
      ensures var s := Serve(client.AppID, client.AppSecret, old(client.Held()), now, ex, SendMessageCall(chatId, FileContent(fileKey)), reply);
              client.Held() == s.held && err == ErrorOf(s.outcome) && sent == s.sent
    {
      err, sent := SendMessage(chatId, FileContent(fileKey), now, ex, reply);
    }

    method GetMessage(messageId: string, now: int, ex: TokenExchange, reply: Reply<Envelope<map<string, Json>>>)
      returns (r: Result<map<string, Json>, Error>, sent: seq<Request>)
      modifies client`tenantAccessToken, client`tokenExpireTime
      ensures Step(client.Held(), r, sent)
              == Serve(client.AppID, client.AppSecret, old(client.Held()), now, ex, GetMessageCall(messageId), reply)
    {
      r, sent := client.DoChecked(Call("GET", "/im/v1/messages/" + messageId, None), now, ex, reply);
    }

    method UploadImage(imageBytes: seq<bv8>, imageName: string,
                       now: int, ex: TokenExchange, form: FormOutcome, reply: Reply<Envelope<string>>)
      returns (r: Result<string, Error>, sent: seq<Request>)
      modifies client`tenantAccessToken, client`tokenExpireTime
      ensures Step(client.Held(), r, sent)
              == Upload(client.AppID, client.AppSecret, old(client.Held()), now, ex, ImagesPath, imageBytes, imageName, form, reply)
    {
      r, sent := client.UploadFile(ImagesPath, imageBytes, imageName, now, ex, form, reply);
    }

    /** The envelope's data is the new chat's `chat_id`. */
    method CreateGroup(req: Option<CreateGroupRequest>, now: int, ex: TokenExchange, reply: Reply<Envelope<string>>)
      returns (r: Result<string, Error>, sent: seq<Request>)
      modifies client`tenantAccessToken, client`tokenExpireTime
      ensures Step(client.Held(), r, sent)
              == Serve(client.AppID, client.AppSecret, old(client.Held()), now, ex, CreateGroupCall(req), reply)
    {
      var body := if req.Some? then GroupRequestJson(req.value) else Null;
      r, sent := client.DoChecked(Call("POST", ChatsPath, Some(body)), now, ex, reply);
    }

    method GetGroupInfo(chatId: string, now: int, ex: TokenExchange, reply: Reply<Envelope<map<string, Json>>>)
      returns (r: Result<map<string, Json>, Error>, sent: seq<Request>)
      modifies client`tenantAccessToken, client`tokenExpireTime
      ensures Step(client.Held(), r, sent)
              == Serve(client.AppID, client.AppSecret, old(client.Held()), now, ex, GetGroupInfoCall(chatId), reply)
    {
      r, sent := client.DoChecked(Call("GET", ChatsPath + "/" + chatId, None), now, ex, reply);
    }

    method AddGroupMember(chatId: string, userIds: seq<string>, now: int, ex: TokenExchange, reply: Reply<Envelope<Json>>)
      returns (err: Option<Error>, sent: seq<Request>)
      modifies client`tenantAccessToken, client`tokenExpireTime
      ensures var s := Serve(client.AppID, client.AppSecret, old(client.Held()), now, ex, AddGroupMemberCall(chatId, userIds), reply);
              client.Held() == s.held && err == ErrorOf(s.outcome) && sent == s.sent
    {
      var r;
      r, sent := client.DoChecked(Call("POST", MembersPath(chatId), Some(Obj(map["id_list" := Strings(userIds)]))), now, ex, reply);
      err := ErrorOf(r);
    }

    method RemoveGroupMember(chatId: string, userIds: seq<string>, now: int, ex: TokenExchange, reply: Reply<Envelope<Json>>)
      returns (err: Option<Error>, sent: seq<Request>)
      modifies client`tenantAccessToken, client`tokenExpireTime
      ensures var s := Serve(client.AppID, client.AppSecret, old(client.Held()), now, ex,
                             RemoveGroupMemberCall(chatId, IdListQuery(userIds)), reply);
              client.Held() == s.held && err == ErrorOf(s.outcome) && sent == s.sent
    {
      var path := MembersPath(chatId);
      var queryParams := BuildIdListQuery(userIds);
      path := path + queryParams;
      var r;
      r, sent := client.DoChecked(Call("DELETE", path, None), now, ex, reply);
      err := ErrorOf(r);
    }

    method UploadFile(fileBytes: seq<bv8>, fileName: string,
                      now: int, ex: TokenExchange, form: FormOutcome, reply: Reply<Envelope<string>>)
      returns (r: Result<string, Error>, sent: seq<Request>)
      modifies client`tenantAccessToken, client`tokenExpireTime
      ensures Step(client.Held(), r, sent)
              == Upload(client.AppID, client.AppSecret, old(client.Held()), now, ex, FilesPath, fileBytes, fileName, form, reply)
    {
      r, sent := client.UploadFile(FilesPath, fileBytes, fileName, now, ex, form, reply);
    }
  }

  /** The spreadsheet operations. */
  class SheetService {
    const client: Client

    constructor (client: Client)
      ensures this.client == client
    {
      this.client := client;
    }

    /** `Get`; the metadata is absent when the envelope's data is null. */
    method Get(sheetToken: string, now: int, ex: TokenExchange, reply: Reply<Envelope<Option<SheetMeta>>>)
      returns (r: Result<Option<SheetMeta>, Error>, sent: seq<Request>)
      modifies client`tenantAccessToken, client`tokenExpireTime
      ensures Step(client.Held(), r, sent)
              == Serve(client.AppID, client.AppSecret, old(client.Held()), now, ex, GetCall(sheetToken), reply)
    {
      r, sent := client.DoChecked(Call("GET", MetainfoPath(sheetToken), None), now, ex, reply);
    }

    /** `ReadRange`; the envelope's data is the `values` grid. */
    method ReadRange(sheetToken: string, range: string, now: int, ex: TokenExchange, reply: Reply<Envelope<seq<seq<Json>>>>)
      returns (r: Result<seq<seq<Json>>, Error>, sent: seq<Request>)
      modifies client`tenantAccessToken, client`tokenExpireTime
      ensures Step(client.Held(), r, sent)
              == Serve(client.AppID, client.AppSecret, old(client.Held()), now, ex, ReadRangeCall(sheetToken, range), reply)
    {
      r, sent := client.DoChecked(Call("GET", ValuesPath(sheetToken, range), None), now, ex, reply);
    }

    method WriteRange(sheetToken: string, range: string, values: seq<seq<Json>>,
                      now: int, ex: TokenExchange, reply: Reply<Envelope<Json>>)
      returns (err: Option<Error>, sent: seq<Request>)
      modifies client`tenantAccessToken, client`tokenExpireTime
      ensures var s := Serve(client.AppID, client.AppSecret, old(client.Held()), now, ex, WriteRangeCall(sheetToken, range, values), reply);
              client.Held() == s.held && err == ErrorOf(s.outcome) && sent == s.sent
    {
      var r;
      r, sent := client.DoChecked(Call("PUT", ValuesPath(sheetToken, range), Some(ValuesBody(values))), now, ex, reply);
      err := ErrorOf(r);
    }

    method AppendRange(sheetToken: string, range: string, values: seq<seq<Json>>,
                       now: int, ex: TokenExchange, reply: Reply<Envelope<Json>>)
      returns (err: Option<Error>, sent: seq<Request>)
      modifies client`tenantAccessToken, client`tokenExpireTime
      ensures var s := Serve(client.AppID, client.AppSecret, old(client.Held()), now, ex, AppendRangeCall(sheetToken, range, values), reply);
              client.Held() == s.held && err == ErrorOf(s.outcome) && sent == s.sent
    {
      var r;
      r, sent := client.DoChecked(Call("POST", AppendPath(sheetToken, range), Some(ValuesBody(values))), now, ex, reply);
      err := ErrorOf(r);
    }

    method ClearRange(sheetToken: string, range: string, now: int, ex: TokenExchange, reply: Reply<Envelope<Json>>)
      returns (err: Option<Error>, sent: seq<Request>)
      modifies client`tenantAccessToken, client`tokenExpireTime
      ensures var s := Serve(client.AppID, client.AppSecret, old(client.Held()), now, ex, ClearRangeCall(sheetToken, range), reply);
              client.Held() == s.held && err == ErrorOf(s.outcome) && sent == s.sent
    {
      var r;
      r, sent := client.DoChecked(Call("POST", ClearPath(sheetToken, range), None), now, ex, reply);
      err := ErrorOf(r);
    }

    /** `AddSheet`; the envelope's data is the `sheetId` of each reply. */
    method AddSheet(sheetToken: string, title: string, now: int, ex: TokenExchange, reply: Reply<Envelope<seq<string>>>)
      returns (r: Result<string, Error>, sent: seq<Request>)
      modifies client`tenantAccessToken, client`tokenExpireTime
      ensures var s := Serve(client.AppID, client.AppSecret, old(client.Held()), now, ex, BatchCall(sheetToken, BatchOp.AddSheet(title)), reply);
              && client.Held() == s.held && sent == s.sent
              && r == if s.outcome.Err? then Err(s.outcome.error) else FirstSheetId(s.outcome.value)
    {
      var replies;
      replies, sent := client.DoChecked(BatchCall(sheetToken, BatchOp.AddSheet(title)), now, ex, reply);
      if replies.Err? {
        return Err(replies.error), sent;
      }
      r := FirstSheetId(replies.value);
    }

    method DeleteSheet(sheetToken: string, sheetId: string, now: int, ex: TokenExchange, reply: Reply<Envelope<Json>>)
      returns (err: Option<Error>, sent: seq<Request>)
      modifies client`tenantAccessToken, client`tokenExpireTime
      ensures var s := Serve(client.AppID, client.AppSecret, old(client.Held()), now, ex, BatchCall(sheetToken, BatchOp.DeleteSheet(sheetId)), reply);
              client.Held() == s.held && err == ErrorOf(s.outcome) && sent == s.sent
    {
      var r;
      r, sent := client.DoChecked(BatchCall(sheetToken, BatchOp.DeleteSheet(sheetId)), now, ex, reply);
      err := ErrorOf(r);
    }

    /** `GetSheets`; the envelope's data is the `sheets` list. */
    method GetSheets(sheetToken: string, now: int, ex: TokenExchange, reply: Reply<Envelope<seq<SheetInfo>>>)
      returns (r: Result<seq<SheetInfo>, Error>, sent: seq<Request>)
      modifies client`tenantAccessToken, client`tokenExpireTime
      ensures Step(client.Held(), r, sent)
              == Serve(client.AppID, client.AppSecret, old(client.Held()), now, ex, GetSheetsCall(sheetToken), reply)
    {
      r, sent := client.DoChecked(Call("GET", SheetsQueryPath(sheetToken), None), now, ex, reply);
    }

    /** `SetCellStyle`; `style` is the encoded `*CellStyle`. */
    method SetCellStyle(sheetToken: string, sheetId: string, range: string, style: Json,
                        now: int, ex: TokenExchange, reply: Reply<Envelope<Json>>)
      returns (err: Option<Error>, sent: seq<Request>)
      modifies client`tenantAccessToken, client`tokenExpireTime
      ensures var s := Serve(client.AppID, client.AppSecret, old(client.Held()), now, ex,
                             BatchCall(sheetToken, BatchOp.UpdateCells(sheetId, range, style)), reply);
              client.Held() == s.held && err == ErrorOf(s.outcome) && sent == s.sent
    {
      var r;
      r, sent := client.DoChecked(BatchCall(sheetToken, BatchOp.UpdateCells(sheetId, range, style)), now, ex, reply);
      err := ErrorOf(r);
    }

    method MergeCells(sheetToken: string, sheetId: string, range: string,
                      now: int, ex: TokenExchange, reply: Reply<Envelope<Json>>)
      returns (err: Option<Error>, sent: seq<Request>)
      modifies client`tenantAccessToken, client`tokenExpireTime
      ensures var s := Serve(client.AppID, client.AppSecret, old(client.Held()), now, ex,
                             BatchCall(sheetToken, BatchOp.MergeCells(sheetId, range)), reply);
              client.Held() == s.held && err == ErrorOf(s.outcome) && sent == s.sent
    {
      var r;
      r, sent := client.DoChecked(BatchCall(sheetToken, BatchOp.MergeCells(sheetId, range)), now, ex, reply);
      err := ErrorOf(r);
    }

    /** `SetDimension`: the range is forwarded as given, without checking
        that it starts before it ends. */
    method SetDimension(sheetToken: string, sheetId: string, dimension: string,
                        startIndex: int, endIndex: int, pixelSize: int,
                        now: int, ex: TokenExchange, reply: Reply<Envelope<Json>>)
      returns (err: Option<Error>, sent: seq<Request>)
      modifies client`tenantAccessToken, client`tokenExpireTime
      ensures var s := Serve(client.AppID, client.AppSecret, old(client.Held()), now, ex,
                             BatchCall(sheetToken, BatchOp.UpdateDimension(sheetId, dimension, startIndex, endIndex, pixelSize)), reply);
              client.Held() == s.held && err == ErrorOf(s.outcome) && sent == s.sent
    {
      var r;
      r, sent := client.DoChecked(BatchCall(sheetToken, BatchOp.UpdateDimension(sheetId, dimension, startIndex, endIndex, pixelSize)),
                             now, ex, reply);
      err := ErrorOf(r);
    }
  }
}
