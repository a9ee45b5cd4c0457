/**
 * Message payloads and paths (message.go): the closed family of message
 * contents with their `Type()` tag and `Content()` document, the card and
 * rich-text builders that change their receiver, the request each
 * messaging and group operation sends, and the query string that
 * `RemoveGroupMember` assembles in a loop.
 */
module Messages {
  import opened Wire
  import opened Dispatch

  const MessageTypeText := "text"
  const MessageTypePost := "post"
  const MessageTypeImage := "image"
  const MessageTypeInteract := "interact"
  /** `FileContent.Type()` returns this literal; the package has no constant for it. */
  const MessageTypeFile := "file"

  /** The element `AddText` appends to a card. */
  function PlainText(text: string): Json
  {
    Obj(map["tag" := Str("plain_text"), "text" := Str(text)])
  }

  predicate IsPlainText(j: Json)
  {
    j.Obj? && j.fields.Keys == {"tag", "text"} && j.fields["tag"] == Str("plain_text") && j.fields["text"].Str?
  }

  /** A message card under construction; `SetTitle` and `AddText` change it
      in place and return the receiver for chaining. */
  class MessageCard {
    var title: string
    var elements: seq<Json>

    /** Every element of a card is a `plain_text` element. */
    ghost predicate Valid()
      reads this
    {
      forall i :: 0 <= i < |elements| ==> IsPlainText(elements[i])
    }

    /** `NewMessageCard`: no title, no elements. */
    constructor ()
      ensures Valid() && title == "" && elements == []
    {
      title := "";
      elements := [];
    }

    method SetTitle(title: string) returns (self: MessageCard)
      requires Valid()
      modifies this`title
      ensures Valid()
      ensures this.title == title && elements == old(elements) && self == this
    {
      this.title := title;
      self := this;
    }

    method AddText(text: string) returns (self: MessageCard)
      requires Valid()
      modifies this`elements
      ensures Valid()
      ensures elements == old(elements) + [PlainText(text)] && title == old(title) && self == this
    {
      elements := elements + [PlainText(text)];
      self := this;
    }

    /** The card document: the title as `plain_text` content and the
        elements, in the order they were added, as the fields of one `div`. */
    function Content(): (c: Json)
      reads this
      ensures c.Obj? && c.fields.Keys == {"elements"}
      ensures c.fields["elements"].Arr? && |c.fields["elements"].items| == 1
    {
      Obj(map["elements" := Arr([Obj(map[
        "tag" := Str("div"),
        "text" := Obj(map["tag" := Str("plain_text"), "content" := Str(title)]),
        "fields" := Arr(elements)])])])
    }
  }

  /** The card document names the title and lists exactly the texts added,
      in the order they were added. */
  lemma CardContentLists(card: MessageCard)
    requires card.Valid()
    ensures var doc := card.Content().fields["elements"].items;
            && |doc| == 1
            && card.Content().fields.Keys == {"elements"}
            && doc[0].fields.Keys == {"tag", "text", "fields"}
            && doc[0].fields["tag"] == Str("div")
            && doc[0].fields["text"].fields.Keys == {"tag", "content"}
            && doc[0].fields["text"].fields["tag"] == Str("plain_text")
            && doc[0].fields["text"].fields["content"] == Str(card.title)
            && doc[0].fields["fields"].items == card.elements
            && forall i :: 0 <= i < |card.elements| ==>
                 card.elements[i] == PlainText(card.elements[i].fields["text"].s)
  {
    forall i | 0 <= i < |card.elements|
      ensures card.elements[i] == PlainText(card.elements[i].fields["text"].s)
    {
      var e := card.elements[i];
      assert IsPlainText(e);
      assert e.fields == map["tag" := Str("plain_text"), "text" := Str(e.fields["text"].s)];
    }
  }

  /** One element of a rich-text line; the optional string fields and the
      attributes are left out of the document when empty (`omitempty`). */
  datatype PostElement = PostElement(tag: string, text: string, href: string, userId: string, attrs: map<string, Json>)

  /** The title and lines of one language of a rich-text message. */
  datatype PostBody = PostBody(title: string, content: seq<seq<PostElement>>)

  /** `m` with `k` set to `v` when `keep`, and `m` itself otherwise. */
  function PutUnlessEmpty(m: map<string, Json>, k: string, v: Json, keep: bool): (r: map<string, Json>)
    ensures r.Keys == if keep then m.Keys + {k} else m.Keys
    ensures forall k' :: k' in m && k' != k ==> r[k'] == m[k']
    ensures keep ==> r[k] == v
  {
    if keep then m[k := v] else m
  }

  function ElementJson(e: PostElement): (j: Json)
    ensures j.Obj? && j.fields.Keys <= {"tag", "text", "href", "user_id", "attrs"}
    ensures "tag" in j.fields && j.fields["tag"] == Str(e.tag)
    ensures ("text" in j.fields <==> e.text != "") && ("text" in j.fields ==> j.fields["text"] == Str(e.text))
    ensures ("href" in j.fields <==> e.href != "") && ("href" in j.fields ==> j.fields["href"] == Str(e.href))
    ensures ("user_id" in j.fields <==> e.userId != "") && ("user_id" in j.fields ==> j.fields["user_id"] == Str(e.userId))
    ensures ("attrs" in j.fields <==> |e.attrs| > 0) && ("attrs" in j.fields ==> j.fields["attrs"] == Obj(e.attrs))
  {
    var m0 := map["tag" := Str(e.tag)];
    var m1 := PutUnlessEmpty(m0, "text", Str(e.text), e.text != "");
    var m2 := PutUnlessEmpty(m1, "href", Str(e.href), e.href != "");
    var m3 := PutUnlessEmpty(m2, "user_id", Str(e.userId), e.userId != "");
    Obj(PutUnlessEmpty(m3, "attrs", Obj(e.attrs), |e.attrs| > 0))
  }

  function LineJson(line: seq<PostElement>): (j: Json)
    ensures j.Arr? && |j.items| == |line|
    ensures forall k :: 0 <= k < |line| ==> j.items[k] == ElementJson(line[k])
  {
    Arr(seq(|line|, k requires 0 <= k < |line| => ElementJson(line[k])))
  }

  function PostBodyJson(b: PostBody): (j: Json)
    ensures j.Obj? && j.fields.Keys == {"title", "content"} && j.fields["title"] == Str(b.title)
    ensures j.fields["content"].Arr? && |j.fields["content"].items| == |b.content|
    ensures forall k :: 0 <= k < |b.content| ==> j.fields["content"].items[k] == LineJson(b.content[k])
  {
    Obj(map["title" := Str(b.title),
            "content" := Arr(seq(|b.content|, k requires 0 <= k < |b.content| => LineJson(b.content[k])))])
  }

  /** A language body, or JSON null when that language was never set. */
  function LanguageJson(b: Option<PostBody>): Json
  {
    if b.Some? then PostBodyJson(b.value) else Null
  }

  /** A rich-text message; `WithZhCn` and `WithEnUs` each replace one
      language in place and return the receiver. */
  class PostContent {
    var ZhCn: Option<PostBody>
    var EnUs: Option<PostBody>

    /** `NewPostContent`: neither language set. */
    constructor ()
      ensures ZhCn == None && EnUs == None
    {
      ZhCn := None;
      EnUs := None;
    }

    method WithZhCn(title: string, content: seq<seq<PostElement>>) returns (self: PostContent)
      modifies this`ZhCn
      ensures ZhCn == Some(PostBody(title, content)) && EnUs == old(EnUs) && self == this
    {
      ZhCn := Some(PostBody(title, content));
      self := this;
    }

    method WithEnUs(title: string, content: seq<seq<PostElement>>) returns (self: PostContent)
      modifies this`EnUs
      ensures EnUs == Some(PostBody(title, content)) && ZhCn == old(ZhCn) && self == this
    {
      EnUs := Some(PostBody(title, content));
      self := this;
    }

    function Content(): (c: Json)
      reads this
      ensures c.Obj? && c.fields.Keys == {"post"}
      ensures c.fields["post"].Obj? && c.fields["post"].fields.Keys == {"zh_cn", "en_us"}
      ensures c.fields["post"].fields["zh_cn"] == Null <==> ZhCn.None?
      ensures c.fields["post"].fields["en_us"] == Null <==> EnUs.None?
      ensures ZhCn.Some? ==> c.fields["post"].fields["zh_cn"] == PostBodyJson(ZhCn.value)
      ensures EnUs.Some? ==> c.fields["post"].fields["en_us"] == PostBodyJson(EnUs.value)
    {
      Obj(map["post" := Obj(map["zh_cn" := LanguageJson(ZhCn), "en_us" := LanguageJson(EnUs)])])
    }
  }

  /** The closed family of message contents; the card and the rich text
      are objects, read when the message is sent. */
  datatype MessageContent =
    | TextContent(text: string)
    | Card(card: MessageCard)
    | Post(post: PostContent)
    | ImageContent(imageKey: string)
    | FileContent(fileKey: string)
  {
    function Objects(): set<object>
    {
      if Card? then {card} else if Post? then {post} else {}
    }

    function Type(): (t: string)
      ensures t in {MessageTypeText, MessageTypeInteract, MessageTypePost, MessageTypeImage, MessageTypeFile}
    {
      match this
      case TextContent(_) => MessageTypeText
      case Card(_) => MessageTypeInteract
      case Post(_) => MessageTypePost
      case ImageContent(_) => MessageTypeImage
      case FileContent(_) => MessageTypeFile
    }

    function Content(): (c: Json)
      reads Objects()
      ensures c.Obj? && |c.fields| == 1
    {
      match this
      case TextContent(t) => Obj(map["text" := Str(t)])
      case Card(c) => c.Content()
      case Post(p) => p.Content()
      case ImageContent(k) => Obj(map["image_key" := Str(k)])
      case FileContent(k) => Obj(map["file_key" := Str(k)])
    }
  }

  /** Each kind of content has its own tag, so the tag tells the kind. */
  lemma TypeIdentifiesKind(a: MessageContent, b: MessageContent)
    ensures a.Type() == b.Type() <==>
              (a.TextContent? && b.TextContent?) || (a.Card? && b.Card?) || (a.Post? && b.Post?)
              || (a.ImageContent? && b.ImageContent?) || (a.FileContent? && b.FileContent?)
  {
  }

  /** Each kind of content is sent under its own fixed tag. */
  lemma KindTags(c: MessageContent)
    ensures c.TextContent? ==> c.Type() == "text"
    ensures c.Card? ==> c.Type() == "interact"
    ensures c.Post? ==> c.Type() == "post"
    ensures c.ImageContent? ==> c.Type() == "image"
    ensures c.FileContent? ==> c.Type() == "file"
  {
  }

  /** The simple contents carry their one value under their one key. */
  lemma SimpleContentKeys(c: MessageContent)
    ensures c.TextContent? ==> c.Content().fields.Keys == {"text"} && c.Content().fields["text"] == Str(c.text)
    ensures c.ImageContent? ==> c.Content().fields.Keys == {"image_key"} && c.Content().fields["image_key"] == Str(c.imageKey)
    ensures c.FileContent? ==> c.Content().fields.Keys == {"file_key"} && c.Content().fields["file_key"] == Str(c.fileKey)
  {
  }

  // ---------------------------------------------------------------------
  // Requests of the messaging and group operations

  const SendMessagePath := "/im/v1/messages?receive_id_type=chat_id"
  const ImagesPath := "/im/v1/images"
  const FilesPath := "/im/v1/files"
  const ChatsPath := "/im/v1/chats"

  function SendMessageCall(chatId: string, content: MessageContent): Call
    reads content.Objects()
  {
    Call("POST", SendMessagePath,
         Some(Obj(map["receive_id" := Str(chatId), "msg_type" := Str(content.Type()), "content" := content.Content()])))
  }

  /** `SendMessage` POSTs the chat id, the content's own tag and its
      document; the tag alone tells which kind of content was sent. */
  lemma SendMessageShape(chatId: string, a: MessageContent, b: MessageContent)
    ensures var c := SendMessageCall(chatId, a);
            && c.verb == "POST" && c.path == SendMessagePath && c.body.Some?
            && c.body.value.fields.Keys == {"receive_id", "msg_type", "content"}
            && c.body.value.fields["receive_id"] == Str(chatId)
            && c.body.value.fields["msg_type"] == Str(a.Type())
            && c.body.value.fields["content"] == a.Content()
    ensures SendMessageCall(chatId, a).body.value.fields["msg_type"] == SendMessageCall(chatId, b).body.value.fields["msg_type"]
            <==> a.Type() == b.Type()
  {
  }

  function GetMessageCall(messageId: string): Call
  {
    Call("GET", "/im/v1/messages/" + messageId, None)
  }

  /** The body of `CreateGroup`; `description` and `user_ids` are left out when empty. */
  datatype CreateGroupRequest = CreateGroupRequest(name: string, description: string, userIds: seq<string>)

  function GroupRequestJson(r: CreateGroupRequest): (j: Json)
    ensures j.Obj? && "name" in j.fields && j.fields["name"] == Str(r.name)
    ensures ("description" in j.fields <==> r.description != "")
    ensures "description" in j.fields ==> j.fields["description"] == Str(r.description)
    ensures ("user_ids" in j.fields <==> |r.userIds| > 0)
    ensures "user_ids" in j.fields ==> j.fields["user_ids"] == Strings(r.userIds)
    ensures j.fields.Keys <= {"name", "description", "user_ids"}
  {
    Obj(map["name" := Str(r.name)]
        + (if r.description != "" then map["description" := Str(r.description)] else map[])
        + (if |r.userIds| > 0 then map["user_ids" := Strings(r.userIds)] else map[]))
  }

  /** `CreateGroup` takes a pointer; a nil one still makes a body, the JSON `null`. */
  function CreateGroupCall(req: Option<CreateGroupRequest>): Call
  {
    Call("POST", ChatsPath, Some(if req.Some? then GroupRequestJson(req.value) else Null))
  }

  /** A nil request still sends a body: the JSON `null`. */
  lemma NilGroupRequestSendsNull()
    ensures CreateGroupCall(None).body == Some(Null)
    ensures forall r :: CreateGroupCall(Some(r)).body.Some? && CreateGroupCall(Some(r)).body.value.Obj?
  {
  }

  function GetGroupInfoCall(chatId: string): Call
  {
    Call("GET", ChatsPath + "/" + chatId, None)
  }

  function MembersPath(chatId: string): string
  {
    ChatsPath + "/" + chatId + "/members"
  }

  function AddGroupMemberCall(chatId: string, userIds: seq<string>): Call
  {
    Call("POST", MembersPath(chatId), Some(Obj(map["id_list" := Strings(userIds)])))
  }

  function RemoveGroupMemberCall(chatId: string, query: string): Call
  {
    Call("DELETE", MembersPath(chatId) + query, None)
  }

  /** Adding and removing members address the same resource; removal puts
      the ids in the query string and sends no body. */
  lemma MembershipCalls(chatId: string, userIds: seq<string>)
    ensures AddGroupMemberCall(chatId, userIds).path == MembersPath(chatId)
    ensures RemoveGroupMemberCall(chatId, IdListQuery(userIds)).path == MembersPath(chatId) + IdListQuery(userIds)
    ensures RemoveGroupMemberCall(chatId, IdListQuery(userIds)).body == None
  {
  }

  // ---------------------------------------------------------------------
  // The query string of RemoveGroupMember

  const IdListKey := "id_list="

  /** `id_list=<id>` for each id, in order. */
  function IdListParams(ids: seq<string>): (ps: seq<string>)
    ensures |ps| == |ids|
    ensures forall i :: 0 <= i < |ids| ==> ps[i] == IdListKey + ids[i]
  {
    seq(|ids|, i requires 0 <= i < |ids| => IdListKey + ids[i])
  }

  /** The parts joined by "&", built the way the loop builds it: from the left. */
  function Join(parts: seq<string>): string
  {
    if |parts| == 0 then ""
    else if |parts| == 1 then parts[0]
    else Join(parts[..|parts| - 1]) + "&" + parts[|parts| - 1]
  }

  /** A "?" and then the `id_list` parameters joined by "&". */
  function IdListQuery(ids: seq<string>): (q: string)
    ensures q != [] && q[0] == '?'
    ensures q == "?" <==> ids == []
  {
    "?" + Join(IdListParams(ids))
  }

  /** The loop of `RemoveGroupMember` that assembles `queryParams`. */
  method BuildIdListQuery(userIds: seq<string>) returns (query: string)
    ensures query == IdListQuery(userIds)
  {
    query := "?";
    for i := 0 to |userIds|
      invariant query == "?" + Join(IdListParams(userIds[..i]))
    {
      if i > 0 {
        query := query + "&";
      }
      query := query + IdListKey + userIds[i];
      assert IdListParams(userIds[..i + 1])[..i] == IdListParams(userIds[..i]);
    }
    assert userIds[..|userIds|] == userIds;
  }

  /** An empty list leaves only the "?". */
  lemma EmptyIdListQuery()
    ensures IdListQuery([]) == "?"
  {
  }

  /** The position of the last "&" in `s`, or -1. */
  function LastAmpersand(s: string): (k: int)
    ensures -1 <= k < |s|
    ensures k >= 0 ==> s[k] == '&'
    ensures forall i :: k < i < |s| ==> s[i] != '&'
  {
    if s == [] then -1
    else if s[|s| - 1] == '&' then |s| - 1
    else LastAmpersand(s[..|s| - 1])
  }

  /** `s` cut at every "&" (the inverse of `Join` for parts without "&"). */
  function Split(s: string): (parts: seq<string>)
    ensures |parts| > 0
    decreases |s|
  {
    var k := LastAmpersand(s);
    if k < 0 then [s] else Split(s[..k]) + [s[k + 1..]]
  }

  /** The original ids: drop the "?" and each "id_list=" prefix. */
  function ParseIdListQuery(query: string): seq<string>
    requires |query| > 0
  {
    if query == "?" then []
    else
      var parts := Split(query[1..]);
      seq(|parts|, i requires 0 <= i < |parts| =>
        if |parts[i]| >= |IdListKey| && parts[i][..|IdListKey|] == IdListKey then parts[i][|IdListKey|..] else parts[i])
  }

  lemma {:induction false} LastAmpersandAfter(a: string, x: string)
    requires '&' !in x
    ensures LastAmpersand(a + "&" + x) == |a|
  {
    var s := a + "&" + x;
    if x != [] {
      var x' := x[..|x| - 1];
      assert x[|x| - 1] in x;
      assert s[|s| - 1] == x[|x| - 1];
      assert s[..|s| - 1] == a + "&" + x';
      assert forall c :: c in x' ==> c in x;
      LastAmpersandAfter(a, x');
    }
  }

  /** Splitting `a + "&" + x` at its last "&" leaves `a` and `x`. */
  lemma SplitLast(a: string, x: string)
    requires '&' !in x
    ensures Split(a + "&" + x) == Split(a) + [x]
  {
    var s := a + "&" + x;
    LastAmpersandAfter(a, x);
    assert s[..|a|] == a;
    assert s[|a| + 1..] == x;
  }

  lemma {:induction false} SplitJoin(parts: seq<string>)
    requires |parts| > 0
    requires forall i :: 0 <= i < |parts| ==> '&' !in parts[i]
    ensures Split(Join(parts)) == parts
  {
    if |parts| == 1 {
      assert LastAmpersand(parts[0]) == -1;
    } else {
      var init := parts[..|parts| - 1];
      var last := parts[|parts| - 1];
      assert Join(parts) == Join(init) + "&" + last;
      SplitLast(Join(init), last);
      SplitJoin(init);
      assert init + [last] == parts;
    }
  }

  /** The ids can be read back from the query string when none of them
      holds an "&" (the loop does not escape them). */
  lemma IdListQueryRoundTrip(ids: seq<string>)
    requires forall i :: 0 <= i < |ids| ==> '&' !in ids[i]
    ensures ParseIdListQuery(IdListQuery(ids)) == ids
  {
    if ids != [] {
      var ps := IdListParams(ids);
      forall i | 0 <= i < |ps|
        ensures '&' !in ps[i]
      {
        assert forall c :: c in ps[i] ==> c in IdListKey || c in ids[i];
      }
      SplitJoin(ps);
      var q := IdListQuery(ids);
      assert q[1..] == Join(ps);
      assert |Join(ps)| >= |ps[0]| > 0 by { JoinCoversFirst(ps); }
      forall i | 0 <= i < |ids|
        ensures ps[i][..|IdListKey|] == IdListKey && ps[i][|IdListKey|..] == ids[i]
      {
      }
    }
  }

  lemma {:induction false} JoinCoversFirst(parts: seq<string>)
    requires |parts| > 0
    ensures |Join(parts)| >= |parts[0]|
  {
    if |parts| > 1 {
      JoinCoversFirst(parts[..|parts| - 1]);
    }
  }

  /** The ids are not escaped: an id holding "&id_list=" reads as two ids,
      so the round trip needs ids without "&". */
  lemma UnescapedIdsCollide()
    ensures IdListQuery(["a&id_list=b"]) == IdListQuery(["a", "b"])
  {
    var two := IdListParams(["a", "b"]);
    assert two[..1] == [IdListKey + "a"];
    assert Join(two) == IdListKey + "a" + "&" + (IdListKey + "b");
    var one := IdListParams(["a&id_list=b"]);
    assert Join(one) == IdListKey + "a&id_list=b";
    assert IdListKey + "a" + "&" + (IdListKey + "b") == IdListKey + "a&id_list=b";
  }

  /** Different id lists (without "&") give different query strings. */
  lemma IdListQueryInjective(ids1: seq<string>, ids2: seq<string>)
    requires forall i :: 0 <= i < |ids1| ==> '&' !in ids1[i]
    requires forall i :: 0 <= i < |ids2| ==> '&' !in ids2[i]
    requires IdListQuery(ids1) == IdListQuery(ids2)
    ensures ids1 == ids2
  {
    IdListQueryRoundTrip(ids1);
    IdListQueryRoundTrip(ids2);
  }
}
