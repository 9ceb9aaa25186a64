/**
 * Four facade calls whose requests, as written, do not carry what their parameters
 * and the GroupMe v3 API call for. For each: a member showing the discrepancy on the
 * as-written request builder of `GroupMe.GroupMeAPI`, and the corrected builder with
 * the intended property proved of it.
 */
module Findings {
  import opened Common
  import opened Requests
  import opened Bodies
  import GroupMe

  // unlikeMessage

  /** As written, un-liking sends exactly the request that liking sends. */
  method UnlikeRepeatsLike(api: GroupMe.GroupMeAPI, messageId: string, conversationId: string)
    returns (like: Request, unlike: Request)
    ensures like == unlike
  {
    like := api.LikeMessage(messageId, conversationId);
    unlike := api.UnlikeMessage(messageId, conversationId);
  }

  /** Corrected `unlikeMessage`: a POST to the `/unlike` endpoint. */
  method UnlikeMessage(api: GroupMe.GroupMeAPI, messageId: string, conversationId: string) returns (request: Request)
    ensures Plain(request, Post, ApiUrl(api.token, "/messages/" + conversationId + "/" + messageId + "/unlike", []))
  {
    var url := api.GenUri("/messages/" + conversationId + "/" + messageId + "/unlike", []);
    request := UrlRequest(url);
    request := request.(verb := Post);
  }

  /** With the correction, liking and un-liking the same message differ in their path alone. */
  method UnlikeDiffersFromLike(api: GroupMe.GroupMeAPI, messageId: string, conversationId: string)
    returns (like: Request, unlike: Request)
    ensures like.url.path != unlike.url.path
    ensures unlike == like.(url := like.url.(path := unlike.url.path))
  {
    like := api.LikeMessage(messageId, conversationId);
    unlike := UnlikeMessage(api, messageId, conversationId);
    assert |unlike.url.path| == |like.url.path| + 2;
  }

  // addMembers

  /** As written, adding members to two different groups sends the same request. */
  method AddMembersIgnoresGroup(api: GroupMe.GroupMeAPI, members: seq<NewMember>, group1: string, group2: string,
                                encode: RequestBody -> Bytes) returns (request1: Request, request2: Request)
    ensures request1 == request2
    ensures request1.url.path == "/v3/groups/join"
  {
    request1 := api.AddMembers(members, group1, encode);
    request2 := api.AddMembers(members, group2, encode);
  }

  /** Corrected `addMembers`: a JSON POST to the group's `/members/add` endpoint. */
  method AddMembers(api: GroupMe.GroupMeAPI, members: seq<NewMember>, group: string, encode: RequestBody -> Bytes)
    returns (request: Request)
    ensures JsonPost(request, ApiUrl(api.token, "/groups/" + group + "/members/add", []), encode(AddMembersBody(members)))
  {
    var url := api.GenUri("/groups/" + group + "/members/add", []);
    request := JsonPostRequest(url, encode(AddMembersBody(members)));
  }

  /** With the correction, two requests target the same URL exactly when they name the same group. */
  method AddMembersReachesGroup(api: GroupMe.GroupMeAPI, members: seq<NewMember>, group1: string, group2: string,
                                encode: RequestBody -> Bytes) returns (request1: Request, request2: Request)
    ensures request1.url == request2.url <==> group1 == group2
  {
    request1 := AddMembers(api, members, group1, encode);
    request2 := AddMembers(api, members, group2, encode);
    if request1.url == request2.url {
      ghost var path1, path2 := request1.url.path, request2.url.path;
      assert |group1| == |group2|;
      assert path1[11..11 + |group1|] == group1;
      assert path2[11..11 + |group2|] == group2;
    }
  }

  // createDirectMessage

  /** As written, direct messages to two different users send the same request. */
  method CreateDirectMessageDropsRecipient(api: GroupMe.GroupMeAPI, user1: string, user2: string, text: string,
                                           attachments: seq<Attachment>, sourceGuid: string,
                                           encode: RequestBody -> Bytes) returns (request1: Request, request2: Request)
    ensures request1 == request2
  {
    request1 := api.CreateDirectMessage(user1, text, attachments, sourceGuid, encode);
    request2 := api.CreateDirectMessage(user2, text, attachments, sourceGuid, encode);
  }

  /** Corrected `createDirectMessage`: the body names the recipient. */
  method CreateDirectMessage(api: GroupMe.GroupMeAPI, user: string, text: string, attachments: seq<Attachment>,
                             sourceGuid: string, encode: RequestBody -> Bytes) returns (request: Request)
    ensures JsonPost(request, ApiUrl(api.token, "/direct_messages", []),
                     encode(CreateDirectMessageToBody(DirectMessageFields(sourceGuid, user, text, attachments))))
  {
    var body := CreateDirectMessageToBody(DirectMessageFields(sourceGuid, user, text, attachments));
    var url := api.GenUri("/direct_messages", []);
    request := JsonPostRequest(url, encode(body));
  }

  // getMessages

  /** As written, every choice of paging arguments yields the same request. */
  method GetMessagesIgnoresPaging(api: GroupMe.GroupMeAPI, group: string,
                                  before1: Option<string>, since1: Option<string>, after1: Option<string>, limit1: int,
                                  before2: Option<string>, since2: Option<string>, after2: Option<string>, limit2: int)
    returns (request1: Request, request2: Request)
    ensures request1 == request2
  {
    request1 := api.GetMessages(group, before1, since1, after1, limit1);
    request2 := api.GetMessages(group, before2, since2, after2, limit2);
  }

  function DigitChar(d: nat): char
    requires d < 10
  {
    "0123456789"[d]
  }

  /** The decimal text of a natural number, without leading zeros. */
  function NaturalText(n: nat): string
    decreases n
  {
    if n < 10 then [DigitChar(n)] else NaturalText(n / 10) + [DigitChar(n % 10)]
  }

  /** Swift's `String(n)` for an `Int`. */
  function DecimalText(n: int): string {
    if n < 0 then "-" + NaturalText(-n) else NaturalText(n)
  }

  /** The corrected paging query before the token: each supplied cursor, then the limit. */
  function PagingItems(before: Option<string>, since: Option<string>, after: Option<string>, limitText: string)
    : seq<QueryItem>
  {
    OptionalItem("before_id", before)
    + (OptionalItem("since_id", since) + (OptionalItem("after_id", after) + [QueryItem("limit", limitText)]))
  }

  /** Each paging parameter reads back from the corrected query as it was supplied; no other name is present. */
  lemma PagingValue(before: Option<string>, since: Option<string>, after: Option<string>, limitText: string,
                    key: string)
    ensures FirstValue(PagingItems(before, since, after, limitText), key)
         == if key == "before_id" then before else if key == "since_id" then since
            else if key == "after_id" then after else if key == "limit" then Some(limitText) else None
  {
    var b := OptionalItem("before_id", before);
    var s := OptionalItem("since_id", since);
    var a := OptionalItem("after_id", after);
    var l := [QueryItem("limit", limitText)];
    FirstValueAppend(b, s + (a + l), key);
    FirstValueAppend(s, a + l, key);
    FirstValueAppend(a, l, key);
  }

  /** The same, once the token is appended. */
  lemma PagingQueryValue(before: Option<string>, since: Option<string>, after: Option<string>, limitText: string,
                         token: string, key: string)
    ensures FirstValue(PagingItems(before, since, after, limitText) + [TokenItem(token)], key)
         == if key == "before_id" then before else if key == "since_id" then since
            else if key == "after_id" then after else if key == "limit" then Some(limitText)
            else if key == "token" then Some(token) else None
  {
    PagingValue(before, since, after, limitText, key);
    FirstValueAppend(PagingItems(before, since, after, limitText), [TokenItem(token)], key);
  }

  /** Corrected `getMessages`: each supplied cursor, then the limit, then the token. */
  method GetMessages(api: GroupMe.GroupMeAPI, group: string, beforeMessage: Option<string>,
                     sinceMessage: Option<string>, afterMessage: Option<string>, limit: int) returns (request: Request)
    ensures Plain(request, Get, ApiUrl(api.token, "/groups/" + group + "/messages",
                  PagingItems(beforeMessage, sinceMessage, afterMessage, DecimalText(limit))))
    ensures FirstValue(request.url.query, "before_id") == beforeMessage
    ensures FirstValue(request.url.query, "since_id") == sinceMessage
    ensures FirstValue(request.url.query, "after_id") == afterMessage
    ensures FirstValue(request.url.query, "limit") == Some(DecimalText(limit))
    ensures FirstValue(request.url.query, "token") == Some(api.token)
  {
    var limitText := DecimalText(limit);
    var queryItems := PagingItems(beforeMessage, sinceMessage, afterMessage, limitText);
    var url := api.GenUri("/groups/" + group + "/messages", queryItems);
    request := UrlRequest(url);
    PagingQueryValue(beforeMessage, sinceMessage, afterMessage, limitText, api.token, "before_id");
    PagingQueryValue(beforeMessage, sinceMessage, afterMessage, limitText, api.token, "since_id");
    PagingQueryValue(beforeMessage, sinceMessage, afterMessage, limitText, api.token, "after_id");
    PagingQueryValue(beforeMessage, sinceMessage, afterMessage, limitText, api.token, "limit");
    PagingQueryValue(beforeMessage, sinceMessage, afterMessage, limitText, api.token, "token");
  }
}
