/**
 * The request-building half of the facade `GroupMeAPI` (Sources/GroupMeAPI/GroupMeAPI.swift):
 * one method per remote call, each producing the `URLRequest` the call hands to the
 * transport. What each call then does with the response is in module `Calls`.
 * JSON encoding is the `encode` parameter; the `source_guid` the source draws from
 * `UUID()` is the `sourceGuid` parameter.
 */
module GroupMe {
  import opened Common
  import opened Requests
  import opened Bodies

  datatype LeaderboardPeriod = Day | Week | Month

  /** `LeaderboardPeriod.rawValue`. */
  function PeriodName(period: LeaderboardPeriod): string {
    match period
    case Day => "day"
    case Week => "week"
    case Month => "month"
  }

  class GroupMeAPI {
    const token: string

    constructor (token: string)
      ensures this.token == token
    {
      this.token := token;
    }

    /** `genURI`: copies the caller's items, appends the token, then fills in the URL components. */
    method GenUri(endpoint: string, queryItems: seq<QueryItem>) returns (url: Url)
      ensures url == ApiUrl(token, endpoint, queryItems)
      ensures url.scheme == "https" && url.host == "api.groupme.com" && url.path == "/v3" + endpoint
      // the caller's items in their original order, then exactly one token item, last
      ensures |url.query| == |queryItems| + 1 && url.query[..|queryItems|] == queryItems
      ensures url.query[|queryItems|] == QueryItem("token", token)
    {
      var items := queryItems;
      items := items + [TokenItem(token)];
      var comps := Url("", "", endpoint, []);
      comps := comps.(query := items);
      comps := comps.(path := ApiPathPrefix + endpoint);
      comps := comps.(host := ApiHost);
      comps := comps.(scheme := ApiScheme);
      url := comps;
    }

    // Groups

    method GetGroups() returns (request: Request)
      ensures Plain(request, Get, ApiUrl(token, "/groups", []))
    {
      var url := GenUri("/groups", []);
      request := UrlRequest(url);
    }

    method GetFormerGroups() returns (request: Request)
      ensures Plain(request, Get, ApiUrl(token, "/groups/former", []))
    {
      var url := GenUri("/groups/former", []);
      request := UrlRequest(url);
    }

    method GetGroup(group: string) returns (request: Request)
      ensures Plain(request, Get, ApiUrl(token, "/groups/" + group, []))
    {
      var url := GenUri("/groups/" + group, []);
      request := UrlRequest(url);
    }

    /** `share` defaults to false in the source and is therefore always sent. */
    method CreateGroup(name: string, share: bool, imageUrl: Option<string>, encode: RequestBody -> Bytes)
      returns (request: Request)
      ensures JsonPost(request, ApiUrl(token, "/groups", []), encode(CreateGroupBody(name, Some(share), imageUrl)))
    {
      var url := GenUri("/groups", []);
      request := JsonPostRequest(url, encode(CreateGroupBody(name, Some(share), imageUrl)));
    }

    method UpdateGroup(group: string, name: Option<string>, description: Option<string>, imageUrl: Option<string>,
                       officeMode: Option<bool>, share: Option<bool>, encode: RequestBody -> Bytes)
      returns (request: Request)
      ensures JsonPost(request, ApiUrl(token, "/groups/" + group + "/update", []),
                       encode(UpdateGroupBody(name, description, imageUrl, officeMode, share)))
    {
      var url := GenUri("/groups/" + group + "/update", []);
      request := JsonPostRequest(url, encode(UpdateGroupBody(name, description, imageUrl, officeMode, share)));
    }

    method DestroyGroup(group: string) returns (request: Request)
      ensures Plain(request, Post, ApiUrl(token, "/groups/" + group + "/destroy", []))
    {
      var url := GenUri("/groups/" + group + "/destroy", []);
      request := UrlRequest(url);
      request := request.(verb := Post);
    }

    method JoinGroup(group: string, shareToken: string) returns (request: Request)
      ensures Plain(request, Post, ApiUrl(token, "/groups/" + group + "/join/" + shareToken, []))
    {
      var url := GenUri("/groups/" + group + "/join/" + shareToken, []);
      request := UrlRequest(url);
      request := request.(verb := Post);
    }

    method RejoinGroup(group: string, encode: RequestBody -> Bytes) returns (request: Request)
      ensures JsonPost(request, ApiUrl(token, "/groups/join", []), encode(RejoinGroupBody(group)))
    {
      var url := GenUri("/groups/join", []);
      request := JsonPostRequest(url, encode(RejoinGroupBody(group)));
    }

    // Group membership

    /** As written, the members are posted to `/groups/join` and `group` is not used. */
    method AddMembers(members: seq<NewMember>, group: string, encode: RequestBody -> Bytes) returns (request: Request)
      ensures JsonPost(request, ApiUrl(token, "/groups/join", []), encode(AddMembersBody(members)))
    {
      var url := GenUri("/groups/join", []);
      request := JsonPostRequest(url, encode(AddMembersBody(members)));
    }

    method RemoveMember(membershipId: string, group: string) returns (request: Request)
      ensures Plain(request, Post, ApiUrl(token, "/groups/" + group + "/members/" + membershipId + "/remove", []))
    {
      var url := GenUri("/groups/" + group + "/members/" + membershipId + "/remove", []);
      request := UrlRequest(url);
      request := request.(verb := Post);
    }

    method UpdateNickname(newNickname: string, group: string, encode: RequestBody -> Bytes) returns (request: Request)
      ensures JsonPost(request, ApiUrl(token, "/groups/" + group + "/memberships/update", []),
                       encode(UpdateMembershipBody(newNickname)))
    {
      var url := GenUri("/groups/" + group + "/memberships/update", []);
      request := JsonPostRequest(url, encode(UpdateMembershipBody(newNickname)));
    }

    // Messages

    /** As written, none of the paging arguments reaches the request: the query is the token alone. */
    method GetMessages(group: string, beforeMessage: Option<string>, sinceMessage: Option<string>,
                       afterMessage: Option<string>, limit: int) returns (request: Request)
      ensures Plain(request, Get, ApiUrl(token, "/groups/" + group + "/messages", []))
      ensures request.url.query == [QueryItem("token", token)]
    {
      var url := GenUri("/groups/" + group + "/messages", []);
      request := UrlRequest(url);
    }

    method CreateMessage(group: string, text: string, attachments: seq<Attachment>, sourceGuid: string,
                         encode: RequestBody -> Bytes) returns (request: Request)
      ensures JsonPost(request, ApiUrl(token, "/groups/" + group + "/messages", []),
                       encode(CreateMessageBody(MessageFields(sourceGuid, text, attachments))))
    {
      var body := CreateMessageBody(MessageFields(sourceGuid, text, attachments));
      var url := GenUri("/groups/" + group + "/messages", []);
      request := JsonPostRequest(url, encode(body));
    }

    // Chats

    method GetChats() returns (request: Request)
      ensures Plain(request, Get, ApiUrl(token, "/chats", []))
    {
      var url := GenUri("/chats", []);
      request := UrlRequest(url);
    }

    // Direct messages

    /** The query grows step by step: the other user, then each supplied cursor, then the token. */
    method GetDirectMessages(user: string, beforeMessage: Option<string>, sinceMessage: Option<string>)
      returns (request: Request)
      ensures Plain(request, Get, ApiUrl(token, "/direct_messages",
                    [QueryItem("other_user_id", user)] + OptionalItem("before_id", beforeMessage)
                    + OptionalItem("since_id", sinceMessage)))
      ensures FirstValue(request.url.query, "other_user_id") == Some(user)
      ensures FirstValue(request.url.query, "before_id") == beforeMessage
      ensures FirstValue(request.url.query, "since_id") == sinceMessage
      ensures FirstValue(request.url.query, "token") == Some(token)
    {
      var queryItems := [QueryItem("other_user_id", user)];
      if beforeMessage.Some? {
        queryItems := queryItems + [QueryItem("before_id", beforeMessage.value)];
      }
      if sinceMessage.Some? {
        queryItems := queryItems + [QueryItem("since_id", sinceMessage.value)];
      }
      var url := GenUri("/direct_messages", queryItems);
      request := UrlRequest(url);

      ghost var head := [QueryItem("other_user_id", user)];
      ghost var before := OptionalItem("before_id", beforeMessage);
      ghost var since := OptionalItem("since_id", sinceMessage);
      ghost var tail := [TokenItem(token)];
      assert queryItems == head + before + since;
      assert url.query == head + (before + (since + tail));
      FirstValueAppend(head, before + (since + tail), "other_user_id");
      FirstValueAppend(head, before + (since + tail), "before_id");
      FirstValueAppend(before, since + tail, "before_id");
      FirstValueAppend(head, before + (since + tail), "since_id");
      FirstValueAppend(before, since + tail, "since_id");
      FirstValueAppend(since, tail, "since_id");
      FirstValueAppend(head, before + (since + tail), "token");
      FirstValueAppend(before, since + tail, "token");
      FirstValueAppend(since, tail, "token");
      OptionalItemValue("before_id", "since_id", beforeMessage);
      OptionalItemValue("before_id", "token", beforeMessage);
      OptionalItemValue("since_id", "token", sinceMessage);
    }

    /** As written, `user` is not used: the body carries no recipient. */
    method CreateDirectMessage(user: string, text: string, attachments: seq<Attachment>, sourceGuid: string,
                               encode: RequestBody -> Bytes) returns (request: Request)
      ensures JsonPost(request, ApiUrl(token, "/direct_messages", []),
                       encode(CreateDirectMessageBody(MessageFields(sourceGuid, text, attachments))))
    {
      var body := CreateDirectMessageBody(MessageFields(sourceGuid, text, attachments));
      var url := GenUri("/direct_messages", []);
      request := JsonPostRequest(url, encode(body));
    }

    // Likes

    method LikeMessage(messageId: string, conversationId: string) returns (request: Request)
      ensures Plain(request, Post, ApiUrl(token, "/messages/" + conversationId + "/" + messageId + "/like", []))
    {
      var url := GenUri("/messages/" + conversationId + "/" + messageId + "/like", []);
      request := UrlRequest(url);
      request := request.(verb := Post);
    }

    /** As written, this targets the `/like` endpoint, exactly as `LikeMessage` does. */
    method UnlikeMessage(messageId: string, conversationId: string) returns (request: Request)
      ensures Plain(request, Post, ApiUrl(token, "/messages/" + conversationId + "/" + messageId + "/like", []))
    {
      var url := GenUri("/messages/" + conversationId + "/" + messageId + "/like", []);
      request := UrlRequest(url);
      request := request.(verb := Post);
    }

    // Leaderboard

    method TopLikedMessages(group: string, period: LeaderboardPeriod) returns (request: Request)
      ensures Plain(request, Get, ApiUrl(token, "/groups/" + group + "/likes", [QueryItem("period", PeriodName(period))]))
      ensures FirstValue(request.url.query, "period") in {Some("day"), Some("week"), Some("month")}
    {
      var url := GenUri("/groups/" + group + "/likes", [QueryItem("period", PeriodName(period))]);
      request := UrlRequest(url);
    }

    method CurrentUserLikes(group: string) returns (request: Request)
      ensures Plain(request, Get, ApiUrl(token, "/groups/" + group + "/likes/mine", []))
    {
      var url := GenUri("/groups/" + group + "/likes/mine", []);
      request := UrlRequest(url);
    }

    method CurrentUserHits(group: string) returns (request: Request)
      ensures Plain(request, Get, ApiUrl(token, "/groups/" + group + "/likes/for_me", []))
    {
      var url := GenUri("/groups/" + group + "/likes/for_me", []);
      request := UrlRequest(url);
    }

    // Users

    method GetCurrentUser() returns (request: Request)
      ensures Plain(request, Get, ApiUrl(token, "/users/me", []))
    {
      var url := GenUri("/users/me", []);
      request := UrlRequest(url);
    }

    method UpdateCurrentUser(avatar: Option<string>, name: Option<string>, email: Option<string>,
                             zipCode: Option<string>, encode: RequestBody -> Bytes) returns (request: Request)
      ensures JsonPost(request, ApiUrl(token, "/users/update", []), encode(UpdateUserBody(avatar, name, email, zipCode)))
    {
      var url := GenUri("/users/update", []);
      request := JsonPostRequest(url, encode(UpdateUserBody(avatar, name, email, zipCode)));
    }

    // SMS mode

    method EnableSms(duration: int, registrationId: string, encode: RequestBody -> Bytes) returns (request: Request)
      ensures JsonPost(request, ApiUrl(token, "/users/sms_mode", []),
                       encode(EnableSmsModeBody(duration, Some(registrationId))))
    {
      var url := GenUri("/users/sms_mode", []);
      request := JsonPostRequest(url, encode(EnableSmsModeBody(duration, Some(registrationId))));
    }

    method DisableSms() returns (request: Request)
      ensures Plain(request, Post, ApiUrl(token, "/users/sms_mode/delete", []))
    {
      var url := GenUri("/users/sms_mode/delete", []);
      request := UrlRequest(url);
      request := request.(verb := Post);
    }

    // Blocks

    method GetBlockedUsers(user: string) returns (request: Request)
      ensures Plain(request, Get, ApiUrl(token, "/blocks", [QueryItem("user", user)]))
    {
      var url := GenUri("/blocks", [QueryItem("user", user)]);
      request := UrlRequest(url);
    }

    method BlockBetween(currentUser: string, otherUser: string) returns (request: Request)
      ensures Plain(request, Get, ApiUrl(token, "/blocks", [QueryItem("user", currentUser), QueryItem("otherUser", otherUser)]))
      ensures request.url.query == [QueryItem("user", currentUser), QueryItem("otherUser", otherUser), QueryItem("token", token)]
    {
      var queryItems := [QueryItem("user", currentUser), QueryItem("otherUser", otherUser)];
      var url := GenUri("/blocks", queryItems);
      request := UrlRequest(url);
    }

    method CreateBlock(currentUser: string, otherUser: string) returns (request: Request)
      ensures Plain(request, Post, ApiUrl(token, "/blocks", [QueryItem("user", currentUser), QueryItem("otherUser", otherUser)]))
      ensures request.url.query == [QueryItem("user", currentUser), QueryItem("otherUser", otherUser), QueryItem("token", token)]
    {
      var queryItems := [QueryItem("user", currentUser), QueryItem("otherUser", otherUser)];
      var url := GenUri("/blocks", queryItems);
      request := UrlRequest(url);
      request := request.(verb := Post);
    }

    method RemoveBlock(currentUser: string, otherUser: string) returns (request: Request)
      ensures Plain(request, Post, ApiUrl(token, "/blocks/delete", [QueryItem("user", currentUser), QueryItem("otherUser", otherUser)]))
      ensures request.url.query == [QueryItem("user", currentUser), QueryItem("otherUser", otherUser), QueryItem("token", token)]
    {
      var queryItems := [QueryItem("user", currentUser), QueryItem("otherUser", otherUser)];
      var url := GenUri("/blocks/delete", queryItems);
      request := UrlRequest(url);
      request := request.(verb := Post);
    }
  }
}
