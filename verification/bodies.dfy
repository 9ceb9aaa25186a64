/**
 * The request payloads the facade builds before handing them to the JSON encoder
 * (the `GMRequest…` structures). Only their shape matters here: which caller
 * argument lands in which field. Encoding itself is a parameter of the facade.
 */
module Bodies {
  import opened Common

  /** `GMRequestAddMembers_NewMember`. */
  datatype NewMember = NewMember(nickname: string, userId: Option<string>, phoneNumber: Option<string>,
                                 email: Option<string>, guid: Option<string>)

  /** `GMAttachment`: one flat record with an optional field for every attachment kind. */
  datatype Attachment = Attachment(charmap: Option<seq<seq<int>>>, placeholder: Option<string>, kind: string,
                                   eventId: Option<string>, view: Option<string>, pollId: Option<string>,
                                   url: Option<string>, lat: Option<string>, lng: Option<string>,
                                   name: Option<string>)

  /** `GMRequestCreateMessage_message`: the inner message of both message-creating calls. */
  datatype MessageFields = MessageFields(sourceGuid: string, text: string, attachments: seq<Attachment>)

  /** `GMRequestCreateDirectMessage_directmessage`: a direct message that names its recipient. */
  datatype DirectMessageFields = DirectMessageFields(sourceGuid: string, recipientId: string, text: string,
                                                     attachments: seq<Attachment>)

  datatype RequestBody =
    | CreateGroupBody(groupName: string, share: Option<bool>, imageUrl: Option<string>)
    | UpdateGroupBody(name: Option<string>, description: Option<string>, imageUrl: Option<string>,
                      officeMode: Option<bool>, share: Option<bool>)
    | RejoinGroupBody(groupId: string)
    | AddMembersBody(members: seq<NewMember>)
    | UpdateMembershipBody(nickname: string)
    | CreateMessageBody(message: MessageFields)
    | CreateDirectMessageBody(directMessage: MessageFields)
    | CreateDirectMessageToBody(addressed: DirectMessageFields)
    | UpdateUserBody(avatarUrl: Option<string>, name: Option<string>, email: Option<string>, zipCode: Option<string>)
    | EnableSmsModeBody(duration: int, registrationId: Option<string>)
}
