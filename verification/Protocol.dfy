/** The events of the wire protocol and the connections that carry them. */
module Protocol {
  datatype Kind =
    | MessageSend | MessageAsk | MessageReply | MessageBroadcast | MessageAck
    | JoinRequest | JoinApprove | JoinDeny | JoinApproved | JoinDenied | JoinDecisionAck
    | ListRequest | ListResponse | StatusRequest | StatusResponse
    | OwnerChanged | PresenceChanged | Error
    | Other(name: string)

  /** The payloads the relay or the client looks into; Fields is any other JSON object. */
  datatype Payload =
    | Missing
    | Fields(joinRequestId: string, text: string)
    | Delivered(deviceId: string)
    | Decision(joinRequestId: string, deviceId: string, approved: bool)
    | Waiting(joinRequestId: string, deviceId: string, deviceName: string)
    | Admitted(joinRequestId: string, deviceId: string, token: string)
    | Refused(joinRequestId: string, deviceId: string)
    | Roster(ownerId: string, members: set<(string, string, bool, bool)>)
    | Status(pendingApproval: bool, channelId: string, deviceId: string, ownerId: string, joinRequestId: string)
    | Owners(previousOwnerId: string, ownerId: string)
    | Presence(deviceId: string, deviceName: string, online: bool, ownerId: string)
    | Failure(code: string)

  /** to and the payload's joinRequestId stand for the texts after strings.TrimSpace. */
  datatype Event = Event(id: string, kind: Kind, channelId: string, from: string, to: string,
                         replyTo: string, payload: Payload)

  predicate Routable(kind: Kind) {
    kind.MessageSend? || kind.MessageAsk? || kind.MessageReply?
  }

  /** Kinds of the answers that settle a request. */
  predicate IsAnswer(kind: Kind) {
    kind.MessageAck? || kind.JoinDecisionAck? || kind.ListResponse? || kind.StatusResponse? || kind.Error?
  }
}

module Connections {
  datatype Role = MemberRole | PendingRole

  /** One accepted WebSocket: the claims of its token, and the role it has now. */
  class Connection {
    const channelId: string
    const deviceId: string
    const joinRequestId: string
    const claimed: Role
    var role: Role

    constructor (channelId: string, deviceId: string, joinRequestId: string, role: Role)
      ensures this.channelId == channelId && this.deviceId == deviceId && this.joinRequestId == joinRequestId
      ensures this.claimed == role && this.role == role
    {
      this.channelId, this.deviceId, this.joinRequestId := channelId, deviceId, joinRequestId;
      this.claimed, this.role := role, role;
    }
  }
}
