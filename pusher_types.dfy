/** The record shapes declared in lib/pusher/types.ts that the model uses. */
module PusherTypes {
  import opened Wrappers

  /** `PusherMember.info`. */
  datatype MemberInfo = MemberInfo(nickname: string, joinedAt: string)

  /** `PusherMember`: a presence-channel member, identified by `id`. */
  datatype Member = Member(id: string, info: MemberInfo)

  /** `ChannelAuthResponse`: what the broker returns for a channel authorization. */
  datatype AuthResponse = AuthResponse(auth: string, channelData: Option<string>)
}
