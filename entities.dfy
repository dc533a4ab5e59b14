/** The platform entities the bot reads, reduced to what its logic looks at. */
module Entities {
  import opened Wrappers

  /** A guild member: `member.user.bot` and `member.presence?.status`
      (`None` when the member has no presence at all). */
  datatype Member = Member(isBot: bool, status: Option<string>)

  /** A guild snapshot: its display name, the URL `guild.iconURL(...)` returns
      (`None` for no icon), the members `guild.members.fetch()` yields, and the
      platform's `guild.memberCount`. */
  datatype Guild = Guild(name: string, icon: Option<string>, members: seq<Member>, memberCount: nat)
}
