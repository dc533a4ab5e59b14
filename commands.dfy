/** The slash-command catalogue and the replies of the `interactionCreate`
    handler for slash commands. */
module Commands {
  import opened Wrappers
  import opened Strings
  import opened Decimal
  import opened Entities
  import opened Images
  import opened Presence

  /** A slash command as registered: name, description and its options. */
  datatype CommandDescriptor = CommandDescriptor(name: string, description: string, options: seq<string>)

  /** The commands `registerCommands` submits for the guild: exactly
      `active`, `developer`, `owner`, in this order, none taking options. */
  function Catalogue(): (cs: seq<CommandDescriptor>)
    ensures CommandNames(cs) == ["active", "developer", "owner"]
    ensures forall i :: 0 <= i < |cs| ==> cs[i].options == []
  {
    [ CommandDescriptor("active", "Shows active members", []),
      CommandDescriptor("developer", "Shows developer info", []),
      CommandDescriptor("owner", "Shows server owner info", []) ]
  }

  function CommandNames(cs: seq<CommandDescriptor>): (names: seq<string>)
    ensures |names| == |cs|
    ensures forall i :: 0 <= i < |cs| ==> names[i] == cs[i].name
  {
    if cs == [] then [] else [cs[0].name] + CommandNames(cs[1..])
  }

  datatype ButtonStyle = Link

  /** A button of the reply's action row: its label, style and link (its emoji is not modelled). */
  datatype Button = Button(text: string, style: ButtonStyle, url: string)

  /** The action row attached to `/developer` and `/owner`: three link
      buttons with fixed labels, in order. */
  function ButtonRow(role: Role): (row: seq<Button>)
    ensures |row| == 3
    ensures forall i :: 0 <= i < 3 ==> row[i].style == Link
    ensures Labels(row) == if role == Developer then ["GitHub", "TikTok", "YouTube"]
                           else ["Facebook", "YouTube", "Instagram"]
  {
    match role
    case Developer =>
      [ Button("GitHub", Link, "https://github.com/Xen-Dev23"),
        Button("TikTok", Link, "https://www.tiktok.com/@drei_xen"),
        Button("YouTube", Link, "https://www.youtube.com/@Xen_Moto") ]
    case Owner =>
      [ Button("Facebook", Link, "https://www.facebook.com/PrestigeBeta"),
        Button("YouTube", Link, "https://www.youtube.com/@prestigebeta6900"),
        Button("Instagram", Link, "https://www.instagram.com/lenarddoesart/") ]
  }

  function Labels(bs: seq<Button>): (labels: seq<string>)
    ensures |labels| == |bs|
    ensures forall i :: 0 <= i < |bs| ==> labels[i] == bs[i].text
  {
    if bs == [] then [] else [bs[0].text] + Labels(bs[1..])
  }

  /** What `interaction.reply` is asked to send. */
  datatype Reply =
    | EphemeralText(content: string)
    | ActiveEmbed(description: string, thumbnail: string)
    | ProfileEmbed(role: Role, community: string, thumbnail: string, banner: string, buttons: seq<Button>)

  /** Only the plain-text reply is sent with `ephemeral: true`. */
  predicate IsEphemeral(r: Reply) {
    r.EphemeralText?
  }

  /** What a command sees: the interaction's guild and the bot's avatar URL. */
  datatype Context = Context(guild: Guild, botAvatar: Option<string>)

  const NoActivePrefix: string := "❌ No active members are online at the moment. "

  function NoActiveText(s: Summary): string {
    NoActivePrefix + ("(" + CountsText(s) + ")")
  }

  /** Markdown bold, `**text**`. */
  function Bold(text: string): string {
    "**" + text + "**"
  }

  function ActiveDescription(s: Summary, guildName: string): string {
    Bold(CountsText(s)) + " members are online in " + Bold(guildName) + "!"
  }

  /** The `/active` branch. With no human online it answers ephemerally with a
      text showing `(0/<total>)`; otherwise with a public embed whose
      description shows `**<active>/<total>**` and the guild name in bold, and
      whose thumbnail is the guild icon when there is one (whether or not it
      is an http URL), else the bot avatar, else the placeholder. */
  function ActiveReply(ctx: Context): (r: Reply)
    ensures var s := PresenceSummary(ctx.guild.members);
      && (r.EphemeralText? || r.ActiveEmbed?)
      && (IsEphemeral(r) <==> s.online == 0)
      && (r.EphemeralText? ==> Contains(r.content, "(" + CountsText(s) + ")"))
      && (r.ActiveEmbed? ==> Contains(r.description, Bold(CountsText(s))))
      && (r.ActiveEmbed? ==> Contains(r.description, Bold(ctx.guild.name)))
      && (r.ActiveEmbed? ==>
            r.thumbnail == if Truthy(ctx.guild.icon) then ctx.guild.icon.value
                           else if Truthy(ctx.botAvatar) then ctx.botAvatar.value
                           else Fallback)
  {
    var s := ActiveSummary(ctx.guild.members);
    NoActiveTextShowsCounts(s);
    ActiveDescriptionShowsCounts(s, ctx.guild.name);
    var thumbnail := GetValidImage(ctx.guild.icon, Some(ctx.guild), ctx.botAvatar);
    if s.online == 0 then EphemeralText(NoActiveText(s))
    else ActiveEmbed(ActiveDescription(s, ctx.guild.name), thumbnail)
  }

  /** The `Community` field of the profile embeds: `${guild.name} (${guild.memberCount} members)`. */
  function CommunityField(g: Guild): string {
    g.name + " (" + NatToString(g.memberCount) + " members)"
  }

  /** The `/developer` and `/owner` branches: a public embed with the role's
      configured images, the guild's community field and the role's row of
      three link buttons. */
  function ProfileReply(role: Role, ctx: Context): (r: Reply)
    ensures r.ProfileEmbed? && !IsEphemeral(r)
    ensures r.thumbnail == Thumbnail(role) && r.banner == Banner(role)
    ensures r.community == CommunityField(ctx.guild)
    ensures |r.buttons| == 3
    ensures forall i :: 0 <= i < 3 ==> r.buttons[i].style == Link
    ensures Labels(r.buttons) == if role == Developer then ["GitHub", "TikTok", "YouTube"]
                                 else ["Facebook", "YouTube", "Instagram"]
  {
    ConfiguredImagesAreShown(role, Some(ctx.guild), ctx.botAvatar);
    ProfileEmbed(role, CommunityField(ctx.guild),
                 GetValidImage(Some(Thumbnail(role)), Some(ctx.guild), ctx.botAvatar),
                 GetValidImage(Some(Banner(role)), Some(ctx.guild), ctx.botAvatar),
                 ButtonRow(role))
  }

  /** The slash-command dispatch: three independent tests of `commandName`,
      each sending one reply when it matches. A registered command gets
      exactly one reply, any other name none. */
  function HandleCommand(commandName: string, ctx: Context): (rs: seq<Reply>)
    ensures |rs| == if commandName in CommandNames(Catalogue()) then 1 else 0
  {
    (if commandName == "active" then [ActiveReply(ctx)] else [])
    + (if commandName == "developer" then [ProfileReply(Developer, ctx)] else [])
    + (if commandName == "owner" then [ProfileReply(Owner, ctx)] else [])
  }

  /** Which reply each registered command gets. */
  lemma DispatchTargets(commandName: string, ctx: Context)
    ensures commandName == "active" ==> HandleCommand(commandName, ctx) == [ActiveReply(ctx)]
    ensures commandName == "developer" ==> HandleCommand(commandName, ctx) == [ProfileReply(Developer, ctx)]
    ensures commandName == "owner" ==> HandleCommand(commandName, ctx) == [ProfileReply(Owner, ctx)]
  {
  }

  /** `/active` answers ephemerally exactly when no human member is online. */
  lemma ActiveEphemeralIff(ctx: Context)
    ensures IsEphemeral(ActiveReply(ctx))
        <==> forall i :: 0 <= i < |ctx.guild.members| ==> !CountsOnline(ctx.guild.members[i])
  {
    NoneOnlineIff(ctx.guild.members);
  }

  /** The "no active members" text ends with the counts in parentheses. */
  lemma NoActiveTextShowsCounts(s: Summary)
    ensures Contains(NoActiveText(s), "(" + CountsText(s) + ")")
  {
    ContainsSuffix(NoActivePrefix, "(" + CountsText(s) + ")");
  }

  /** The embed description shows the counts in bold and the guild name in bold. */
  lemma ActiveDescriptionShowsCounts(s: Summary, guildName: string)
    ensures Contains(ActiveDescription(s, guildName), Bold(CountsText(s)))
    ensures Contains(ActiveDescription(s, guildName), Bold(guildName))
  {
    var pre := Bold(CountsText(s)) + " members are online in ";
    ContainsPrefix(Bold(CountsText(s)), " members are online in ");
    ContainsExtend(pre, Bold(CountsText(s)), Bold(guildName));
    ContainsExtend(pre + Bold(guildName), Bold(CountsText(s)), "!");
    ContainsSuffix(pre, Bold(guildName));
    ContainsExtend(pre + Bold(guildName), Bold(guildName), "!");
  }

  /** The two concrete count texts of the examples below. */
  lemma ExampleCountsTexts()
    ensures "(" + CountsText(Summary(0, 5)) + ")" == "(0/5)"
    ensures Bold(CountsText(Summary(3, 5))) == "**3/5**"
  {
    assert CountsText(Summary(0, 5)) == [DigitChar(0), '/', DigitChar(5)];
    assert CountsText(Summary(3, 5)) == [DigitChar(3), '/', DigitChar(5)];
  }

  /** Five humans, none online: the ephemeral text shows `(0/5)`. */
  lemma NoneOfFiveOnline(ctx: Context)
    requires PresenceSummary(ctx.guild.members) == Summary(0, 5)
    ensures ActiveReply(ctx).EphemeralText? && Contains(ActiveReply(ctx).content, "(0/5)")
  {
    ExampleCountsTexts();
  }

  /** Three of five humans online: the embed shows `**3/5**`. */
  lemma ThreeOfFiveOnline(ctx: Context)
    requires PresenceSummary(ctx.guild.members) == Summary(3, 5)
    ensures ActiveReply(ctx).ActiveEmbed? && Contains(ActiveReply(ctx).description, "**3/5**")
  {
    ExampleCountsTexts();
  }
}
