/** The bot's image configuration and `getValidImage`, the priority chain that
    picks the URL an embed shows. */
module Images {
  import opened Wrappers
  import opened Strings
  import opened Entities

  /** The two roles that have configured images and social links. */
  datatype Role = Developer | Owner

  /** The scheme every configured URL begins with. */
  const Https: string := "https://"

  const DeveloperThumbnail: string := Https + "media.discordapp.net/attachments/1294639687952240682/1361931913274589225/172174951.png?ex=68008d6f&is=67ff3bef&hm=118882e2b15ef6cd948e0bdd38784d9b0554b902580a3bf50bd9eaffb103df48&=&format=webp&quality=lossless"
  const DeveloperBanner: string := Https + "share.creavite.co/67ff358f5502193c79bac8a0.gif"
  const OwnerThumbnail: string := Https + "i.imgur.com/yourPrestigeThumbnail.jpg"
  const OwnerBanner: string := Https + "i.imgur.com/yourPrestigeBanner.jpg"
  /** The placeholder used when nothing else is available. */
  const Fallback: string := Https + "via.placeholder.com/150?text=Fallback+Image"

  function Thumbnail(role: Role): string {
    match role
    case Developer => DeveloperThumbnail
    case Owner => OwnerThumbnail
  }

  function Banner(role: Role): string {
    match role
    case Developer => DeveloperBanner
    case Owner => OwnerBanner
  }

  /** JavaScript truthiness of a value that is a string or absent. */
  predicate Truthy(o: Option<string>) {
    o.Some? && o.value != ""
  }

  /** `primaryUrl && typeof primaryUrl === 'string' && primaryUrl.startsWith('http')`;
      `None` stands for anything that is not a string. The truthiness test
      adds nothing: a string starting with `http` is never empty. */
  predicate IsHttpUrl(primary: Option<string>)
    ensures IsHttpUrl(primary) <==> primary.Some? && StartsWith(primary.value, "http")
  {
    Truthy(primary) && StartsWith(primary.value, "http")
  }

  /** `guild?.iconURL(...)`: absent when there is no guild or it has no icon. */
  function GuildIcon(guild: Option<Guild>): Option<string> {
    match guild
    case None => None
    case Some(g) => g.icon
  }

  /** `getValidImage(primaryUrl, guild, client)`, with the bot avatar
      `client.user.displayAvatarURL()` passed in as `botAvatar`. */
  function GetValidImage(primary: Option<string>, guild: Option<Guild>, botAvatar: Option<string>): (r: string)
    ensures r != ""
  {
    if IsHttpUrl(primary) then primary.value
    else if Truthy(GuildIcon(guild)) then GuildIcon(guild).value
    else if Truthy(botAvatar) then botAvatar.value
    else Fallback
  }

  /** Reference reading of a fallback chain: the first truthy candidate, or the
      default when there is none. */
  function FirstTruthy(candidates: seq<Option<string>>, default: string): (r: string)
    ensures r == default || Some(r) in candidates
    ensures (forall i :: 0 <= i < |candidates| ==> !Truthy(candidates[i])) ==> r == default
  {
    if candidates == [] then default
    else if Truthy(candidates[0]) then candidates[0].value
    else FirstTruthy(candidates[1..], default)
  }

  /** `getValidImage` is the primary URL when it is an http URL, and otherwise
      the first truthy one of guild icon and bot avatar, else the placeholder. */
  lemma GetValidImageIsPriorityChain(primary: Option<string>, guild: Option<Guild>, botAvatar: Option<string>)
    ensures GetValidImage(primary, guild, botAvatar)
         == if IsHttpUrl(primary) then primary.value else FirstTruthy([GuildIcon(guild), botAvatar], Fallback)
  {
    var cs := [GuildIcon(guild), botAvatar];
    assert cs[1..] == [botAvatar];
    assert cs[1..][1..] == [];
  }

  /** An http primary URL is returned unchanged whatever the other candidates. */
  lemma PrimaryWins(primary: Option<string>, guild: Option<Guild>, botAvatar: Option<string>)
    requires IsHttpUrl(primary)
    ensures GetValidImage(primary, guild, botAvatar) == primary.value
  {
  }

  /** The result is always one of the candidates. */
  lemma ResultIsCandidate(primary: Option<string>, guild: Option<Guild>, botAvatar: Option<string>)
    ensures var r := GetValidImage(primary, guild, botAvatar);
      Some(r) == primary || Some(r) == GuildIcon(guild) || Some(r) == botAvatar || r == Fallback
  {
    GetValidImageIsPriorityChain(primary, guild, botAvatar);
  }

  /** A primary URL that is not an http URL is never returned, unless another
      candidate happens to be the same string. */
  lemma InvalidPrimaryNotReturned(primary: Option<string>, guild: Option<Guild>, botAvatar: Option<string>)
    requires !IsHttpUrl(primary) && primary.Some?
    requires primary != GuildIcon(guild) && primary != botAvatar && primary.value != Fallback
    ensures GetValidImage(primary, guild, botAvatar) != primary.value
  {
  }

  /** The configured role images are http URLs, so they are always shown. */
  lemma ConfiguredImagesAreShown(role: Role, guild: Option<Guild>, botAvatar: Option<string>)
    ensures GetValidImage(Some(Thumbnail(role)), guild, botAvatar) == Thumbnail(role)
    ensures GetValidImage(Some(Banner(role)), guild, botAvatar) == Banner(role)
  {
  }
}
