# Presence-and-command Discord bot: verified model of its logic

The bot (one file, `index.js`) keeps a single guild's "online humans / total
humans" count in its Watching activity. It registers three slash commands
(`/active`, `/developer`, `/owner`) and answers each one with a text or an
embed. This project models the logic inside that glue as pure Dafny
functions over abstract inputs, and proves what the code promises:

- **Image fallback** (`Images`): `getValidImage` and the image configuration.
  The primary URL is an `Option<string>`. `None` stands for `null`,
  `undefined` or any value that is not a string, because the code tests
  `typeof primaryUrl === 'string'`. The guild's `iconURL(...)` and the bot's
  `displayAvatarURL()` are `Option<string>` inputs too. The library returns a
  string or `null` there, and the code tests only truthiness, so `Some("")`
  is skipped like `None`.
- **Presence counting** (`Presence`): a member is `Member(isBot, status)`,
  where `status` is `None` when the member has no presence. A member list is
  a `seq<Member>` and `Collection.filter(...).size` is `|Filter(ms, p)|`.
  `updatePresence` and `/active` count in two different ways (one combined
  filter, or two filters one after the other). Both are modelled, and they
  are proved to agree. The activity text `<online>/<total> online` has a
  parser that accepts decimals only as `${n}` prints them (no leading zero).
  A text parses to given counts exactly when it is the activity text of
  those counts.
- **Commands and replies** (`Commands`): the catalogue, the dispatch on
  `commandName`, the `/active` choice between an ephemeral text and a public
  embed, and the `/developer` and `/owner` embeds with their rows of link
  buttons. The source tests `commandName` in three separate `if`s, not an
  `else if` chain. So the handler is modelled as the list of replies it sends,
  and it is proved to send exactly one reply for a registered name and none
  for any other.
- Supporting modules: `Wrappers` (`Option`), `Strings` (`startsWith`,
  `indexOf`, substring occurrence) and `Decimal` (how `${n}` prints a count,
  and its inverse).

Two consequences of the code, both proved:

- A status counts as online only if it is `online`, `idle` or `dnd`
  (index.js:55-58). Any other status, such as `offline`, is not counted, and
  neither is a member without a presence.
- At its second step `getValidImage` returns the guild icon even when that
  icon is the primary URL it just rejected (index.js:34-37). `/active` passes
  the guild icon as the primary URL (index.js:130-134), so it shows the icon
  even when the icon does not start with `http`.

## Model

| member | source | states |
|---|---|---|
| Images.IsHttpUrl | index.js:31 | the primary URL is accepted exactly when it is a string starting with `http`; the truthiness test adds nothing |
| Images.GetValidImage | index.js:29-46 | the chosen image URL is never empty, so every embed always has an image |
| Images.FirstTruthy | index.js:34-45 | a fallback chain returns the default or one of its candidates, and the default whenever no candidate is truthy |
| Images.GetValidImageIsPriorityChain | index.js:29-46 | the result is the primary URL when it is a string starting with `http`; otherwise it is the first truthy value among guild icon (absent without a guild) and bot avatar, else the placeholder |
| Images.PrimaryWins | index.js:31-33 | an http primary URL is returned unchanged, whatever the guild icon and bot avatar are |
| Images.ResultIsCandidate | index.js:34-45 | the result is always the primary URL, the guild icon, the bot avatar or the placeholder |
| Images.InvalidPrimaryNotReturned | index.js:31-45 | a primary URL that is not an http URL is never returned, unless it equals the guild icon, the bot avatar or the placeholder |
| Images.ConfiguredImagesAreShown | index.js:16-26 | the configured developer and owner thumbnails and banners are http URLs, so `getValidImage` always returns them unchanged |
| Presence.HasOnlineStatus | index.js:123-125 | a member has an online status exactly when it has a presence whose status is `online`, `idle` or `dnd` |
| Presence.CountsOnline | index.js:57-58 | a member counts as online exactly when it is not a bot and its presence status is `online`, `idle` or `dnd`; a member without a presence never counts |
| Presence.Filter | index.js:57-61 | filtering keeps exactly the members that satisfy the predicate, and is no longer than its input |
| Presence.FilterMultiplicity | index.js:57-61 | a filter keeps every copy of a member that satisfies the predicate and no copy of one that does not |
| Presence.FilterSubMultiset | index.js:57-61 | a filter's result is a sub-multiset of its input |
| Presence.FilterFilter | index.js:122-125 | filtering the humans by online status gives the same list as one filter with the combined predicate |
| Presence.FilterConcat | index.js:57-61 | filtering distributes over concatenation of member lists |
| Presence.FilterKeepsAll | index.js:57-61 | a filter keeps every member exactly when every member satisfies the predicate |
| Presence.FilterKeepsNone | index.js:57-61 | a filter keeps nobody exactly when no member satisfies the predicate |
| Presence.PresenceSummary | index.js:55-61 | the online count never exceeds the human total, and the human total never exceeds the member count |
| Presence.ActiveSummary | index.js:121-128 | the counts of `/active` (humans first, then online status) equal the counts of `updatePresence` on every member list |
| Presence.SummaryOfConcat | index.js:57-61 | both counts add up over any split of the member list |
| Presence.SummaryOfCons | index.js:57-61 | one more member at the front raises the online count iff it is a human with an online status, and the total iff it is a human |
| Presence.FilterInsert | index.js:57-61 | one more member anywhere in the list raises a filter's size by one iff it satisfies the predicate |
| Presence.InsertMember | index.js:57-61 | one more member anywhere in the list raises the online count iff it is a human with an online status, and the total iff it is a human |
| Presence.AddingBotKeepsSummary | index.js:57-61 | inserting a bot anywhere in the member list changes neither count |
| Presence.AddingAbsentHumanCountsOffline | index.js:57-61 | inserting a human without a presence raises the total by one and leaves the online count unchanged |
| Presence.NoneOnlineIff | index.js:55-59 | the online count is 0 exactly when no member is a non-bot with status `online`, `idle` or `dnd` |
| Presence.AllOnlineIff | index.js:55-61 | the online count equals the total exactly when every human has status `online`, `idle` or `dnd` |
| Presence.ActivityText | index.js:63 | the activity text `<online>/<total> online` reads back as exactly the two counts, in that order |
| Presence.ParseActivityIff | index.js:63 | a text parses to given counts exactly when it is the activity text of those counts |
| Presence.ActivityTextInjective | index.js:63 | different counts always yield different activity texts |
| Presence.UpdatePresence | index.js:49-70 | nothing is published when the guild is not cached or the member fetch fails; otherwise the activity is of type Watching and its text is exactly the activity text of the current (online, total) counts |
| Decimal.NatToString | index.js:63 | a count prints as a non-empty string of decimal digits with no leading zero (`0` itself excepted) |
| Decimal.DecimalValueOfNatToString | index.js:63 | reading a printed count back yields the count |
| Decimal.NatToStringOfDecimalValue | index.js:63 | printing the value of a decimal without a leading zero gives that decimal back |
| Decimal.LeadingDigitPositive | index.js:63 | a decimal that does not start with `0` denotes a positive number |
| Decimal.NatToStringInjective | index.js:63 | different counts print differently |
| Commands.Catalogue | index.js:75-79 | the registered commands are exactly `active`, `developer`, `owner`, in that order, none with options |
| Commands.HandleCommand | index.js:119-224 | a command name in the catalogue gets exactly one reply; any other name gets none |
| Commands.DispatchTargets | index.js:119-224 | `active` gets the `/active` reply, `developer` the developer profile, `owner` the owner profile |
| Commands.ActiveReply | index.js:119-155 | with no human online the reply is ephemeral and shows `(0/<total>)`; otherwise it is a public embed showing `**<active>/<total>**` and the guild name in bold, with the guild icon as thumbnail whenever it is truthy (whether or not it starts with `http`), else the bot avatar, else the placeholder |
| Commands.ActiveEphemeralIff | index.js:136-155 | `/active` answers with an ephemeral text exactly when no member is a human with an online status |
| Commands.NoActiveTextShowsCounts | index.js:137-140 | the "no active members" text contains `(<active>/<total>)` |
| Commands.ActiveDescriptionShowsCounts | index.js:147 | the embed description contains `**<active>/<total>**` and the guild name in bold |
| Commands.ButtonRow | index.js:195-271 | each role's action row is exactly three link-style buttons, labelled GitHub, TikTok, YouTube for the developer and Facebook, YouTube, Instagram for the owner, in that order |
| Commands.ProfileReply | index.js:165-273 | `/developer` and `/owner` reply publicly with the role's configured thumbnail and banner, the `<guild name> (<memberCount> members)` community field, and the role's three link buttons in order |
| Commands.NoneOfFiveOnline | index.js:136-141 | with 0 of 5 humans online, `/active` replies ephemerally with a text containing `(0/5)` |
| Commands.ThreeOfFiveOnline | index.js:144-155 | with 3 of 5 humans online, `/active` replies with an embed whose description contains `**3/5**` |

## Left out

- The chat-platform client itself: login, gateway intents, the `ready` and
  `presenceUpdate` event wiring, the REST `put` of the catalogue, and the
  sending of replies. These are network calls into a foreign library. Replies
  and the published activity are modelled as returned values.
- Async execution and overlapping `updatePresence` runs started by presence
  events. These are concurrency with no logic of their own.
- Console logging, `toLocaleTimeString()`, `setTimestamp()` and the footer
  that names the requesting user. These are I/O and the wall clock.
- Embed decoration: colours, titles, the profile embeds' descriptions, their
  other fields, footers, and all emoji (button emoji included). These have no
  behaviour to prove. The descriptions are long texts that also print
  `${guild.name}` (index.js:175, 234) and `${guild.memberCount}`
  (index.js:237). Of the profile fields, only the `Community` field
  (`<guild name> (<memberCount> members)`) is modelled.
- The `iconURL({ dynamic: true, size: 1024 })` options. The model takes the
  URL the library returns for them as given.
- `process.env` configuration and the guild-cache lookup. The lookup's result
  is the `Option<Guild>` that `UpdatePresence` takes as input.
- Presence.UpdatePresence: the error that a failed `members.fetch()` raises
  (index.js:68-70) is only logged, so the model reduces it to a flag. When the
  flag is set, nothing is published.
- The button-interaction branch and the filter on interaction kind. No code
  path creates a non-link button, so that branch is unreachable.
- The catch-and-reply error paths of the three commands, including a command
  sent outside any guild. They depend on exceptions raised inside the foreign
  library.
