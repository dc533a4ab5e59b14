/** Member counting and the activity text of `updatePresence` and `/active`. */
module Presence {
  import opened Wrappers
  import opened Strings
  import opened Decimal
  import opened Entities

  /** The presence statuses that count as online. */
  const OnlineStatuses: seq<string> := ["online", "idle", "dnd"]

  predicate IsHuman(m: Member) {
    !m.isBot
  }

  /** `member.presence?.status && onlineStatuses.includes(member.presence.status)`. */
  predicate HasOnlineStatus(m: Member)
    ensures HasOnlineStatus(m) <==> m.status in [Some("online"), Some("idle"), Some("dnd")]
  {
    m.status.Some? && m.status.value != "" && m.status.value in OnlineStatuses
  }

  /** The single filter predicate of `updatePresence`. */
  predicate CountsOnline(m: Member)
    ensures CountsOnline(m) <==> !m.isBot && m.status in [Some("online"), Some("idle"), Some("dnd")]
  {
    IsHuman(m) && HasOnlineStatus(m)
  }

  /** `Collection.filter` on members: those satisfying `p`, in their order. */
  function Filter(s: seq<Member>, p: Member -> bool): (r: seq<Member>)
    ensures |r| <= |s|
    ensures forall x :: x in r <==> x in s && p(x)
  {
    if s == [] then []
    else
      assert s == [s[0]] + s[1..];
      (if p(s[0]) then [s[0]] else []) + Filter(s[1..], p)
  }

  /** A filter keeps every copy of a member that satisfies the predicate and
      no copy of one that does not, so `.size` counts members with their
      multiplicity. */
  lemma {:induction false} FilterMultiplicity(s: seq<Member>, p: Member -> bool, x: Member)
    ensures multiset(Filter(s, p))[x] == if p(x) then multiset(s)[x] else 0
  {
    if s != [] {
      FilterMultiplicity(s[1..], p, x);
      assert s == [s[0]] + s[1..];
      assert Filter(s, p) == (if p(s[0]) then [s[0]] else []) + Filter(s[1..], p);
    }
  }

  /** Hence a filter's result is a sub-multiset of its input. */
  lemma FilterSubMultiset(s: seq<Member>, p: Member -> bool)
    ensures multiset(Filter(s, p)) <= multiset(s)
  {
    forall x { FilterMultiplicity(s, p, x); }
  }

  /** Filtering distributes over concatenation. */
  lemma {:induction false} FilterConcat(a: seq<Member>, b: seq<Member>, p: Member -> bool)
    ensures Filter(a + b, p) == Filter(a, p) + Filter(b, p)
  {
    if a == [] {
      assert a + b == b;
    } else {
      assert (a + b)[1..] == a[1..] + b;
      FilterConcat(a[1..], b, p);
    }
  }

  /** Filtering by `p` and then by `q` is filtering by their conjunction. */
  lemma {:induction false} FilterFilter(s: seq<Member>, p: Member -> bool, q: Member -> bool, pq: Member -> bool)
    requires forall x :: pq(x) == (p(x) && q(x))
    ensures Filter(Filter(s, p), q) == Filter(s, pq)
  {
    if s != [] {
      var head := if p(s[0]) then [s[0]] else [];
      assert Filter(s, p) == head + Filter(s[1..], p);
      FilterConcat(head, Filter(s[1..], p), q);
      FilterFilter(s[1..], p, q, pq);
      if p(s[0]) {
        assert Filter(head, q) == (if q(s[0]) then [s[0]] else []) + Filter([], q);
      }
    }
  }

  /** Nothing is dropped exactly when every element satisfies `p`. */
  lemma {:induction false} FilterKeepsAll(s: seq<Member>, p: Member -> bool)
    ensures |Filter(s, p)| == |s| <==> forall i :: 0 <= i < |s| ==> p(s[i])
  {
    if s != [] {
      FilterKeepsAll(s[1..], p);
      assert forall i :: 1 <= i < |s| ==> s[i] == s[1..][i - 1];
    }
  }

  /** Nothing is kept exactly when no element satisfies `p`. */
  lemma FilterKeepsNone(s: seq<Member>, p: Member -> bool)
    ensures |Filter(s, p)| == 0 <==> forall i :: 0 <= i < |s| ==> !p(s[i])
  {
    if |Filter(s, p)| != 0 {
      var x := Filter(s, p)[0];
      assert x in Filter(s, p);
      var i :| 0 <= i < |s| && s[i] == x;
    }
  }

  /** The non-bot members, `members.filter(member => !member.user.bot)`. */
  function Humans(ms: seq<Member>): seq<Member> {
    Filter(ms, IsHuman)
  }

  /** (online humans, total humans). */
  datatype Summary = Summary(online: nat, total: nat)

  /** The counts `updatePresence` publishes: one filter with the combined
      predicate for the online count, one for the humans. */
  function PresenceSummary(ms: seq<Member>): (s: Summary)
    ensures s.online <= s.total
    ensures s.total <= |ms|
  {
    FilterFilter(ms, IsHuman, HasOnlineStatus, CountsOnline);
    Summary(|Filter(ms, CountsOnline)|, |Humans(ms)|)
  }

  /** The counts `/active` computes: the humans first, then those among them
      with an online status. */
  function ActiveSummary(ms: seq<Member>): (s: Summary)
    ensures s == PresenceSummary(ms)
  {
    FilterFilter(ms, IsHuman, HasOnlineStatus, CountsOnline);
    Summary(|Filter(Humans(ms), HasOnlineStatus)|, |Humans(ms)|)
  }

  /** Counting is additive over a split of the member list. */
  lemma SummaryOfConcat(a: seq<Member>, b: seq<Member>)
    ensures PresenceSummary(a + b).online == PresenceSummary(a).online + PresenceSummary(b).online
    ensures PresenceSummary(a + b).total == PresenceSummary(a).total + PresenceSummary(b).total
  {
    FilterConcat(a, b, CountsOnline);
    FilterConcat(a, b, IsHuman);
  }

  /** How one more member at the front changes the counts. */
  lemma SummaryOfCons(m: Member, ms: seq<Member>)
    ensures PresenceSummary([m] + ms).online == PresenceSummary(ms).online + (if CountsOnline(m) then 1 else 0)
    ensures PresenceSummary([m] + ms).total == PresenceSummary(ms).total + (if IsHuman(m) then 1 else 0)
  {
    assert ([m] + ms)[1..] == ms;
  }

  /** A one-member list is kept by a filter iff its member satisfies the
      predicate. */
  lemma FilterSingleton(m: Member, p: Member -> bool)
    ensures |Filter([m], p)| == if p(m) then 1 else 0
  {
    assert [m][1..] == [];
  }

  /** One more member between two parts of a list is kept by a filter iff it
      satisfies the predicate. */
  lemma FilterInsert(pre: seq<Member>, m: Member, post: seq<Member>, p: Member -> bool)
    ensures |Filter(pre + [m] + post, p)| == |Filter(pre + post, p)| + (if p(m) then 1 else 0)
  {
    FilterConcat(pre + [m], post, p);
    FilterConcat(pre, [m], p);
    FilterSingleton(m, p);
    FilterConcat(pre, post, p);
  }

  /** How one more member anywhere in the list changes the counts. */
  lemma InsertMember(ms: seq<Member>, k: nat, m: Member)
    requires k <= |ms|
    ensures PresenceSummary(ms[..k] + [m] + ms[k..]).online
         == PresenceSummary(ms).online + (if CountsOnline(m) then 1 else 0)
    ensures PresenceSummary(ms[..k] + [m] + ms[k..]).total
         == PresenceSummary(ms).total + (if IsHuman(m) then 1 else 0)
  {
    assert ms[..k] + ms[k..] == ms;
    FilterInsert(ms[..k], m, ms[k..], CountsOnline);
    FilterInsert(ms[..k], m, ms[k..], IsHuman);
  }

  /** A bot inserted anywhere in the list changes neither count. */
  lemma AddingBotKeepsSummary(ms: seq<Member>, k: nat, bot: Member)
    requires k <= |ms|
    requires bot.isBot
    ensures PresenceSummary(ms[..k] + [bot] + ms[k..]) == PresenceSummary(ms)
  {
    InsertMember(ms, k, bot);
  }

  /** A human without a presence adds to the total and never to the online
      count. */
  lemma AddingAbsentHumanCountsOffline(ms: seq<Member>, k: nat)
    requires k <= |ms|
    ensures PresenceSummary(ms[..k] + [Member(false, None)] + ms[k..]).online == PresenceSummary(ms).online
    ensures PresenceSummary(ms[..k] + [Member(false, None)] + ms[k..]).total == PresenceSummary(ms).total + 1
  {
    InsertMember(ms, k, Member(false, None));
  }

  /** Nobody is online exactly when no member is a human with an online
      status. */
  lemma NoneOnlineIff(ms: seq<Member>)
    ensures PresenceSummary(ms).online == 0 <==> forall i :: 0 <= i < |ms| ==> !CountsOnline(ms[i])
  {
    FilterKeepsNone(ms, CountsOnline);
  }

  /** Everyone counted is online exactly when every human has an online
      status. */
  lemma AllOnlineIff(ms: seq<Member>)
    ensures PresenceSummary(ms).online == PresenceSummary(ms).total
        <==> forall i :: 0 <= i < |ms| ==> IsHuman(ms[i]) ==> HasOnlineStatus(ms[i])
  {
    var hs := Humans(ms);
    FilterFilter(ms, IsHuman, HasOnlineStatus, CountsOnline);
    FilterKeepsAll(hs, HasOnlineStatus);
    if forall i :: 0 <= i < |ms| ==> IsHuman(ms[i]) ==> HasOnlineStatus(ms[i]) {
      forall j | 0 <= j < |hs| ensures HasOnlineStatus(hs[j]) {
        assert hs[j] in hs;
      }
    } else {
      var i :| 0 <= i < |ms| && IsHuman(ms[i]) && !HasOnlineStatus(ms[i]);
      assert ms[i] in hs;
    }
  }

  const OnlineSuffix: string := " online"

  /** `<online>/<total>`, as the bot prints the counts. */
  function CountsText(s: Summary): string {
    NatToString(s.online) + "/" + NatToString(s.total)
  }

  /** Reads a text of the shape `<decimal>/<decimal> online`, each decimal as
      `${n}` prints it, back into counts. */
  function ParseActivity(text: string): Option<Summary> {
    match IndexOf(text, '/')
    case None => None
    case Some(i) =>
      var left, rest := text[..i], text[i + 1..];
      if |rest| >= |OnlineSuffix| && rest[|rest| - |OnlineSuffix|..] == OnlineSuffix
         && IsCanonicalDecimal(left) && IsCanonicalDecimal(rest[..|rest| - |OnlineSuffix|])
      then Some(Summary(DecimalValue(left), DecimalValue(rest[..|rest| - |OnlineSuffix|])))
      else None
  }

  /** The activity text `${onlineMembers}/${totalHumans} online`: it reads
      back as exactly the two counts, in that order. */
  function ActivityText(s: Summary): (text: string)
    ensures ParseActivity(text) == Some(s)
  {
    var a, b := NatToString(s.online), NatToString(s.total);
    var t := CountsText(s) + OnlineSuffix;
    assert t == a + ['/'] + (b + OnlineSuffix);
    IndexOfAfterPrefix(a, '/', b + OnlineSuffix);
    var rest := t[|a| + 1..];
    assert t[..|a|] == a;
    assert rest == b + OnlineSuffix;
    assert rest[..|rest| - |OnlineSuffix|] == b;
    DecimalValueOfNatToString(s.online);
    DecimalValueOfNatToString(s.total);
    t
  }

  /** The parser accepts a text for some counts exactly when the text is the
      activity text of those counts: printing and parsing are inverses. */
  lemma ParseActivityIff(text: string, s: Summary)
    ensures ParseActivity(text) == Some(s) <==> text == ActivityText(s)
  {
    if ParseActivity(text) == Some(s) {
      var i := IndexOf(text, '/').value;
      var left, rest := text[..i], text[i + 1..];
      var mid := rest[..|rest| - |OnlineSuffix|];
      NatToStringOfDecimalValue(left);
      NatToStringOfDecimalValue(mid);
      assert rest == mid + OnlineSuffix;
      assert text == left + "/" + rest;
    }
  }

  /** Different counts give different activity texts. */
  lemma ActivityTextInjective(s: Summary, t: Summary)
    ensures ActivityText(s) == ActivityText(t) ==> s == t
  {
  }

  datatype ActivityType = Watching

  /** The bot's visible activity, `client.user.setActivity(name, { type })`. */
  datatype Activity = Activity(name: string, kind: ActivityType)

  /** One run of `updatePresence` on the guild the cache returned for the
      configured id. `fetchFailed` says whether `guild.members.fetch()`
      rejected, in which case the error is only logged. Nothing is published
      without a guild or after a failed fetch; otherwise the Watching
      activity with the current counts. */
  function UpdatePresence(cached: Option<Guild>, fetchFailed: bool): (r: Option<Activity>)
    ensures r.None? <==> cached.None? || fetchFailed
    ensures r.Some? ==> r.value.kind == Watching
    ensures r.Some? ==> ParseActivity(r.value.name) == Some(PresenceSummary(cached.value.members))
  {
    match cached
    case None => None
    case Some(g) =>
      if fetchFailed then None
      else Some(Activity(ActivityText(PresenceSummary(g.members)), Watching))
  }
}
