/** The in-memory store that keeps a message from being handled twice. */
module DedupStore {
  import opened Basics
  import opened OrderedMap

  datatype Claim<R> = Claim(expiresAt: int, reply: Option<R>)

  datatype Answer<R> = Claimed | InFlight | Duplicate(cachedReply: R)

  type Table<R> = seq<Slot<Claim<R>>>

  function BuildDedupKey(channel: string, messageId: string): string {
    "gw-dedup:" + channel + ":" + messageId
  }

  /** The channels a message can come from. */
  datatype Channel =
    | Api | ApiServer | BlueBubbles | Discord | DingTalk | Email | Feishu | GoogleChat | HomeAssistant | IMessage | Irc
    | Line | Mattermost | Matrix | MsGraphWebhook | QQ | QQBot | Signal | Slack | Sms | Stdio | Teams | Telegram | WeCom
    | WeComCallback | WeChat | Webhook | WhatsApp | Ws | WeixinIlink | Yuanbao | Zalo

  function Name(channel: Channel): string {
    match channel
    case Api => "api"
    case ApiServer => "api_server"
    case BlueBubbles => "bluebubbles"
    case Discord => "discord"
    case DingTalk => "dingtalk"
    case Email => "email"
    case Feishu => "feishu"
    case GoogleChat => "google_chat"
    case HomeAssistant => "homeassistant"
    case IMessage => "imessage"
    case Irc => "irc"
    case Line => "line"
    case Mattermost => "mattermost"
    case Matrix => "matrix"
    case MsGraphWebhook => "msgraph_webhook"
    case QQ => "qq"
    case QQBot => "qqbot"
    case Signal => "signal"
    case Slack => "slack"
    case Sms => "sms"
    case Stdio => "stdio"
    case Teams => "teams"
    case Telegram => "telegram"
    case WeCom => "wecom"
    case WeComCallback => "wecom_callback"
    case WeChat => "wechat"
    case Webhook => "webhook"
    case WhatsApp => "whatsapp"
    case Ws => "ws"
    case WeixinIlink => "weixin-ilink"
    case Yuanbao => "yuanbao"
    case Zalo => "zalo"
  }

  /** A channel name followed by the separator starts another one followed by the separator. */
  predicate Shadows(channel: string, other: string) {
    channel + ":" <= other + ":"
  }

  lemma SameKeySameRest(channel: string, id: string, other: string, otherId: string)
    ensures BuildDedupKey(channel, id) == BuildDedupKey(other, otherId) <==>
            channel + ":" + id == other + ":" + otherId
  {
    var u, v, n := BuildDedupKey(channel, id), BuildDedupKey(other, otherId), |"gw-dedup:"|;
    assert channel + ":" + id == u[n..] && other + ":" + otherId == v[n..];
    assert u == "gw-dedup:" + (channel + ":" + id) && v == "gw-dedup:" + (other + ":" + otherId);
  }

  /** Texts that go on to the same text are prefixes of each other. */
  lemma PrefixesOfOne(a: string, b: string, x: string, y: string)
    requires a + x == b + y && |a| <= |b|
    ensures a <= b
  {
    assert a == (a + x)[..|a|] == (b + y)[..|a|] == b[..|a|];
  }

  /** A message of the one channel shares its key with a message of the other. */
  ghost predicate Collide(channel: string, other: string) {
    exists id, otherId :: BuildDedupKey(channel, id) == BuildDedupKey(other, otherId)
  }

  /** Any two channel names: messages can share a dedup key exactly when one name with the separator
      starts the other. */
  lemma ChannelsCollideIff(channel: string, other: string)
    ensures Collide(channel, other) <==> Shadows(channel, other) || Shadows(other, channel)
  {
    var a, b := channel + ":", other + ":";
    if Shadows(channel, other) {
      SameKeySameRest(channel, b[|a|..], other, "");
      assert a + b[|a|..] == b + "";
    } else if Shadows(other, channel) {
      SameKeySameRest(channel, "", other, a[|b|..]);
      assert a + "" == b + a[|b|..];
    }
    if id, otherId :| BuildDedupKey(channel, id) == BuildDedupKey(other, otherId) {
      SameKeySameRest(channel, id, other, otherId);
      if |a| <= |b| { PrefixesOfOne(a, b, id, otherId); } else { PrefixesOfOne(b, a, otherId, id); }
    }
  }

  /** For one channel the key tells the messages apart. */
  lemma OneChannelInjective(channel: string, id: string, otherId: string)
    ensures BuildDedupKey(channel, id) == BuildDedupKey(channel, otherId) <==> id == otherId
  {
    SameKeySameRest(channel, id, channel, otherId);
    var a := channel + ":";
    assert (a + id)[|a|..] == id && (a + otherId)[|a|..] == otherId;
  }

  lemma ColonFreeDoNotShadow(channel: string, other: string)
    requires ':' !in channel && ':' !in other && Shadows(channel, other)
    ensures channel == other
  {
    var a, b := channel + ":", other + ":";
    assert b[..|a|] == a && b[|channel|] == a[|channel|] == ':';
    assert forall i | 0 <= i < |other| :: b[i] == other[i];
    assert channel == a[..|channel|] && other == b[..|other|];
  }

  /** The keys of two pairs agree for the same pair alone, for all message ids, exactly when the
      channels are the same or neither shadows the other. */
  lemma DedupKeyInjectiveIff(channel: string, other: string)
    ensures (forall id, otherId :: BuildDedupKey(channel, id) == BuildDedupKey(other, otherId) ==>
                                     channel == other && id == otherId) <==>
            channel == other || (!Shadows(channel, other) && !Shadows(other, channel))
  {
    ChannelsCollideIff(channel, other);
    if channel == other {
      forall id, otherId ensures BuildDedupKey(channel, id) == BuildDedupKey(channel, otherId) ==> id == otherId {
        OneChannelInjective(channel, id, otherId);
      }
    }
  }

  /** The channels up to Mattermost. */
  predicate Early(channel: Channel) {
    match channel
    case Api | ApiServer | BlueBubbles | Discord | DingTalk | Email | Feishu | GoogleChat | HomeAssistant
       | IMessage | Irc | Line | Mattermost => true
    case _ => false
  }

  lemma EarlyHaveNoColon(channel: Channel)
    requires Early(channel)
    ensures ':' !in Name(channel)
  {
  }

  lemma LateHaveNoColon(channel: Channel)
    requires !Early(channel)
    ensures ':' !in Name(channel)
  {
  }

  lemma ChannelsHaveNoColon(channel: Channel)
    ensures ':' !in Name(channel)
  {
    if Early(channel) { EarlyHaveNoColon(channel); } else { LateHaveNoColon(channel); }
  }

  /** The key of a message determines it, for the channels there are. */
  lemma DedupKeyInjective(channel: Channel, id: string, other: Channel, otherId: string)
    ensures BuildDedupKey(Name(channel), id) == BuildDedupKey(Name(other), otherId) <==>
            Name(channel) == Name(other) && id == otherId
  {
    ChannelsHaveNoColon(channel);
    ChannelsHaveNoColon(other);
    ColonFreeInjective(Name(channel), id, Name(other), otherId);
  }

  lemma ColonFreeInjective(channel: string, id: string, other: string, otherId: string)
    requires ':' !in channel && ':' !in other
    ensures BuildDedupKey(channel, id) == BuildDedupKey(other, otherId) <==> channel == other && id == otherId
  {
    if BuildDedupKey(channel, id) == BuildDedupKey(other, otherId) {
      ChannelsCollideIff(channel, other);
      assert Collide(channel, other);
      if Shadows(channel, other) {
        ColonFreeDoNotShadow(channel, other);
      } else {
        ColonFreeDoNotShadow(other, channel);
      }
      OneChannelInjective(channel, id, otherId);
    }
  }

  /** Two messages of different channels with one key, as a name with a colon would allow. */
  lemma ShadowedChannelsCollide()
    ensures BuildDedupKey("a:b", "c") == BuildDedupKey("a", "b:c")
  {
    SameKeySameRest("a:b", "c", "a", "b:c");
    assert "a:b" + ":" + "c" == "a" + ":" + "b:c";
  }

  // ----- the operations on the table -----

  function EvictExpired<R>(t: Table<R>, now: int): Table<R> {
    if t == [] then [] else
      var last := t[|t| - 1];
      EvictExpired(t[..|t| - 1], now) + if last.value.expiresAt <= now then [] else [last]
  }

  /** By how many a table of this size is too large. */
  function Overflow(size: nat, maxEntries: int): (n: nat)
    ensures n <= size
  {
    if size > Max0(maxEntries) then size - Max0(maxEntries) else 0
  }

  /** Only the newest entries fit. */
  function EnforceCapacity<R>(t: Table<R>, maxEntries: int): Table<R> {
    t[Overflow(|t|, maxEntries)..]
  }

  function AnswerTo<R>(t: Table<R>, key: string, now: int): Answer<R> {
    match Get(EvictExpired(t, now), key)
    case None => Claimed
    case Some(claim) => if claim.reply.Some? then Duplicate(claim.reply.value) else InFlight
  }

  function AfterClaim<R>(t: Table<R>, key: string, now: int, ttlMs: int, maxEntries: int): Table<R> {
    var live := EvictExpired(t, now);
    if Has(live, key) then live else EnforceCapacity(live + [Slot(key, Claim(now + ttlMs, None))], maxEntries)
  }

  function AfterReply<R>(t: Table<R>, key: string, reply: R, now: int, ttlMs: int): Table<R> {
    var existing := Get(t, key);
    Set(t, key, Claim(if existing.Some? then existing.value.expiresAt else now + ttlMs, Some(reply)))
  }

  // ----- the class -----

  class InMemoryDedupStore<R> {
    const ttlMs: int
    const maxEntries: int
    var entries: Table<R>

    ghost predicate Valid()
      reads this
    {
      Distinct(entries)
    }

    constructor (ttlMs: int := 60000, maxEntries: int := 1024)
      ensures Valid() && entries == [] && this.ttlMs == ttlMs && this.maxEntries == maxEntries
    {
      this.ttlMs, this.maxEntries := ttlMs, maxEntries;
      entries := [];
    }

    method TryClaim(key: string, now: int) returns (answer: Answer<R>)
      requires Valid()
      modifies this
      ensures Valid()
      ensures answer == AnswerTo(old(entries), key, now)
      ensures entries == AfterClaim(old(entries), key, now, ttlMs, maxEntries)
      ensures answer.Claimed? ==> |entries| <= Max0(maxEntries)
    {
      EvictDistinct(entries, now);
      Evict(now);
      var existing := Get(entries, key);
      if existing.Some? && existing.value.expiresAt > now {
        return if existing.value.reply.Some? then Duplicate(existing.value.reply.value) else InFlight;
      }
      NoneExpired(old(entries), key, now);
      AppendDistinct(entries, Slot(key, Claim(now + ttlMs, None)));
      entries := Set(entries, key, Claim(now + ttlMs, None));
      Trim();
      return Claimed;
    }

    method RecordReply(key: string, reply: R, now: int)
      requires Valid()
      modifies this
      ensures Valid()
      ensures entries == AfterReply(old(entries), key, reply, now, ttlMs)
    {
      var existing := Get(entries, key);
      var expiresAt := if existing.Some? then existing.value.expiresAt else now + ttlMs;
      SetDistinct(entries, key, Claim(expiresAt, Some(reply)));
      entries := Set(entries, key, Claim(expiresAt, Some(reply)));
    }

    method Release(key: string)
      requires Valid()
      modifies this
      ensures Valid()
      ensures entries == Delete(old(entries), key)
    {
      DeleteDistinct(entries, key);
      entries := Delete(entries, key);
    }

    /** Visits the entries in order and deletes the expired ones on the way. */
    method Evict(now: int)
      requires Valid()
      modifies this
      ensures entries == EvictExpired(old(entries), now)
    {
      ghost var all, kept, i := entries, [], 0;
      var visited := 0;
      WalkStarts(all, now);
      while visited < |entries|
        invariant visited == |kept| && Walk(all, i, now, kept, entries)
        decreases |all| - i
      {
        var slot := entries[visited];
        ghost var next := EvictNext(entries, all, i, now, kept);
        if slot.value.expiresAt <= now {
          entries := Delete(entries, slot.key);
        } else {
          visited := visited + 1;
        }
        kept, i := next, i + 1;
      }
      WalkEnds(entries, all, i, now, kept);
    }

    /** Deletes the oldest entries until the rest fit. */
    method Trim()
      requires Valid()
      modifies this
      ensures Valid()
      ensures entries == EnforceCapacity(old(entries), maxEntries)
    {
      ghost var all := entries;
      ghost var i := 0;
      while |entries| > maxEntries
        invariant i <= |all| && entries == all[i..]
        invariant i > 0 ==> |entries| >= Max0(maxEntries)
        decreases |entries|
      {
        if entries == [] {
          break;
        }
        OldestGone(all, i);
        entries := Delete(entries, entries[0].key);
        i := i + 1;
      }
      assert i == Overflow(|all|, maxEntries);
    }
  }

  lemma OldestGone<R>(all: Table<R>, i: nat)
    requires Distinct(all) && i < |all|
    ensures Delete(all[i..], all[i].key) == all[i + 1..] && Distinct(all[i + 1..])
  {
    DeleteAt(all[i..], 0);
    assert all[i..][1..] == all[i + 1..];
  }

  // ----- what eviction keeps -----

  lemma SetDistinct<V>(m: seq<Slot<V>>, key: string, value: V)
    requires Distinct(m)
    ensures Distinct(Set(m, key, value))
  {
    if !Has(m, key) { AppendDistinct(m, Slot(key, value)); }
  }

  /** The first `i` entries have been visited, and of those `kept` are left. */
  ghost predicate Walk<R>(all: Table<R>, i: nat, now: int, kept: Table<R>, entries: Table<R>) {
    i <= |all| && kept == EvictExpired(all[..i], now) && entries == kept + all[i..] && Distinct(entries)
  }

  lemma WalkStarts<R>(all: Table<R>, now: int)
    requires Distinct(all)
    ensures Walk(all, 0, now, [], all)
  {
  }

  lemma WalkEnds<R>(entries: Table<R>, all: Table<R>, i: nat, now: int, kept: Table<R>)
    requires Walk(all, i, now, kept, entries) && |kept| == |entries|
    ensures entries == EvictExpired(all, now)
  {
    assert |all[i..]| == 0 && all[..i] == all;
  }

  /** One step of the walk over the entries: the entry goes, or the walk passes it. */
  lemma EvictNext<R>(entries: Table<R>, all: Table<R>, i: nat, now: int, kept: Table<R>) returns (next: Table<R>)
    requires Walk(all, i, now, kept, entries) && |kept| < |entries|
    ensures i < |all| && entries[|kept|] == all[i]
    ensures if all[i].value.expiresAt <= now
            then next == kept && Walk(all, i + 1, now, next, Delete(entries, all[i].key))
            else |next| == |kept| + 1 && Walk(all, i + 1, now, next, entries)
  {
    next := EvictExpired(all[..i + 1], now);
    assert all[..i + 1][..i] == all[..i];
    SplitAt(kept, all, i);
    if all[i].value.expiresAt <= now {
      DeleteAt(entries, |kept|);
      DeleteDistinct(entries, all[i].key);
    }
  }

  lemma SplitAt<R>(kept: Table<R>, all: Table<R>, i: nat)
    requires i < |all|
    ensures var entries := kept + all[i..];
            entries[|kept|] == all[i] && entries[..|kept|] + entries[|kept| + 1..] == kept + all[i + 1..] &&
            entries == kept + [all[i]] + all[i + 1..]
  {
  }

  lemma {:induction false} EvictKeeps<R>(t: Table<R>, now: int)
    ensures var r := EvictExpired(t, now);
            |r| <= |t| && forall i | 0 <= i < |r| :: r[i] in t && r[i].value.expiresAt > now
  {
    if t != [] {
      var front := t[..|t| - 1];
      EvictKeeps(front, now);
      var kept, r := EvictExpired(front, now), EvictExpired(t, now);
      forall i | 0 <= i < |r| ensures r[i] in t && r[i].value.expiresAt > now {
        if i < |kept| {
          var j :| 0 <= j < |front| && front[j] == kept[i];
          assert t[j] == r[i];
        } else {
          assert r[i] == t[|front|];
        }
      }
    }
  }

  lemma {:induction false} EvictLeaves<R>(t: Table<R>, now: int, i: nat)
    requires i < |t| && t[i].value.expiresAt > now
    ensures t[i] in EvictExpired(t, now)
  {
    var front := t[..|t| - 1];
    if i < |front| {
      EvictLeaves(front, now, i);
      var kept := EvictExpired(front, now);
      var j :| 0 <= j < |kept| && kept[j] == front[i];
      assert EvictExpired(t, now)[j] == t[i];
    } else {
      assert EvictExpired(t, now)[|EvictExpired(front, now)|] == t[i];
    }
  }

  lemma {:induction false} EvictDistinct<R>(t: Table<R>, now: int)
    requires Distinct(t)
    ensures Distinct(EvictExpired(t, now))
  {
    if t != [] {
      var front, last := t[..|t| - 1], t[|t| - 1];
      assert forall i | 0 <= i < |front| :: front[i] == t[i];
      EvictDistinct(front, now);
      EvictKeeps(front, now);
      var kept := EvictExpired(front, now);
      forall i | 0 <= i < |kept| ensures kept[i].key != last.key {
        var j :| 0 <= j < |front| && front[j] == kept[i];
      }
    }
  }

  lemma NoneExpired<R>(t: Table<R>, key: string, now: int)
    ensures var existing := Get(EvictExpired(t, now), key);
            existing.Some? ==> existing.value.expiresAt > now
  {
    EvictKeeps(t, now);
    var r := EvictExpired(t, now);
    if Get(r, key).Some? {
      var i :| 0 <= i < |r| && r[i] == Slot(key, Get(r, key).value);
    }
  }

  // ----- what each operation does, entry by entry -----

  /** Eviction goes through the table in order, */
  lemma {:induction false} EvictConcat<R>(a: Table<R>, b: Table<R>, now: int)
    ensures EvictExpired(a + b, now) == EvictExpired(a, now) + EvictExpired(b, now)
  {
    if b == [] {
      assert a + b == a;
    } else {
      var n := |b| - 1;
      EvictConcat(a, b[..n], now);
      assert (a + b)[..|a| + n] == a + b[..n];
    }
  }

  /** and an entry goes when its time has come. */
  lemma EvictOne<R>(slot: Slot<Claim<R>>, now: int)
    ensures EvictExpired([slot], now) == if now < slot.value.expiresAt then [slot] else []
  {
    assert [slot][..0] == [];
  }

  /** A key with an unexpired claim is not granted: the recorded reply is handed out, if there is one; only
      expired entries go. */
  lemma ClaimRefused<R>(t: Table<R>, q: nat, now: int, ttlMs: int, maxEntries: int)
    requires Distinct(t) && q < |t| && now < t[q].value.expiresAt
    ensures AnswerTo(t, t[q].key, now) ==
            match t[q].value.reply
            case Some(reply) => Duplicate(reply)
            case None => InFlight
    ensures AfterClaim(t, t[q].key, now, ttlMs, maxEntries) == EvictExpired(t, now)
  {
    EvictLeaves(t, now, q);
    EvictDistinct(t, now);
    GetIs(EvictExpired(t, now), t[q]);
  }

  /** Any other key is granted for the time to live, behind the unexpired entries; of all these the newest
      that fit stay. */
  lemma ClaimGranted<R>(t: Table<R>, key: string, now: int, ttlMs: int, maxEntries: int)
    requires forall i | 0 <= i < |t| && t[i].key == key :: t[i].value.expiresAt <= now
    ensures AnswerTo(t, key, now) == Claimed
    ensures var all := EvictExpired(t, now) + [Slot(key, Claim(now + ttlMs, None))];
            var kept := AfterClaim(t, key, now, ttlMs, maxEntries);
            && |kept| == (if |all| <= maxEntries then |all| else if maxEntries <= 0 then 0 else maxEntries)
            && kept == all[|all| - |kept|..]
  {
    var live := EvictExpired(t, now);
    EvictKeeps(t, now);
    forall i | 0 <= i < |live| ensures live[i].key != key {
      assert live[i] in t;
    }
  }

  /** A reply is stored with its claim, in its place and with its expiry; without one it is stored for the
      time to live. */
  lemma ReplyStored<R>(t: Table<R>, q: nat, reply: R, now: int, ttlMs: int)
    requires Distinct(t) && q < |t|
    ensures AfterReply(t, t[q].key, reply, now, ttlMs) ==
            t[q := Slot(t[q].key, Claim(t[q].value.expiresAt, Some(reply)))]
  {
    GetIs(t, t[q]);
  }

  lemma LateReplyStored<R>(t: Table<R>, key: string, reply: R, now: int, ttlMs: int)
    requires forall i | 0 <= i < |t| :: t[i].key != key
    ensures AfterReply(t, key, reply, now, ttlMs) == t + [Slot(key, Claim(now + ttlMs, Some(reply)))]
  {
    assert !Has(t, key);
  }
}
