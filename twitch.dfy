/** The Twitch connector: the fixed badge table, the filtering of a user's
    badge map through it, the assembly of a normalised message from one
    chat event, and the connection state held in the `client` field. */
module Twitch {
  import opened Types
  import opened Emotes

  /** A user's badge map as delivered with a message: badge name to version
      string, in the map's iteration (insertion) order. */
  type BadgeInfo = seq<(string, string)>

  /** The seven badges the overlay knows, each with its image URL. */
  const BadgeTable: map<string, string> := map[
    "moderator" := "https://static-cdn.jtvnw.net/badges/v1/3267646d-33f0-4b17-b3df-f923a41db1d0/2",
    "vip" := "https://static-cdn.jtvnw.net/badges/v1/b817aba4-fad8-49e2-b88a-7cc744dfa6ec/2",
    "subscriber" := "https://static-cdn.jtvnw.net/badges/v1/5d9f2208-5dd8-11e7-8513-2ff4adfae661/2",
    "broadcaster" := "https://static-cdn.jtvnw.net/badges/v1/5527c58c-fb7d-422d-b71b-f309dcb85cc1/2",
    "premium" := "https://static-cdn.jtvnw.net/badges/v1/bbbe0db0-a598-423e-86d0-f9fb98ca1933/2",
    "turbo" := "https://static-cdn.jtvnw.net/badges/v1/bd444ec6-8f34-4bf9-91f4-af1e3428d80f/2",
    "partner" := "https://static-cdn.jtvnw.net/badges/v1/d12a2e27-16f6-41d0-ab77-b780518f00a3/2"
  ]

  /** `this.badges[k]` is truthy: the table has an own, non-empty entry. */
  predicate KnownBadge(name: string)
  {
    name in BadgeTable && BadgeTable[name] != ""
  }

  /** The badge test exactly as the lookup on a plain object behaves:
      inherited `Object.prototype` members count as present. */
  predicate KnownBadgeAsWritten(name: string)
  {
    if name in BadgeTable then BadgeTable[name] != "" else name in ObjectPrototypeNames
  }

  /** A badge named "constructor", which is not in the table, passes the
      lookup as written, and would be pushed with the inherited function
      as its URL. */
  lemma PrototypeBadgeAsWritten()
    ensures KnownBadgeAsWritten("constructor")
    ensures !KnownBadge("constructor")
  {
  }

  /** Every entry of the table has a non-empty URL, so the corrected test
      is plain membership. */
  lemma KnownBadgeIsMembership(name: string)
    ensures KnownBadge(name) <==> name in BadgeTable
  {
  }

  /** The badges `parseBadges` returns for a map held as a sequence. */
  function Select(info: BadgeInfo): seq<Badge>
    decreases |info|
  {
    if info == [] then []
    else
      var k := info[|info| - 1].0;
      Select(info[..|info| - 1]) + (if KnownBadge(k) then [Badge(k, BadgeTable[k])] else [])
  }

  /** `parseBadges(info)`: an absent map yields no badges. */
  function SelectBadges(info: Option<BadgeInfo>): seq<Badge>
  {
    if info.None? then [] else Select(info.value)
  }

  lemma SelectBadgesOfNone()
    ensures SelectBadges(None) == []
  {
  }

  /** Selecting over two halves of the map is selecting over each half in
      turn: the result follows the map's order. */
  lemma {:induction false} SelectConcat(a: BadgeInfo, b: BadgeInfo)
    ensures Select(a + b) == Select(a) + Select(b)
    decreases |b|
  {
    if b == [] {
      assert a + b == a;
    } else {
      var init := b[..|b| - 1];
      assert (a + b)[..|a + b| - 1] == a + init;
      assert (a + b)[|a + b| - 1] == b[|b| - 1];
      SelectConcat(a, init);
    }
  }

  /** `name` is a key of the badge map. */
  predicate HasKey(info: BadgeInfo, name: string)
  {
    exists i :: 0 <= i < |info| && info[i].0 == name
  }

  /** A key of a non-empty map is a key of all but its last entry, or the
      last entry's key. */
  lemma HasKeyInit(info: BadgeInfo, name: string)
    requires info != []
    ensures HasKey(info, name) <==>
      HasKey(info[..|info| - 1], name) || info[|info| - 1].0 == name
  {
    var init := info[..|info| - 1];
    if HasKey(init, name) {
      var i :| 0 <= i < |init| && init[i].0 == name;
      assert info[i] == init[i];
    }
    if HasKey(info, name) {
      var i :| 0 <= i < |info| && info[i].0 == name;
      if i < |init| {
        assert init[i] == info[i];
      }
    }
  }

  /** A badge is in the result exactly when its name is a key of the map
      and of the table, and its URL is the table's entry for that name. */
  lemma {:induction false} SelectMembers(info: BadgeInfo, b: Badge)
    ensures b in Select(info) <==>
      HasKey(info, b.name) && b.name in BadgeTable && b.url == BadgeTable[b.name]
    decreases |info|
  {
    if info != [] {
      SelectMembers(info[..|info| - 1], b);
      HasKeyInit(info, b.name);
    }
  }

  /** Names outside the table are dropped, so there are never more badges
      than map entries. */
  lemma {:induction false} SelectLength(info: BadgeInfo)
    ensures |Select(info)| <= |info|
    decreases |info|
  {
    if info != [] {
      SelectLength(info[..|info| - 1]);
    }
  }

  /** Only the badge names matter: the version strings are ignored. */
  lemma {:induction false} SelectIgnoresVersions(info: BadgeInfo, other: BadgeInfo)
    requires |info| == |other|
    requires forall i :: 0 <= i < |info| ==> info[i].0 == other[i].0
    ensures Select(info) == Select(other)
    decreases |info|
  {
    if info != [] {
      var n := |info|;
      var a, b := info[..n - 1], other[..n - 1];
      forall i | 0 <= i < |a| ensures a[i].0 == b[i].0 {
        assert a[i] == info[i] && b[i] == other[i];
      }
      SelectIgnoresVersions(a, b);
    }
  }

  /** The chat library's connection object; only its channel is modelled. */
  datatype ChatSession = ChatSession(channel: string)

  class TwitchService {
    var client: Option<ChatSession>
    var channel: string
    const emotes: EmoteService

    constructor (channel: string, emotes: EmoteService)
      ensures this.client == None && this.channel == channel && this.emotes == emotes
    {
      this.client := None;
      this.channel := channel;
      this.emotes := emotes;
    }

    /** The field effect of `start`: a client for the configured channel. */
    method Start()
      modifies this
      ensures client == Some(ChatSession(channel)) && channel == old(channel)
    {
      client := Some(ChatSession(channel));
    }

    /** `parseBadges`: push one badge per known name, in the map's order. */
    method ParseBadges(info: Option<BadgeInfo>) returns (result: seq<Badge>)
      ensures result == SelectBadges(info)
    {
      result := [];
      if info.None? {
        return;
      }
      var entries := info.value;
      var i := 0;
      while i < |entries|
        invariant 0 <= i <= |entries|
        invariant result == Select(entries[..i])
      {
        var k := entries[i].0;
        assert entries[..i + 1][..i] == entries[..i];
        if KnownBadge(k) {
          result := result + [Badge(k, BadgeTable[k])];
        }
        i := i + 1;
      }
      assert entries[..i] == entries;
    }

    /** The message the `onMessage` callback hands on for one chat event:
        platform Twitch, the event's user and text, the resolved segments
        and the user's badges; no timestamp. */
    method OnMessage(user: string, text: string, emoteOffsets: Option<seq<OffsetEntry>>,
                     badges: Option<BadgeInfo>) returns (msg: ChatMessage)
      ensures msg == ChatMessage(Twitch, user, text,
        Resolve(emotes.globalEmotes, emotes.channelEmotes, text, emoteOffsets),
        Some(SelectBadges(badges)), None)
    {
      var parts := emotes.ParseEmotes(text, emoteOffsets);
      var userBadges := ParseBadges(badges);
      msg := ChatMessage(Twitch, user, text, parts, Some(userBadges), None);
    }

    /** `stop`: the client is dropped, whether or not quitting succeeded. */
    method Stop()
      modifies this
      ensures client == None && channel == old(channel)
    {
      if client.Some? {
        client := None;
      }
    }

    method IsConnected() returns (connected: bool)
      ensures connected <==> client.Some?
    {
      connected := client.Some?;
    }
  }

  /** After `stop`, `isConnected` reports false. */
  method StopDisconnects(service: TwitchService) returns (connected: bool)
    modifies service
    ensures !connected
  {
    service.Stop();
    connected := service.IsConnected();
  }
}
