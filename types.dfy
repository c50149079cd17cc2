/** The record types shared by the services: message segments, badges,
    normalised chat messages and the configuration record. */
module Types {

  datatype Option<+T> = None | Some(value: T)

  /** The two platforms a message can come from. */
  datatype Platform = Twitch | YouTube

  /** One renderable segment of a message body: plain text or an inline emote. */
  datatype MessagePart =
    | Text(content: string)
    | Emote(url: string, name: string)

  datatype Badge = Badge(name: string, url: string)

  /** A normalised chat message; `badges` and `timestamp` are optional fields. */
  datatype ChatMessage = ChatMessage(
    platform: Platform,
    user: string,
    text: string,
    parts: seq<MessagePart>,
    badges: Option<seq<Badge>>,
    timestamp: Option<int>)

  /** A JavaScript number as produced by `parseInt`: an integer or NaN. */
  datatype Number = Finite(value: int) | NaN

  datatype TwitchConfig = TwitchConfig(
    enabled: bool,
    channel: Option<string>,
    token: Option<string>,
    sevenTvUserId: Option<string>)

  datatype YouTubeConfig = YouTubeConfig(
    enabled: bool,
    channelId: Option<string>,
    handle: Option<string>)

  datatype ServerConfig = ServerConfig(httpPort: Number, wsPort: Number)

  datatype Config = Config(twitch: TwitchConfig, youtube: YouTubeConfig, server: ServerConfig)

  /** JavaScript truthiness of an optional string: present and not empty. */
  predicate Truthy(s: Option<string>)
  {
    s.Some? && s.value != ""
  }

  /** The text a segment stands for: the content of a text part, the name of an emote. */
  function PartText(p: MessagePart): string
  {
    match p
    case Text(content) => content
    case Emote(_, name) => name
  }

  /** The concatenation of the texts of a segment sequence, in order. */
  function Render(parts: seq<MessagePart>): string
  {
    if parts == [] then "" else PartText(parts[0]) + Render(parts[1..])
  }

  lemma {:induction false} RenderConcat(a: seq<MessagePart>, b: seq<MessagePart>)
    ensures Render(a + b) == Render(a) + Render(b)
  {
    if a == [] {
      assert a + b == b;
    } else {
      assert (a + b)[1..] == a[1..] + b;
      RenderConcat(a[1..], b);
    }
  }
}
