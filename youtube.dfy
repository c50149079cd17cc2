/** The YouTube connector: the conversion of a live-chat message, an array
    of runs each carrying either text or an emoji image, into segments and
    into flat text; the assembly of a normalised message from one chat
    item; and the connection state held in the `chat` field. */
module YouTube {
  import opened Types

  /** One run of a live-chat message: its text, or the URL and alternative
      text of an emoji image. Absent properties are `None`. */
  datatype Run = Run(text: Option<string>, url: Option<string>, alt: Option<string>)

  /** The `message` property of a chat item: an array of runs, or any
      other value (absent, null, not an array). */
  datatype Message = NotArray | Runs(runs: seq<Run>)

  datatype Author = Author(name: Option<string>)

  /** A chat item as the chat library delivers it; `author` may be absent. */
  datatype ChatItem = ChatItem(author: Option<Author>, message: Message)

  /** The segment one run becomes: its text when truthy, else an emote when
      its URL is truthy (named by its alternative text, or "emote"), else
      nothing. */
  function RunPart(m: Run): Option<MessagePart>
  {
    if Truthy(m.text) then Some(Text(m.text.value))
    else if Truthy(m.url) then Some(Emote(m.url.value, if Truthy(m.alt) then m.alt.value else "emote"))
    else None
  }

  /** The segments `parseMessage` pushes for a sequence of runs. */
  function RunParts(runs: seq<Run>): seq<MessagePart>
    decreases |runs|
  {
    if runs == [] then []
    else
      var p := RunPart(runs[|runs| - 1]);
      RunParts(runs[..|runs| - 1]) + (if p.Some? then [p.value] else [])
  }

  function MessageParts(msg: Message): seq<MessagePart>
  {
    if msg.NotArray? then [] else RunParts(msg.runs)
  }

  /** The text one run contributes: `m.text || m.alt || ""`. */
  function RunText(m: Run): string
  {
    if Truthy(m.text) then m.text.value else if Truthy(m.alt) then m.alt.value else ""
  }

  function RunsText(runs: seq<Run>): string
    decreases |runs|
  {
    if runs == [] then "" else RunsText(runs[..|runs| - 1]) + RunText(runs[|runs| - 1])
  }

  /** `extractText`: the runs' texts joined with nothing between them; ""
      for anything that is not an array. */
  function ExtractText(msg: Message): string
  {
    if msg.NotArray? then "" else RunsText(msg.runs)
  }

  lemma NotArrayIsEmpty()
    ensures MessageParts(NotArray) == [] && ExtractText(NotArray) == ""
  {
  }

  /** A run yields a text segment exactly when its text is truthy, an
      emote exactly when its text is not and its URL is, and otherwise
      nothing. */
  lemma RunPartCases(m: Run)
    ensures RunPart(m).Some? && RunPart(m).value.Text? <==> Truthy(m.text)
    ensures RunPart(m).Some? && RunPart(m).value.Emote? <==> !Truthy(m.text) && Truthy(m.url)
    ensures RunPart(m).None? <==> !Truthy(m.text) && !Truthy(m.url)
    ensures RunPart(m).Some? && RunPart(m).value.Emote? ==>
      RunPart(m).value.url == m.url.value &&
      RunPart(m).value.name == (if Truthy(m.alt) then m.alt.value else "emote")
  {
  }

  /** Converting two stretches of runs one after the other is converting
      them together: segments keep the order of their runs. */
  lemma {:induction false} RunPartsConcat(a: seq<Run>, b: seq<Run>)
    ensures RunParts(a + b) == RunParts(a) + RunParts(b)
    decreases |b|
  {
    if b == [] {
      assert a + b == a;
    } else {
      var init := b[..|b| - 1];
      assert (a + b)[..|a + b| - 1] == a + init;
      assert (a + b)[|a + b| - 1] == b[|b| - 1];
      RunPartsConcat(a, init);
    }
  }

  lemma {:induction false} RunsTextConcat(a: seq<Run>, b: seq<Run>)
    ensures RunsText(a + b) == RunsText(a) + RunsText(b)
    decreases |b|
  {
    if b == [] {
      assert a + b == a;
    } else {
      var init := b[..|b| - 1];
      assert (a + b)[..|a + b| - 1] == a + init;
      assert (a + b)[|a + b| - 1] == b[|b| - 1];
      RunsTextConcat(a, init);
    }
  }

  /** No run yields more than one segment. */
  lemma {:induction false} RunPartsLength(runs: seq<Run>)
    ensures |RunParts(runs)| <= |runs|
    decreases |runs|
  {
    if runs != [] {
      RunPartsLength(runs[..|runs| - 1]);
    }
  }

  /** A run renders as the text it contributes when it has truthy text, or
      a truthy URL together with truthy alternative text. */
  predicate Agrees(m: Run)
  {
    Truthy(m.text) || (Truthy(m.url) && Truthy(m.alt))
  }

  /** When every run agrees, the segments spell out exactly the extracted
      text; the fallback text segment then carries the same text as well. */
  lemma {:induction false} RenderRunParts(runs: seq<Run>)
    requires forall i :: 0 <= i < |runs| ==> Agrees(runs[i])
    ensures Render(RunParts(runs)) == RunsText(runs)
    decreases |runs|
  {
    if runs != [] {
      var init := runs[..|runs| - 1];
      var m := runs[|runs| - 1];
      assert forall i :: 0 <= i < |init| ==> Agrees(init[i]) by {
        forall i | 0 <= i < |init| ensures Agrees(init[i]) { assert init[i] == runs[i]; }
      }
      RenderRunParts(init);
      assert Agrees(m);
      var p := RunPart(m).value;
      RenderConcat(RunParts(init), [p]);
      assert [p][1..] == [];
    }
  }

  /** An emoji without alternative text is named "emote" in the segments
      but contributes nothing to the extracted text. */
  lemma EmojiWithoutAlt()
    ensures var msg := Runs([Run(None, Some("u"), None)]);
      Render(MessageParts(msg)) == "emote" && ExtractText(msg) == ""
  {
    var runs := [Run(None, Some("u"), None)];
    assert runs[..0] == [];
    assert RunParts(runs) == [Emote("u", "emote")];
    assert [Emote("u", "emote")][1..] == [];
  }

  /** `item.author?.name || "Unknown"`. */
  function UserName(item: ChatItem): string
  {
    if item.author.Some? && Truthy(item.author.value.name) then item.author.value.name.value
    else "Unknown"
  }

  /** The chat library's live-chat object, created for a channel ID when
      one is configured and otherwise for the handle. */
  datatype Target = ByChannelId(channelId: string) | ByHandle(handle: Option<string>)

  datatype LiveChat = LiveChat(target: Target)

  class YouTubeService {
    var chat: Option<LiveChat>
    var channelId: Option<string>
    var handle: Option<string>

    constructor (channelId: Option<string>, handle: Option<string>)
      ensures chat == None && this.channelId == channelId && this.handle == handle
    {
      chat := None;
      this.channelId := channelId;
      this.handle := handle;
    }

    /** The field effect of `start`: a live chat for the channel ID when it
        is truthy, else for the handle. */
    method Start()
      modifies this
      ensures chat == Some(LiveChat(if Truthy(channelId) then ByChannelId(channelId.value) else ByHandle(handle)))
      ensures channelId == old(channelId) && handle == old(handle)
    {
      var target := if Truthy(channelId) then ByChannelId(channelId.value) else ByHandle(handle);
      chat := Some(LiveChat(target));
    }

    /** `parseMessage`: push one segment per run that has one, in order. */
    method ParseMessage(msg: Message) returns (parts: seq<MessagePart>)
      ensures parts == MessageParts(msg)
    {
      parts := [];
      if msg.NotArray? {
        return;
      }
      var runs := msg.runs;
      var i := 0;
      while i < |runs|
        invariant 0 <= i <= |runs|
        invariant parts == RunParts(runs[..i])
      {
        var m := runs[i];
        assert runs[..i + 1][..i] == runs[..i];
        if Truthy(m.text) {
          parts := parts + [Text(m.text.value)];
        } else if Truthy(m.url) {
          parts := parts + [Emote(m.url.value, if Truthy(m.alt) then m.alt.value else "emote")];
        }
        i := i + 1;
      }
      assert runs[..i] == runs;
    }

    /** The message the `chat` handler hands on for one item: platform
        YouTube, the author's name or "Unknown", the extracted text, and the
        segments, or a single text segment of the extracted text when there
        are none. So the segments are never empty. */
    method OnChat(item: ChatItem) returns (out: ChatMessage)
      ensures out.platform == YouTube && out.user == UserName(item)
      ensures out.text == ExtractText(item.message)
      ensures out.parts != []
      ensures MessageParts(item.message) != [] ==> out.parts == MessageParts(item.message)
      ensures MessageParts(item.message) == [] ==> out.parts == [Text(ExtractText(item.message))]
      ensures out.badges == None && out.timestamp == None
    {
      var user := UserName(item);
      var parts := ParseMessage(item.message);
      var text := ExtractText(item.message);
      out := ChatMessage(YouTube, user, text, if |parts| > 0 then parts else [Text(text)], None, None);
    }

    /** `stop`: the chat is dropped, whether or not stopping succeeded. */
    method Stop()
      modifies this
      ensures chat == None && channelId == old(channelId) && handle == old(handle)
    {
      if chat.Some? {
        chat := None;
      }
    }

    method IsConnected() returns (connected: bool)
      ensures connected <==> chat.Some?
    {
      connected := chat.Some?;
    }
  }

  /** After `stop`, `isConnected` reports false. */
  method StopDisconnects(service: YouTubeService) returns (connected: bool)
    modifies service
    ensures !connected
  {
    service.Stop();
    connected := service.IsConnected();
  }
}
