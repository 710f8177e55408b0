/**
 * `MessageBuilder` (`src/message_builder.rs`): owns one message packet, starts
 * with the given content and text-to-speech flag, overwrites the username and
 * avatar on request, appends embeds, and hands the packet back on `build`.
 */
module MessageBuilders {
  import opened Json
  import opened Embeds
  import opened Messages

  class MessageBuilder {
    var message: MessagePacket

    /** `MessageBuilder::new`: the content and flag given, no username, no avatar, no embeds. */
    constructor (content: string, tts: bool)
      ensures message == MessagePacket(content, "", "", tts, [])
    {
      message := MessagePacket(content, "", "", tts, []);
    }

    /** Overwrites the username; nothing else changes. */
    method WithUsername(username: string)
      modifies this
      ensures message == old(message).(username := username)
    {
      message := message.(username := username);
    }

    /** Overwrites the avatar url; nothing else changes. */
    method WithAvatarUrl(avatarUrl: string)
      modifies this
      ensures message == old(message).(avatarUrl := avatarUrl)
    {
      message := message.(avatarUrl := avatarUrl);
    }

    /** Appends `embed` after the embeds already added, with no limit on their number. */
    method AddEmbed(embed: Embed)
      modifies this
      ensures message == old(message).(embeds := old(message.embeds) + [embed])
      ensures |message.embeds| == |old(message.embeds)| + 1
    {
      message := message.(embeds := message.embeds + [embed]);
    }

    /** `build`: the packet as accumulated. */
    method Build() returns (p: MessagePacket)
      ensures p == message
    {
      p := message;
    }
  }

  /** `MessageBuilder::new("Hi", false)` is sent as `{"content":"Hi","tts":false}`. */
  method HiMessage() returns (j: Json)
    ensures j == Obj(map["content" := Str("Hi"), "tts" := Bool(false)])
  {
    var b := new MessageBuilder("Hi", false);
    var p := b.Build();
    j := SerializePacket(p);
  }

  /** A username set twice keeps only the second value; eleven embeds are all kept. */
  method Overwrites(e: Embed) returns (p: MessagePacket)
    ensures p.username == "second" && p.avatarUrl == "" && p.content == ""
    ensures p.embeds == seq(11, _ => e)
  {
    var b := new MessageBuilder("", true);
    b.WithUsername("first");
    b.WithUsername("second");
    for i := 0 to 11
      invariant b.message.username == "second" && b.message.avatarUrl == "" && b.message.content == ""
      invariant b.message.embeds == seq(i, _ => e)
    {
      b.AddEmbed(e);
    }
    p := b.Build();
  }
}
