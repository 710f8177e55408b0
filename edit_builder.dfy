/**
 * `EditMessageBuilder` (`src/edit_builder.rs`): owns one edit packet, starts with
 * the given content and no embeds, appends embeds, and hands the packet back on
 * `build`.
 */
module EditBuilders {
  import opened Json
  import opened Embeds
  import opened Edits

  class EditMessageBuilder {
    var message: EditMessagePacket

    /** `EditMessageBuilder::new`: the content given and no embeds. */
    constructor (content: string)
      ensures message == EditMessagePacket(content, [])
    {
      message := EditMessagePacket(content, []);
    }

    /** Appends `embed` after the embeds already added, with no limit on their number. */
    method AddEmbed(embed: Embed)
      modifies this
      ensures message == old(message).(embeds := old(message.embeds) + [embed])
      ensures |message.embeds| == |old(message.embeds)| + 1
    {
      message := message.(embeds := message.embeds + [embed]);
    }

    /** `build`: the packet as accumulated. */
    method Build() returns (p: EditMessagePacket)
      ensures p == message
    {
      p := message;
    }
  }

  /** An edit with content and one embed sends that embed as a one-element array. */
  method ContentAndOneEmbed(e: Embed) returns (j: Json)
    ensures j == Obj(map["content" := Str("x"), "embeds" := Arr([ToJson(e)])])
  {
    var b := new EditMessageBuilder("x");
    b.AddEmbed(e);
    var p := b.Build();
    j := SerializePacket(p);
    assert EmbedsToJson(p.embeds) == [ToJson(e)];
  }

  /** An edit with no embeds omits the "embeds" key. */
  method ContentOnly() returns (j: Json)
    ensures j == Obj(map["content" := Str("x")])
  {
    var b := new EditMessageBuilder("x");
    var p := b.Build();
    j := SerializePacket(p);
  }
}
