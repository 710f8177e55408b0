/**
 * The edit-message packet (`src/edit.rs`) and its serialiser: the content is sent
 * only when non-empty and the embeds as an ordered array only when there is at
 * least one. An edit carries no username, avatar or text-to-speech flag.
 */
module Edits {
  import opened Json
  import opened Embeds

  datatype EditMessagePacket = EditMessagePacket(content: string, embeds: seq<Embed>)

  /** Every key a serialised edit may carry. */
  const EditKeys: set<string> := {"content", "embeds"}

  /** The JSON object an edit packet is sent as. */
  function EditJson(p: EditMessagePacket): (j: Json)
    ensures j.Obj? && j.members.Keys <= EditKeys
    ensures "username" !in j.members && "avatar_url" !in j.members && "tts" !in j.members
    ensures "content" in j.members <==> p.content != ""
    ensures "content" in j.members ==> j.members["content"] == Str(p.content)
    ensures "embeds" in j.members <==> p.embeds != []
    ensures "embeds" in j.members ==> j.members["embeds"] == Arr(EmbedsToJson(p.embeds))
  {
    Obj(WithEmbeds(WithText(map[], "content", p.content), p.embeds))
  }

  /** `EditMessagePacket::serialize_packet`: fills the object member by member. */
  method SerializePacket(p: EditMessagePacket) returns (j: Json)
    ensures j == EditJson(p)
  {
    var obj: map<string, Json> := map[];
    if p.content != "" {
      obj := obj["content" := Str(p.content)];
    }
    if p.embeds != [] {
      var embedsJson := EmbedsArray(p.embeds);
      obj := obj["embeds" := Arr(embedsJson)];
    }
    j := Obj(obj);
  }

  /** An empty edit is sent as the empty object. */
  lemma EmptyEditIsEmptyObject(p: EditMessagePacket)
    requires p.content == "" && p.embeds == []
    ensures EditJson(p) == Obj(map[])
  {
  }

  /** One embed is sent as a one-element array holding that embed's object. */
  lemma OneEmbedIsOneElementArray(p: EditMessagePacket)
    requires |p.embeds| == 1
    ensures EditJson(p).members["embeds"] == Arr([ToJson(p.embeds[0])])
  {
  }

  /** Two edits with the same JSON are the same edit. */
  lemma EditJsonInjective(p: EditMessagePacket, q: EditMessagePacket)
    requires EditJson(p) == EditJson(q)
    ensures p == q
  {
    if p.embeds != [] {
      EmbedsToJsonInjective(p.embeds, q.embeds);
    }
  }
}
