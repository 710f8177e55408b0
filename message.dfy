/**
 * The create-message packet (`src/message.rs`) and its serialiser: the string
 * members are sent only when non-empty, `tts` always, and the embeds as an
 * ordered array only when there is at least one.
 */
module Messages {
  import opened Json
  import opened Embeds

  datatype MessagePacket = MessagePacket(
    content: string,
    username: string,
    avatarUrl: string,
    tts: bool,
    embeds: seq<Embed>)

  /** Every key a serialised message may carry. */
  const MessageKeys: set<string> := {"content", "username", "avatar_url", "tts", "embeds"}

  /** The JSON object a message packet is sent as. */
  function MessageJson(p: MessagePacket): (j: Json)
    ensures j.Obj? && j.members.Keys <= MessageKeys
    ensures "content" in j.members <==> p.content != ""
    ensures "content" in j.members ==> j.members["content"] == Str(p.content)
    ensures "username" in j.members <==> p.username != ""
    ensures "username" in j.members ==> j.members["username"] == Str(p.username)
    ensures "avatar_url" in j.members <==> p.avatarUrl != ""
    ensures "avatar_url" in j.members ==> j.members["avatar_url"] == Str(p.avatarUrl)
    ensures "tts" in j.members && j.members["tts"] == Bool(p.tts)
    ensures "embeds" in j.members <==> p.embeds != []
    ensures "embeds" in j.members ==> j.members["embeds"] == Arr(EmbedsToJson(p.embeds))
  {
    var texts := WithText(WithText(WithText(map[], "content", p.content), "username", p.username), "avatar_url", p.avatarUrl);
    Obj(WithEmbeds(texts["tts" := Bool(p.tts)], p.embeds))
  }

  /** `MessagePacket::serialize_packet`: fills the object member by member, as the source does. */
  method SerializePacket(p: MessagePacket) returns (j: Json)
    ensures j == MessageJson(p)
  {
    var obj: map<string, Json> := map[];
    if p.content != "" {
      obj := obj["content" := Str(p.content)];
    }
    if p.username != "" {
      obj := obj["username" := Str(p.username)];
    }
    if p.avatarUrl != "" {
      obj := obj["avatar_url" := Str(p.avatarUrl)];
    }
    obj := obj["tts" := Bool(p.tts)];
    if p.embeds != [] {
      var embedsJson := EmbedsArray(p.embeds);
      obj := obj["embeds" := Arr(embedsJson)];
    }
    j := Obj(obj);
  }

  /** An empty message is sent as an object whose only member is `tts`. */
  lemma EmptyMessageIsTtsOnly(p: MessagePacket)
    requires p.content == "" && p.username == "" && p.avatarUrl == "" && p.embeds == []
    ensures MessageJson(p) == Obj(map["tts" := Bool(p.tts)])
  {
  }

  /**
   * Omitting empty strings loses nothing: two packets with the same JSON are the
   * same packet (an omitted key can only mean the empty string).
   */
  lemma MessageJsonInjective(p: MessagePacket, q: MessagePacket)
    requires MessageJson(p) == MessageJson(q)
    ensures p == q
  {
    assert p.content == q.content && p.username == q.username && p.avatarUrl == q.avatarUrl;
    assert p.tts == q.tts;
    if p.embeds != [] {
      EmbedsToJsonInjective(p.embeds, q.embeds);
    }
  }

  /** Adding an embed appends its object to the end of the "embeds" array. */
  lemma AddEmbedAppendsObject(p: MessagePacket, e: Embed)
    ensures MessageJson(p.(embeds := p.embeds + [e])).members["embeds"] == Arr(EmbedsToJson(p.embeds) + [ToJson(e)])
  {
    var r := EmbedsToJson(p.embeds + [e]);
    assert r == EmbedsToJson(p.embeds) + [ToJson(e)];
  }
}
