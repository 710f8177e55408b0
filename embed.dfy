/**
 * The embed data model (`src/embed.rs`): the records an embed is made of, the
 * default embed `Embed::new`, and the JSON object an embed becomes when a packet
 * is serialised (what the `Serialize` derive produces from the field lists).
 */
module Embeds {
  import opened Prelude
  import opened Json

  datatype EmbedFooter = EmbedFooter(text: Option<string>, iconUrl: Option<string>)

  /** The one shape shared by an embed's image, thumbnail and video. */
  datatype EmbedMultimedia = EmbedMultimedia(url: Option<string>, height: Option<Int32>, width: Option<Int32>)

  datatype EmbedProvider = EmbedProvider(name: Option<string>, url: Option<string>)

  datatype EmbedAuthor = EmbedAuthor(name: Option<string>, url: Option<string>, iconUrl: Option<string>)

  datatype EmbedField = EmbedField(name: string, value: string, inline: bool)

  /** The fields of an embed record, including the private type discriminator. */
  datatype RawEmbed = RawEmbed(
    title: Option<string>,
    embedType: string,
    description: Option<string>,
    url: Option<string>,
    color: Int32,
    footer: EmbedFooter,
    image: EmbedMultimedia,
    thumbnail: EmbedMultimedia,
    video: EmbedMultimedia,
    provider: EmbedProvider,
    author: EmbedAuthor,
    fields: seq<EmbedField>)

  const Rich: string := "rich"

  const NoMedia: EmbedMultimedia := EmbedMultimedia(None, None, None)

  /**
   * An embed as the rest of the crate can see it. The discriminator is private to
   * the embed module and only ever set to "rich", so every embed carries "rich".
   */
  type Embed = e: RawEmbed | e.embedType == Rich
    witness RawEmbed(None, Rich, None, None, 0, EmbedFooter(None, None),
                     NoMedia, NoMedia, NoMedia, EmbedProvider(None, None),
                     EmbedAuthor(None, None, None), [])

  // ---------------------------------------------------------------------------
  // Slots: every settable scalar of an embed, addressed uniformly

  /** Which of the three media objects. */
  datatype Media = Image | Thumbnail | Video

  /** Which part of a media object. */
  datatype MediaPart = MediaUrl | Height | Width

  /** One settable scalar of an embed (everything but the field list and the discriminator). */
  datatype Slot =
    | Title | Description | Url | Colour
    | FooterText | FooterIconUrl
    | MediaSlot(media: Media, part: MediaPart)
    | ProviderName | ProviderUrl
    | AuthorName | AuthorUrl | AuthorIconUrl

  /** The content of a slot. */
  datatype SlotValue = Text(text: Option<string>) | Number(number: Option<Int32>) | Plain(plain: Int32)

  function MediaOf(e: Embed, m: Media): EmbedMultimedia {
    match m
    case Image => e.image
    case Thumbnail => e.thumbnail
    case Video => e.video
  }

  function MediaGet(x: EmbedMultimedia, part: MediaPart): SlotValue {
    match part
    case MediaUrl => Text(x.url)
    case Height => Number(x.height)
    case Width => Number(x.width)
  }

  /** The content of slot `s` of `e`. */
  function Get(e: Embed, s: Slot): SlotValue {
    match s
    case Title => Text(e.title)
    case Description => Text(e.description)
    case Url => Text(e.url)
    case Colour => Plain(e.color)
    case FooterText => Text(e.footer.text)
    case FooterIconUrl => Text(e.footer.iconUrl)
    case MediaSlot(m, part) => MediaGet(MediaOf(e, m), part)
    case ProviderName => Text(e.provider.name)
    case ProviderUrl => Text(e.provider.url)
    case AuthorName => Text(e.author.name)
    case AuthorUrl => Text(e.author.url)
    case AuthorIconUrl => Text(e.author.iconUrl)
  }

  /** A slot holding its default: no value, or colour 0. */
  predicate IsUnset(v: SlotValue) {
    v == Text(None) || v == Number(None) || v == Plain(0)
  }

  /** Two embeds that agree on every slot, on the fields and (by their type) on the discriminator are equal. */
  lemma SlotsDetermineEmbed(a: Embed, b: Embed)
    requires forall s: Slot :: Get(a, s) == Get(b, s)
    requires a.fields == b.fields
    ensures a == b
  {
    forall m: Media
      ensures MediaOf(a, m) == MediaOf(b, m)
    {
      assert Get(a, MediaSlot(m, MediaUrl)) == Get(b, MediaSlot(m, MediaUrl));
      assert Get(a, MediaSlot(m, Height)) == Get(b, MediaSlot(m, Height));
      assert Get(a, MediaSlot(m, Width)) == Get(b, MediaSlot(m, Width));
    }
    assert Get(a, Title) == Get(b, Title);
    assert Get(a, Description) == Get(b, Description);
    assert Get(a, Url) == Get(b, Url);
    assert Get(a, Colour) == Get(b, Colour);
    assert Get(a, FooterText) == Get(b, FooterText);
    assert Get(a, FooterIconUrl) == Get(b, FooterIconUrl);
    assert Get(a, ProviderName) == Get(b, ProviderName);
    assert Get(a, ProviderUrl) == Get(b, ProviderUrl);
    assert Get(a, AuthorName) == Get(b, AuthorName);
    assert Get(a, AuthorUrl) == Get(b, AuthorUrl);
    assert Get(a, AuthorIconUrl) == Get(b, AuthorIconUrl);
    assert MediaOf(a, Image) == MediaOf(b, Image);
    assert MediaOf(a, Thumbnail) == MediaOf(b, Thumbnail);
    assert MediaOf(a, Video) == MediaOf(b, Video);
  }

  // ---------------------------------------------------------------------------
  // Embed::new

  /** `Embed::new`: discriminator "rich", every optional slot empty, colour 0, no fields. */
  function New(): (e: Embed)
    ensures forall s: Slot :: IsUnset(Get(e, s))
    ensures e.fields == []
  {
    RawEmbed(None, Rich, None, None, 0, EmbedFooter(None, None),
             NoMedia, NoMedia, NoMedia, EmbedProvider(None, None),
             EmbedAuthor(None, None, None), [])
  }

  // ---------------------------------------------------------------------------
  // The JSON object of an embed

  function OptText(o: Option<string>): Json {
    match o
    case None => Null
    case Some(s) => Str(s)
  }

  function OptNumber(o: Option<Int32>): Json {
    match o
    case None => Null
    case Some(n) => Int(n)
  }

  /** The footer object of the `Serialize` derive. */
  function FooterToJson(f: EmbedFooter): Json {
    Obj(map["text" := OptText(f.text), "icon_url" := OptText(f.iconUrl)])
  }

  /** The object of an image, thumbnail or video, as the derive writes it. */
  function MediaToJson(m: EmbedMultimedia): Json {
    Obj(map["url" := OptText(m.url), "height" := OptNumber(m.height), "width" := OptNumber(m.width)])
  }

  /** The provider object of the derive. */
  function ProviderToJson(p: EmbedProvider): Json {
    Obj(map["name" := OptText(p.name), "url" := OptText(p.url)])
  }

  /** The author object of the derive. */
  function AuthorToJson(a: EmbedAuthor): Json {
    Obj(map["name" := OptText(a.name), "url" := OptText(a.url), "icon_url" := OptText(a.iconUrl)])
  }

  /** The object of one field, as the derive writes it. */
  function FieldToJson(f: EmbedField): Json {
    Obj(map["name" := Str(f.name), "value" := Str(f.value), "inline" := Bool(f.inline)])
  }

  /** A footer object has both keys, each null exactly when that part is unset. */
  lemma FooterToJsonShape(f: EmbedFooter)
    ensures var j := FooterToJson(f);
      && j.Obj? && j.members.Keys == {"text", "icon_url"}
      && (j.members["text"] == Null <==> f.text.None?)
      && (j.members["icon_url"] == Null <==> f.iconUrl.None?)
  {
  }

  /** An image, thumbnail or video object has all three keys, each null exactly when unset. */
  lemma MediaToJsonShape(m: EmbedMultimedia)
    ensures var j := MediaToJson(m);
      && j.Obj? && j.members.Keys == {"url", "height", "width"}
      && (j.members["url"] == Null <==> m.url.None?)
      && (j.members["height"] == Null <==> m.height.None?)
      && (j.members["width"] == Null <==> m.width.None?)
  {
  }

  /** A provider object has both keys, each null exactly when unset. */
  lemma ProviderToJsonShape(p: EmbedProvider)
    ensures var j := ProviderToJson(p);
      && j.Obj? && j.members.Keys == {"name", "url"}
      && (j.members["name"] == Null <==> p.name.None?)
      && (j.members["url"] == Null <==> p.url.None?)
  {
  }

  /** An author object has all three keys, each null exactly when unset. */
  lemma AuthorToJsonShape(a: EmbedAuthor)
    ensures var j := AuthorToJson(a);
      && j.Obj? && j.members.Keys == {"name", "url", "icon_url"}
      && (j.members["name"] == Null <==> a.name.None?)
      && (j.members["url"] == Null <==> a.url.None?)
      && (j.members["icon_url"] == Null <==> a.iconUrl.None?)
  {
  }

  /** A field object has its three keys and no null, since no part of a field is optional. */
  lemma FieldToJsonShape(f: EmbedField)
    ensures var j := FieldToJson(f);
      && j.Obj? && j.members.Keys == {"name", "value", "inline"}
      && (forall k :: k in j.members ==> j.members[k] != Null)
      && j.members["inline"] == Bool(f.inline)
  {
  }

  /** The field list as a JSON array: one object per field, in the same order. */
  function FieldsToJson(fs: seq<EmbedField>): (r: seq<Json>)
    ensures |r| == |fs|
    ensures forall i :: 0 <= i < |fs| ==> r[i] == FieldToJson(fs[i])
  {
    if fs == [] then [] else [FieldToJson(fs[0])] + FieldsToJson(fs[1..])
  }

  /** The keys of an embed object: every record field, under its wire name. */
  const EmbedKeys: set<string> := {
    "title", "type", "description", "url", "color", "footer", "image",
    "thumbnail", "video", "provider", "author", "fields"
  }

  /** The JSON object of an embed: every field present under its wire name, whatever is set. */
  function ToJson(e: Embed): (j: Json)
    ensures j.Obj? && "type" in j.members && j.members["type"] == Str("rich")
  {
    Obj(map[
      "title" := OptText(e.title),
      "type" := Str(e.embedType),
      "description" := OptText(e.description),
      "url" := OptText(e.url),
      "color" := Int(e.color),
      "footer" := FooterToJson(e.footer),
      "image" := MediaToJson(e.image),
      "thumbnail" := MediaToJson(e.thumbnail),
      "video" := MediaToJson(e.video),
      "provider" := ProviderToJson(e.provider),
      "author" := AuthorToJson(e.author),
      "fields" := Arr(FieldsToJson(e.fields))
    ])
  }

  /** The embed list as a JSON array: one object per embed, in the same order. */
  function EmbedsToJson(es: seq<Embed>): (r: seq<Json>)
    ensures |r| == |es|
    ensures forall i :: 0 <= i < |es| ==> r[i] == ToJson(es[i])
  {
    if es == [] then [] else [ToJson(es[0])] + EmbedsToJson(es[1..])
  }

  /** An embed object has exactly the record's keys, whatever is set. */
  lemma ToJsonKeys(e: Embed)
    ensures ToJson(e).Obj? && ToJson(e).members.Keys == EmbedKeys
  {
  }

  /** The scalar members: "type" is "rich", the colour is always a number, an unset option is null. */
  lemma ToJsonScalars(e: Embed)
    ensures var m := ToJson(e).members;
      && m["title"] == OptText(e.title)
      && m["type"] == Str("rich")
      && m["description"] == OptText(e.description)
      && m["url"] == OptText(e.url)
      && m["color"] == Int(e.color)
      && m["fields"] == Arr(FieldsToJson(e.fields))
  {
  }

  /** The sub-object members: always complete objects, whatever is set in them. */
  lemma ToJsonObjects(e: Embed)
    ensures var m := ToJson(e).members;
      && m["footer"] == FooterToJson(e.footer)
      && m["image"] == MediaToJson(e.image)
      && m["thumbnail"] == MediaToJson(e.thumbnail)
      && m["video"] == MediaToJson(e.video)
      && m["provider"] == ProviderToJson(e.provider)
      && m["author"] == AuthorToJson(e.author)
  {
  }

  lemma OptTextInjective(a: Option<string>, b: Option<string>)
    requires OptText(a) == OptText(b)
    ensures a == b
  {
  }

  lemma OptNumberInjective(a: Option<Int32>, b: Option<Int32>)
    requires OptNumber(a) == OptNumber(b)
    ensures a == b
  {
  }

  lemma MediaToJsonInjective(a: EmbedMultimedia, b: EmbedMultimedia)
    requires MediaToJson(a) == MediaToJson(b)
    ensures a == b
  {
    var ma, mb := MediaToJson(a).members, MediaToJson(b).members;
    assert ma["url"] == mb["url"] && ma["height"] == mb["height"] && ma["width"] == mb["width"];
    OptTextInjective(a.url, b.url);
    OptNumberInjective(a.height, b.height);
    OptNumberInjective(a.width, b.width);
  }

  lemma FieldsToJsonInjective(a: seq<EmbedField>, b: seq<EmbedField>)
    requires FieldsToJson(a) == FieldsToJson(b)
    ensures a == b
  {
    forall i | 0 <= i < |a|
      ensures a[i] == b[i]
    {
      var ma, mb := FieldToJson(a[i]).members, FieldToJson(b[i]).members;
      assert ma["name"] == mb["name"] && ma["value"] == mb["value"] && ma["inline"] == mb["inline"];
    }
  }

  lemma FooterToJsonInjective(a: EmbedFooter, b: EmbedFooter)
    requires FooterToJson(a) == FooterToJson(b)
    ensures a == b
  {
    var ma, mb := FooterToJson(a).members, FooterToJson(b).members;
    assert ma["text"] == mb["text"] && ma["icon_url"] == mb["icon_url"];
    OptTextInjective(a.text, b.text);
    OptTextInjective(a.iconUrl, b.iconUrl);
  }

  lemma ProviderToJsonInjective(a: EmbedProvider, b: EmbedProvider)
    requires ProviderToJson(a) == ProviderToJson(b)
    ensures a == b
  {
    var ma, mb := ProviderToJson(a).members, ProviderToJson(b).members;
    assert ma["name"] == mb["name"] && ma["url"] == mb["url"];
    OptTextInjective(a.name, b.name);
    OptTextInjective(a.url, b.url);
  }

  lemma AuthorToJsonInjective(a: EmbedAuthor, b: EmbedAuthor)
    requires AuthorToJson(a) == AuthorToJson(b)
    ensures a == b
  {
    var ma, mb := AuthorToJson(a).members, AuthorToJson(b).members;
    assert ma["name"] == mb["name"] && ma["url"] == mb["url"] && ma["icon_url"] == mb["icon_url"];
    OptTextInjective(a.name, b.name);
    OptTextInjective(a.url, b.url);
    OptTextInjective(a.iconUrl, b.iconUrl);
  }

  /** Distinct embeds give distinct objects: the JSON form loses nothing. */
  lemma ToJsonInjective(a: Embed, b: Embed)
    requires ToJson(a) == ToJson(b)
    ensures a == b
  {
    ToJsonScalars(a);
    ToJsonScalars(b);
    ToJsonObjects(a);
    ToJsonObjects(b);
    var ma := ToJson(a).members;
    assert ma == ToJson(b).members;
    OptTextInjective(a.title, b.title);
    OptTextInjective(a.description, b.description);
    OptTextInjective(a.url, b.url);
    FooterToJsonInjective(a.footer, b.footer);
    MediaToJsonInjective(a.image, b.image);
    MediaToJsonInjective(a.thumbnail, b.thumbnail);
    MediaToJsonInjective(a.video, b.video);
    ProviderToJsonInjective(a.provider, b.provider);
    AuthorToJsonInjective(a.author, b.author);
    FieldsToJsonInjective(a.fields, b.fields);
  }

  /** Distinct embed lists give distinct arrays. */
  lemma EmbedsToJsonInjective(a: seq<Embed>, b: seq<Embed>)
    requires EmbedsToJson(a) == EmbedsToJson(b)
    ensures a == b
  {
    forall i | 0 <= i < |a|
      ensures a[i] == b[i]
    {
      ToJsonInjective(a[i], b[i]);
    }
  }

  /** `obj` with member "embeds" set to the array of embed objects, or unchanged when there are none. */
  function WithEmbeds(obj: map<string, Json>, es: seq<Embed>): map<string, Json> {
    if es == [] then obj else obj["embeds" := Arr(EmbedsToJson(es))]
  }

  /**
   * The loop of both serialisers, `MessagePacket::serialize_packet` and
   * `EditMessagePacket::serialize_packet`: `serde_json::to_value` of every
   * embed, pushed in order. Both serialisers call it.
   */
  method EmbedsArray(es: seq<Embed>) returns (r: seq<Json>)
    ensures r == EmbedsToJson(es)
  {
    r := [];
    for i := 0 to |es|
      invariant |r| == i
      invariant forall k :: 0 <= k < i ==> r[k] == ToJson(es[k])
    {
      r := r + [ToJson(es[i])];
    }
  }
}
