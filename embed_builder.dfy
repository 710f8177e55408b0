/**
 * `EmbedBuilder` (`src/embed_builder.rs`): a builder that owns one embed, starts
 * from `Embed::new`, overwrites one part of it per `with_*` call, appends one
 * field per `add_field` call and hands the embed back on `build`.
 *
 * Each builder call is described twice: `Step` is what the call does to the
 * embed (the source's field assignments), and `Writes`/`Appended` say
 * declaratively which slots it overwrites with what and which fields it adds.
 * `StepSpec` ties the two together; `ApplyLastWrite` and `ApplyFields` lift that
 * to whole call chains (last write wins, fields in call order).
 */
module EmbedBuilders {
  import opened Prelude
  import opened Json
  import opened Embeds

  /** One builder call, with its arguments. */
  datatype Op =
    | SetTitle(title: string)
    | SetDescription(description: string)
    | SetUrl(url: string)
    | SetFooterText(text: string)
    | SetFooterUrl(iconUrl: string)
    | SetMediaUrl(media: Media, mediaUrl: string)
    | SetMediaDims(media: Media, width: Int32, height: Int32)
    | SetProvider(name: string, providerUrl: string)
    | SetAuthor(authorName: string, authorUrl: Option<string>, authorIcon: Option<string>)
    | SetColor(color: Int32)
    | AddField(fieldName: string, fieldValue: string, inline: bool)

  function WithMedia(e: Embed, m: Media, x: EmbedMultimedia): Embed {
    match m
    case Image => e.(image := x)
    case Thumbnail => e.(thumbnail := x)
    case Video => e.(video := x)
  }

  /**
   * What one builder call does to the embed it holds. Only `add_field`
   * touches the field list, and it appends; which slots a call writes is
   * `StepSpec`.
   */
  function Step(e: Embed, op: Op): (r: Embed)
    ensures r.fields == e.fields + Appended(op)
  {
    match op
    case SetTitle(t) => e.(title := Some(t))
    case SetDescription(d) => e.(description := Some(d))
    case SetUrl(u) => e.(url := Some(u))
    case SetFooterText(t) => e.(footer := e.footer.(text := Some(t)))
    case SetFooterUrl(u) => e.(footer := e.footer.(iconUrl := Some(u)))
    case SetMediaUrl(m, u) => WithMedia(e, m, MediaOf(e, m).(url := Some(u)))
    case SetMediaDims(m, w, h) => WithMedia(e, m, MediaOf(e, m).(width := Some(w), height := Some(h)))
    case SetProvider(n, u) => e.(provider := EmbedProvider(Some(n), Some(u)))
    case SetAuthor(n, u, i) =>
      var a1 := e.author.(name := Some(n));
      var a2 := if u.Some? then a1.(url := Some(u.value)) else a1;
      var a3 := if i.Some? then a2.(iconUrl := Some(i.value)) else a2;
      e.(author := a3)
    case SetColor(c) => e.(color := c)
    case AddField(n, v, inl) => e.(fields := e.fields + [EmbedField(n, v, inl)])
  }

  /** The slots a call overwrites, each with its new content. */
  function Writes(op: Op): map<Slot, SlotValue> {
    match op
    case SetTitle(t) => map[Title := Text(Some(t))]
    case SetDescription(d) => map[Description := Text(Some(d))]
    case SetUrl(u) => map[Url := Text(Some(u))]
    case SetFooterText(t) => map[FooterText := Text(Some(t))]
    case SetFooterUrl(u) => map[FooterIconUrl := Text(Some(u))]
    case SetMediaUrl(m, u) => map[MediaSlot(m, MediaUrl) := Text(Some(u))]
    case SetMediaDims(m, w, h) => map[MediaSlot(m, Width) := Number(Some(w)), MediaSlot(m, Height) := Number(Some(h))]
    case SetProvider(n, u) => map[ProviderName := Text(Some(n)), ProviderUrl := Text(Some(u))]
    case SetAuthor(n, u, i) =>
      map[AuthorName := Text(Some(n))]
      + (if u.Some? then map[AuthorUrl := Text(u)] else map[])
      + (if i.Some? then map[AuthorIconUrl := Text(i)] else map[])
    case SetColor(c) => map[Colour := Plain(c)]
    case AddField(_, _, _) => map[]
  }

  /** The fields a call appends. */
  function Appended(op: Op): seq<EmbedField> {
    if op.AddField? then [EmbedField(op.fieldName, op.fieldValue, op.inline)] else []
  }

  /**
   * A call overwrites exactly the slots of `Writes`, keeps every other slot,
   * appends exactly `Appended` after the existing fields, and never fails.
   */
  lemma StepSpec(e: Embed, op: Op)
    ensures forall s: Slot :: Get(Step(e, op), s) == if s in Writes(op) then Writes(op)[s] else Get(e, s)
    ensures Step(e, op).fields == e.fields + Appended(op)
  {
    forall s: Slot
      ensures Get(Step(e, op), s) == if s in Writes(op) then Writes(op)[s] else Get(e, s)
    {
      match op {
        case SetMediaUrl(m, u) =>
          if s.MediaSlot? {
            assert MediaOf(Step(e, op), s.media) == if s.media == m then MediaOf(e, m).(url := Some(u)) else MediaOf(e, s.media);
          }
        case SetMediaDims(m, w, h) =>
          if s.MediaSlot? {
            assert MediaOf(Step(e, op), s.media) == if s.media == m then MediaOf(e, m).(width := Some(w), height := Some(h)) else MediaOf(e, s.media);
          }
        case _ =>
      }
    }
    if !op.AddField? {
      assert Step(e, op).fields == e.fields;
    }
  }

  /** Calling a setter again overwrites everything the earlier call wrote: last write wins. */
  lemma SetterOverwrites(e: Embed, first: Op, second: Op)
    requires Writes(first).Keys <= Writes(second).Keys
    requires Appended(first) == []
    ensures Step(Step(e, first), second) == Step(e, second)
  {
    StepSpec(e, first);
    StepSpec(Step(e, first), second);
    StepSpec(e, second);
    SlotsDetermineEmbed(Step(Step(e, first), second), Step(e, second));
  }

  // ---------------------------------------------------------------------------
  // Call chains

  /** The embed after the calls `ops`, in order, starting from `e`. */
  function Apply(e: Embed, ops: seq<Op>): Embed {
    if ops == [] then e else Step(Apply(e, ops[..|ops| - 1]), ops[|ops| - 1])
  }

  /** What the last call in `ops` that overwrites `s` wrote there, or `d` if none does. */
  function LastWrite(ops: seq<Op>, s: Slot, d: SlotValue): SlotValue {
    if ops == [] then d
    else if s in Writes(ops[|ops| - 1]) then Writes(ops[|ops| - 1])[s]
    else LastWrite(ops[..|ops| - 1], s, d)
  }

  /** Every field the calls `ops` append, in call order. */
  function AllAppended(ops: seq<Op>): seq<EmbedField> {
    if ops == [] then [] else AllAppended(ops[..|ops| - 1]) + Appended(ops[|ops| - 1])
  }

  lemma ApplySnoc(e: Embed, ops: seq<Op>, op: Op)
    ensures Apply(e, ops + [op]) == Step(Apply(e, ops), op)
    ensures AllAppended(ops + [op]) == AllAppended(ops) + Appended(op)
  {
    assert (ops + [op])[..|ops|] == ops;
  }

  /** After any chain of calls, each slot holds what the last call writing it wrote. */
  lemma {:induction false} ApplyLastWrite(e: Embed, ops: seq<Op>, s: Slot)
    ensures Get(Apply(e, ops), s) == LastWrite(ops, s, Get(e, s))
  {
    if ops != [] {
      var init := ops[..|ops| - 1];
      ApplyLastWrite(e, init, s);
      StepSpec(Apply(e, init), ops[|ops| - 1]);
    }
  }

  /** After any chain of calls, the fields are the old ones followed by those added, in call order. */
  lemma {:induction false} ApplyFields(e: Embed, ops: seq<Op>)
    ensures Apply(e, ops).fields == e.fields + AllAppended(ops)
  {
    if ops != [] {
      var init := ops[..|ops| - 1];
      ApplyFields(e, init);
      StepSpec(Apply(e, init), ops[|ops| - 1]);
    }
  }

  // ---------------------------------------------------------------------------
  // The builder

  class EmbedBuilder {
    var embed: Embed
    /** The calls made on this builder so far. */
    ghost var calls: seq<Op>

    ghost predicate Valid()
      reads this
    {
      embed == Apply(New(), calls)
    }

    /** `EmbedBuilder::new`: holds `Embed::new`. */
    constructor ()
      ensures Valid() && calls == []
      ensures embed == New()
    {
      embed := New();
      calls := [];
    }

    /** Appends `op` to the call history once `embed` has been updated by it. */
    ghost method Record(op: Op)
      requires embed == Step(Apply(New(), calls), op)
      modifies this`calls
      ensures Valid() && calls == old(calls) + [op]
    {
      ApplySnoc(New(), calls, op);
      calls := calls + [op];
    }

    method WithTitle(title: string)
      requires Valid()
      modifies this
      ensures Valid() && calls == old(calls) + [SetTitle(title)]
      ensures embed == Step(old(embed), SetTitle(title))
    {
      embed := embed.(title := Some(title));
      Record(SetTitle(title));
    }

    method WithDescription(description: string)
      requires Valid()
      modifies this
      ensures Valid() && calls == old(calls) + [SetDescription(description)]
      ensures embed == Step(old(embed), SetDescription(description))
    {
      embed := embed.(description := Some(description));
      Record(SetDescription(description));
    }

    method WithUrl(url: string)
      requires Valid()
      modifies this
      ensures Valid() && calls == old(calls) + [SetUrl(url)]
      ensures embed == Step(old(embed), SetUrl(url))
    {
      embed := embed.(url := Some(url));
      Record(SetUrl(url));
    }

    method WithFooterText(text: string)
      requires Valid()
      modifies this
      ensures Valid() && calls == old(calls) + [SetFooterText(text)]
      ensures embed == Step(old(embed), SetFooterText(text))
    {
      embed := embed.(footer := embed.footer.(text := Some(text)));
      Record(SetFooterText(text));
    }

    method WithFooterUrl(url: string)
      requires Valid()
      modifies this
      ensures Valid() && calls == old(calls) + [SetFooterUrl(url)]
      ensures embed == Step(old(embed), SetFooterUrl(url))
    {
      embed := embed.(footer := embed.footer.(iconUrl := Some(url)));
      Record(SetFooterUrl(url));
    }

    method WithImage(url: string)
      requires Valid()
      modifies this
      ensures Valid() && calls == old(calls) + [SetMediaUrl(Image, url)]
      ensures embed == Step(old(embed), SetMediaUrl(Image, url))
    {
      embed := embed.(image := embed.image.(url := Some(url)));
      Record(SetMediaUrl(Image, url));
    }

    method WithImageDims(width: Int32, height: Int32)
      requires Valid()
      modifies this
      ensures Valid() && calls == old(calls) + [SetMediaDims(Image, width, height)]
      ensures embed == Step(old(embed), SetMediaDims(Image, width, height))
    {
      embed := embed.(image := embed.image.(width := Some(width)));
      embed := embed.(image := embed.image.(height := Some(height)));
      Record(SetMediaDims(Image, width, height));
    }

    method WithThumbnail(url: string)
      requires Valid()
      modifies this
      ensures Valid() && calls == old(calls) + [SetMediaUrl(Thumbnail, url)]
      ensures embed == Step(old(embed), SetMediaUrl(Thumbnail, url))
    {
      embed := embed.(thumbnail := embed.thumbnail.(url := Some(url)));
      Record(SetMediaUrl(Thumbnail, url));
    }

    method WithThumbnailDims(width: Int32, height: Int32)
      requires Valid()
      modifies this
      ensures Valid() && calls == old(calls) + [SetMediaDims(Thumbnail, width, height)]
      ensures embed == Step(old(embed), SetMediaDims(Thumbnail, width, height))
    {
      embed := embed.(thumbnail := embed.thumbnail.(width := Some(width)));
      embed := embed.(thumbnail := embed.thumbnail.(height := Some(height)));
      Record(SetMediaDims(Thumbnail, width, height));
    }

    method WithVideo(url: string)
      requires Valid()
      modifies this
      ensures Valid() && calls == old(calls) + [SetMediaUrl(Video, url)]
      ensures embed == Step(old(embed), SetMediaUrl(Video, url))
    {
      embed := embed.(video := embed.video.(url := Some(url)));
      Record(SetMediaUrl(Video, url));
    }

    method WithVideoDims(width: Int32, height: Int32)
      requires Valid()
      modifies this
      ensures Valid() && calls == old(calls) + [SetMediaDims(Video, width, height)]
      ensures embed == Step(old(embed), SetMediaDims(Video, width, height))
    {
      embed := embed.(video := embed.video.(width := Some(width)));
      embed := embed.(video := embed.video.(height := Some(height)));
      Record(SetMediaDims(Video, width, height));
    }

    method WithProvider(name: string, url: string)
      requires Valid()
      modifies this
      ensures Valid() && calls == old(calls) + [SetProvider(name, url)]
      ensures embed == Step(old(embed), SetProvider(name, url))
    {
      embed := embed.(provider := embed.provider.(name := Some(name)));
      embed := embed.(provider := embed.provider.(url := Some(url)));
      Record(SetProvider(name, url));
    }

    method WithAuthor(name: string, url: Option<string>, iconUrl: Option<string>)
      requires Valid()
      modifies this
      ensures Valid() && calls == old(calls) + [SetAuthor(name, url, iconUrl)]
      ensures embed == Step(old(embed), SetAuthor(name, url, iconUrl))
    {
      embed := embed.(author := embed.author.(name := Some(name)));
      if url.Some? {
        embed := embed.(author := embed.author.(url := Some(url.value)));
      }
      if iconUrl.Some? {
        embed := embed.(author := embed.author.(iconUrl := Some(iconUrl.value)));
      }
      Record(SetAuthor(name, url, iconUrl));
    }

    method WithColor(color: Int32)
      requires Valid()
      modifies this
      ensures Valid() && calls == old(calls) + [SetColor(color)]
      ensures embed == Step(old(embed), SetColor(color))
    {
      embed := embed.(color := color);
      Record(SetColor(color));
    }

    method AddField(name: string, value: string, inline: bool)
      requires Valid()
      modifies this
      ensures Valid() && calls == old(calls) + [Op.AddField(name, value, inline)]
      ensures embed == Step(old(embed), Op.AddField(name, value, inline))
    {
      embed := embed.(fields := embed.fields + [EmbedField(name, value, inline)]);
      Record(Op.AddField(name, value, inline));
    }

    /**
     * `build`: the embed as accumulated. Each slot holds what the last call writing
     * it wrote (or its `Embed::new` default) and the fields are those added, in order.
     */
    method Build() returns (e: Embed)
      requires Valid()
      ensures e == embed
      ensures forall s: Slot :: Get(e, s) == LastWrite(calls, s, Get(New(), s))
      ensures e.fields == AllAppended(calls)
    {
      e := embed;
      forall s: Slot
        ensures Get(e, s) == LastWrite(calls, s, Get(New(), s))
      {
        ApplyLastWrite(New(), calls, s);
      }
      ApplyFields(New(), calls);
    }
  }

  // ---------------------------------------------------------------------------
  // Client code: chains a caller writes

  /** `EmbedBuilder::new().build()` is `Embed::new()`. */
  method NewThenBuild() returns (e: Embed)
    ensures e == New()
  {
    var b := new EmbedBuilder();
    e := b.Build();
  }

  /** A title set twice keeps only the second value. */
  method TitleTwice() returns (e: Embed)
    ensures e.title == Some("B")
    ensures e == Step(New(), SetTitle("B"))
  {
    var b := new EmbedBuilder();
    b.WithTitle("A");
    b.WithTitle("B");
    e := b.Build();
    SetterOverwrites(New(), SetTitle("A"), SetTitle("B"));
  }

  /** Two fields come back in the order they were added. */
  method TwoFields() returns (e: Embed)
    ensures e.fields == [EmbedField("a", "b", true), EmbedField("c", "d", false)]
  {
    var b := new EmbedBuilder();
    b.AddField("a", "b", true);
    assert b.embed.fields == [EmbedField("a", "b", true)];
    b.AddField("c", "d", false);
    assert b.embed.fields == [EmbedField("a", "b", true), EmbedField("c", "d", false)];
    e := b.Build();
  }

  /** Only a title set: the object still has every key, unset options null, colour 0, no fields. */
  method TitleOnlyJson() returns (j: Json)
    ensures j.Obj? && j.members.Keys == EmbedKeys
    ensures j.members["title"] == Str("T") && j.members["type"] == Str("rich")
    ensures j.members["color"] == Int(0) && j.members["fields"] == Arr([])
    ensures j.members["description"] == Null && j.members["url"] == Null
    ensures j.members["image"] == Obj(map["url" := Null, "height" := Null, "width" := Null])
    ensures j.members["author"] == Obj(map["name" := Null, "url" := Null, "icon_url" := Null])
    ensures j.members["footer"] == Obj(map["text" := Null, "icon_url" := Null])
    ensures j.members["thumbnail"] == Obj(map["url" := Null, "height" := Null, "width" := Null])
    ensures j.members["video"] == Obj(map["url" := Null, "height" := Null, "width" := Null])
    ensures j.members["provider"] == Obj(map["name" := Null, "url" := Null])
  {
    var b := new EmbedBuilder();
    b.WithTitle("T");
    var e := b.Build();
    ToJsonKeys(e);
    ToJsonScalars(e);
    ToJsonObjects(e);
    j := ToJson(e);
  }
}
