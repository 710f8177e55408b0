# Payload layer of a Discord-style webhook client, modelled in Dafny

The crate builds the JSON bodies that a webhook endpoint accepts, to create a
message or to edit one. This model covers everything in it except the HTTP
transport:

- **Colours** (`Color`): the 24 named presets and `from_hex`. `from_hex` reads
  a string from its last character to its first. It keeps a positional weight
  `base`, a power of 16, and an accumulator. Only ASCII digits and ASCII
  upper-case letters count. Every other character is skipped without advancing
  `base`.
- **Embeds** (`Embeds`): the footer, multimedia (shared by image, thumbnail and
  video), provider, author and field records. Also the embed itself with its
  private `"rich"` type discriminator, `Embed::new`, and the JSON object an
  embed becomes. In the source that object comes from the `Serialize` derive;
  here it is written out from the field lists.
- **Embed builder** (`EmbedBuilders`): a class holding one embed. Each `with_*`
  call overwrites part of it, `add_field` appends, `build` hands it back. Each
  call is modelled twice. `Step` does what the source's assignments do.
  `Writes`/`Appended` say which slots the call overwrites and which fields it
  adds. Lemmas connect the two, first for one call and then for any chain of
  calls: last write wins, and fields stay in call order.
- **Packets and their builders** (`Messages`, `MessageBuilders`, `Edits`,
  `EditBuilders`). The create and edit packets, their builders, and the two
  `serialize_packet` methods. A serialiser sends a string member only when it
  is non-empty, sends `tts` always (create only), and sends the embeds as an
  ordered array only when there is at least one. Injectivity lemmas show that
  leaving out empty members loses no information.

JSON is modelled as an abstract value (`Json.Json`: null, bool, integer,
string, array, object-as-map), not as text. `i32` is the subset type
`Prelude.Int32`. Rust's `Option` is `Prelude.Option`.

Two behaviours of `from_hex` worth knowing:

- It accepts every ASCII upper-case letter, not only `A`–`F`, because it tests
  `is_ascii_uppercase()`. `G`–`Z` weigh 16–35 (`Color.QuirkExamples`: `"G"`
  decodes to 16).
- It skips unrecognised characters and decodes the rest, rather than returning
  0 for bad input (`"#F-F"` decodes to 255, `"ff"` to 0).

## Model

| member | source | states |
|---|---|---|
| `Color.NamedColorsAreRgb` | src/color.rs:5-28 | there are 24 presets and each lies in 0..=0xFFFFFF |
| `Color.DigitValue` | src/color.rs:37-42 | a recognised character's value is below 36, and below 10 exactly when it is a decimal digit |
| `Color.HexValue` | src/color.rs:35-44 | the value the loop accumulates; a string with no ASCII digit or upper-case letter decodes to 0 |
| `Color.FromHex` | src/color.rs:30-47 | for ASCII input with at most 7 recognised characters, the right-to-left loop returns `HexValue(hex)`; `base` and the accumulator stay inside `i32` at every step |
| `Color.FitsInt32` | src/color.rs:32-43 | with at most 7 recognised characters, `base` stays at most 16^7 and the value below 2^31 |
| `Color.HexValueBelow` | src/color.rs:35-44 | for any string, the value is below 3·16^k, where k is the number of recognised characters |
| `Color.AppendRecognised` | src/color.rs:35-43 | positional: appending a recognised character d gives 16·value + val(d) |
| `Color.AppendSkipped` | src/color.rs:37-43 | appending an unrecognised character leaves the value unchanged |
| `Color.FilterPreservesValue` | src/color.rs:37-43 | removing every character that is not an ASCII digit or upper-case letter leaves the value unchanged |
| `Color.HexStringIsStandard` | src/color.rs:35-44 | on strings over `0-9A-F`, the value equals the textbook base-16 value (Horner's rule over the digit's position in "0123456789ABCDEF"), and every character is counted |
| `Color.HexStringBelow` | src/color.rs:35-44 | on strings over `0-9A-F`, the value is below 16^length |
| `Color.ShortHexIsRgb` | src/color.rs:35-44 | at most six hex digits always decode to a 24-bit colour |
| `Color.RedExample` | src/color.rs:30-47 | `"FF0000"` decodes to 16711680 |
| `Color.GreenExample` | src/color.rs:30-47 | `"00FF00"` decodes to 65280 |
| `Color.QuirkExamples` | src/color.rs:31-46 | `""` decodes to 0, `"G"` to 16; `"ff"` to 0 because lower case is skipped; `"#F-F"` to 255 because punctuation is skipped |
| `Embeds.New` | src/embed.rs:54-91 | `Embed::new` leaves every optional slot unset and the colour 0, has no fields, and (by the `Embed` type) has discriminator "rich" |
| `Embeds.SlotsDetermineEmbed` | src/embed.rs:36-51 | an embed is fully determined by its settable slots and its fields; image, thumbnail and video are three independent slots of one shape |
| `Embeds.FooterToJsonShape` | src/embed.rs:3-7 | `FooterToJson`, the derive for the footer: keys text and icon_url always present, each null exactly when unset |
| `Embeds.MediaToJsonShape` | src/embed.rs:9-14 | `MediaToJson`, the derive for image, thumbnail and video: keys url, height and width always present, each null exactly when unset |
| `Embeds.ProviderToJsonShape` | src/embed.rs:16-20 | `ProviderToJson`, the derive for the provider: keys name and url always present, each null exactly when unset |
| `Embeds.AuthorToJsonShape` | src/embed.rs:22-27 | `AuthorToJson`, the derive for the author: keys name, url and icon_url always present, each null exactly when unset |
| `Embeds.FieldToJsonShape` | src/embed.rs:29-34 | `FieldToJson`, the derive for a field: keys name, value and inline, never null, inline as a boolean |
| `Embeds.FieldsToJson` | src/embed.rs:50 | the field list becomes an array of the same length and order, one object per field |
| `Embeds.ToJson` | src/embed.rs:36-51 | the derive for the embed: an object whose "type" member (the renamed private `embed_type`) is always "rich" |
| `Embeds.ToJsonKeys` | src/embed.rs:36-51 | an embed object always has exactly its 12 keys, whatever is set |
| `Embeds.ToJsonScalars` | src/embed.rs:36-43 | "type" is "rich", "color" is always a number, an unset title, description or url is null, and "fields" is an array |
| `Embeds.ToJsonObjects` | src/embed.rs:44-49 | footer, image, thumbnail, video, provider and author are always complete objects, with unset parts as null |
| `Embeds.ToJsonInjective` | src/embed.rs:36-51 | two embeds with the same JSON object are equal |
| `Embeds.EmbedsToJson` | src/message.rs:31-35 | the embed list becomes an array of the same length and order, one embed object each |
| `Embeds.EmbedsToJsonInjective` | src/message.rs:31-36 | two embed lists with the same array are equal |
| `Embeds.EmbedsArray` | src/message.rs:31-35 | the loop that pushes `to_value(embed)` for every embed yields exactly `EmbedsToJson` |
| `EmbedBuilders.Step` | src/embed_builder.rs:15-107 | the field assignments of each builder call; the field list becomes the old one followed by exactly `Appended(op)`, so only `add_field` touches it |
| `EmbedBuilders.StepSpec` | src/embed_builder.rs:15-107 | a builder call overwrites exactly the slots in `Writes` and keeps every other slot; `with_author` overwrites url and icon only when given; only `add_field` appends, and it appends exactly one field at the end; no call fails |
| `EmbedBuilders.SetterOverwrites` | src/embed_builder.rs:15-98 | a setter called after another setter that writes no other slot leaves the same embed as the second call alone: last write wins |
| `EmbedBuilders.ApplyLastWrite` | src/embed_builder.rs:15-98 | after any chain of calls, each slot holds what the last call that writes it wrote, or its earlier content if no call writes it |
| `EmbedBuilders.ApplyFields` | src/embed_builder.rs:100-107 | after any chain of calls, the fields are the earlier ones followed by every added field, in call order |
| `EmbedBuilders.EmbedBuilder.constructor` | src/embed_builder.rs:9-13 | a new builder holds `Embed::new` and has no recorded calls |
| `EmbedBuilders.EmbedBuilder.WithTitle` | src/embed_builder.rs:15-18 | the embed becomes `Step(old embed, SetTitle(title))` and the call is recorded |
| `EmbedBuilders.EmbedBuilder.WithDescription` | src/embed_builder.rs:20-23 | the embed becomes `Step(old embed, SetDescription(d))` |
| `EmbedBuilders.EmbedBuilder.WithUrl` | src/embed_builder.rs:25-28 | the embed becomes `Step(old embed, SetUrl(u))` |
| `EmbedBuilders.EmbedBuilder.WithFooterText` | src/embed_builder.rs:30-33 | the embed becomes `Step(old embed, SetFooterText(t))` |
| `EmbedBuilders.EmbedBuilder.WithFooterUrl` | src/embed_builder.rs:35-38 | the embed becomes `Step(old embed, SetFooterUrl(u))` |
| `EmbedBuilders.EmbedBuilder.WithImage` | src/embed_builder.rs:40-43 | the embed becomes `Step(old embed, SetMediaUrl(Image, u))` |
| `EmbedBuilders.EmbedBuilder.WithImageDims` | src/embed_builder.rs:45-49 | the embed becomes `Step(old embed, SetMediaDims(Image, w, h))` |
| `EmbedBuilders.EmbedBuilder.WithThumbnail` | src/embed_builder.rs:51-54 | the embed becomes `Step(old embed, SetMediaUrl(Thumbnail, u))` |
| `EmbedBuilders.EmbedBuilder.WithThumbnailDims` | src/embed_builder.rs:56-60 | the embed becomes `Step(old embed, SetMediaDims(Thumbnail, w, h))` |
| `EmbedBuilders.EmbedBuilder.WithVideo` | src/embed_builder.rs:62-65 | the embed becomes `Step(old embed, SetMediaUrl(Video, u))` |
| `EmbedBuilders.EmbedBuilder.WithVideoDims` | src/embed_builder.rs:67-71 | the embed becomes `Step(old embed, SetMediaDims(Video, w, h))` |
| `EmbedBuilders.EmbedBuilder.WithProvider` | src/embed_builder.rs:73-77 | the embed becomes `Step(old embed, SetProvider(n, u))`: both provider parts set |
| `EmbedBuilders.EmbedBuilder.WithAuthor` | src/embed_builder.rs:79-93 | the embed becomes `Step(old embed, SetAuthor(n, u, i))`: the name always set, url and icon only when given |
| `EmbedBuilders.EmbedBuilder.WithColor` | src/embed_builder.rs:95-98 | the embed becomes `Step(old embed, SetColor(c))` |
| `EmbedBuilders.EmbedBuilder.AddField` | src/embed_builder.rs:100-107 | the embed becomes `Step(old embed, AddField(n, v, inline))`: one field appended, with no limit on the count |
| `EmbedBuilders.EmbedBuilder.Build` | src/embed_builder.rs:109-111 | returns the accumulated embed; each slot holds the last value written to it since `new` (or the `Embed::new` default), and the fields are those added, in call order |
| `EmbedBuilders.NewThenBuild` | src/embed_builder.rs:9-13 | `EmbedBuilder::new().build()` equals `Embed::new()` |
| `EmbedBuilders.TitleTwice` | src/embed_builder.rs:15-18 | `with_title("A").with_title("B")` builds the same embed as `with_title("B")` alone |
| `EmbedBuilders.TwoFields` | src/embed_builder.rs:100-107 | two `add_field` calls give those two fields, in call order |
| `EmbedBuilders.TitleOnlyJson` | src/embed.rs:36-51 | an embed with only a title set serialises with that title, type "rich", colour 0, null options, null-filled sub-objects and an empty field array |
| `Messages.MessageJson` | src/message.rs:18-39 | the object has only the keys content, username, avatar_url, tts and embeds; each string key is present exactly when its string is non-empty and then holds it; tts is always present; embeds is present exactly when there is one, as the ordered array of embed objects |
| `Messages.SerializePacket` | src/message.rs:18-39 | the member-by-member construction with its embed loop yields exactly `MessageJson(p)` |
| `Messages.EmptyMessageIsTtsOnly` | src/message.rs:19-29 | empty content, username and avatar with no embeds give an object whose only member is tts |
| `Messages.MessageJsonInjective` | src/message.rs:19-37 | two message packets with the same JSON are equal |
| `Messages.AddEmbedAppendsObject` | src/message.rs:30-37 | after one more embed, the embeds array is the earlier array with that embed's object appended |
| `Edits.EditJson` | src/edit.rs:16-30 | the object has only the keys content and embeds and never username, avatar_url or tts; content is present exactly when non-empty; embeds is present exactly when there is one, as the ordered array |
| `Edits.SerializePacket` | src/edit.rs:16-30 | the member-by-member construction with its embed loop yields exactly `EditJson(p)` |
| `Edits.EmptyEditIsEmptyObject` | src/edit.rs:17-29 | empty content with no embeds gives the empty object |
| `Edits.OneEmbedIsOneElementArray` | src/edit.rs:21-28 | one embed gives a one-element array holding its object |
| `Edits.EditJsonInjective` | src/edit.rs:17-29 | two edit packets with the same JSON are equal |
| `MessageBuilders.MessageBuilder.constructor` | src/message_builder.rs:16-26 | holds the given content and tts, an empty username and avatar, and no embeds |
| `MessageBuilders.MessageBuilder.WithUsername` | src/message_builder.rs:32-35 | overwrites the username and nothing else |
| `MessageBuilders.MessageBuilder.WithAvatarUrl` | src/message_builder.rs:41-44 | overwrites the avatar url and nothing else |
| `MessageBuilders.MessageBuilder.AddEmbed` | src/message_builder.rs:52-55 | appends the embed at the end, keeps the earlier ones in order, no de-duplication and no limit |
| `MessageBuilders.MessageBuilder.Build` | src/message_builder.rs:61-63 | returns the accumulated packet unchanged |
| `MessageBuilders.HiMessage` | src/message_builder.rs:16-26 | `new("Hi", false)` built and serialised gives exactly `{"content":"Hi","tts":false}` |
| `MessageBuilders.Overwrites` | src/message_builder.rs:32-55 | a username set twice keeps the second; eleven added embeds are all kept, in order |
| `EditBuilders.EditMessageBuilder.constructor` | src/edit_builder.rs:12-19 | holds the given content and no embeds |
| `EditBuilders.EditMessageBuilder.AddEmbed` | src/edit_builder.rs:27-30 | appends the embed at the end, keeps the earlier ones in order, no limit |
| `EditBuilders.EditMessageBuilder.Build` | src/edit_builder.rs:36-38 | returns the accumulated packet unchanged |
| `EditBuilders.ContentAndOneEmbed` | src/edit_builder.rs:12-30 | an edit with content and one embed serialises to content plus a one-element embeds array |
| `EditBuilders.ContentOnly` | src/edit_builder.rs:12-19 | an edit with no embeds omits the embeds key |

## Left out

- The HTTP transport (`WebhookBuilder` in src/lib.rs): connection and TLS setup, POST/PATCH, status and response reading, logging, and the edit URL built from the base URL and message id. This is I/O through foreign platform calls.
- Rendering a `Json` value as text: string escaping and the key order of the map type. Objects are maps here, so key order is not modelled.
- The `Serialize` derive itself. The embed-to-JSON mapping is written by hand from the struct field lists. `to_value(...).unwrap()` cannot fail on these types, so it has no error path.
- `impl Into<String>` and `&str` conversions and their documented panics. Arguments are plain strings.
- Color.FromHex: non-ASCII input and input with 8 or more recognised characters are excluded by preconditions, not modelled as the source's failures. On non-ASCII input the source's `unwrap` panics, because it indexes by byte but reads by character. With 8 or more recognised characters `base *= 16` overflows `i32`.
- The builder methods change the builder in place and return nothing. The source's `with_*(self) -> Self` chaining and the move of the builder into `build` are not modelled, so a Dafny builder stays usable after `Build`. No operation's result depends on this.
- Platform limits (10 embeds, 25 fields, string lengths). The code does not check them, so the model does not either.
