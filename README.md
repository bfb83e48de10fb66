# Profiler bot — a Dafny model

Profiler is a Discord bot. Members of a guild (server) use it to store their
gaming handles (Xbox, PSN, Switch, Steam, Epic, Uplay, Battle.net, Origin,
GOG, Rocket ID), a Steam profile URL and a free-text description. They can
then show a profile card or list every member of the guild on one platform.
Everything lives in one JavaScript file, `profiler.js`. This project models
the core of its `message` handler:

- **Command parsing** (`commands.dfy`, `js_strings.dfy`):
  - the prefix test (the prefix as configured, or upper-cased);
  - `substring(prefix.length).split(' ')` into a command word and arguments;
  - the loops that rebuild a stored value from the arguments, then `trim()`;
  - the record key `guild-author` and how `profileEmbed` splits it again.
  - The JavaScript string operations involved are written out with their
    JavaScript behaviour: `indexOf` returns -1, `substring` clamps and swaps
    its bounds, `split` keeps empty pieces, `trim` removes the WhiteSpace and
    LineTerminator characters, and `replace(/ /g, '%20')`.
- **The profile store** (`profile_store.dfy`): the Enmap collection.
  - It is a `Store` class holding the key order and a map from keys to
    records. Each record is a map of string properties.
  - `Ensure` and `Set` update the store in place. Each is specified by a
    function on snapshots (`Ensured`, `Written`).
  - The list's filter keeps the guild's records whose platform property is
    truthy, in insertion order.
- **Rendering** (`render.dfy`):
  - `profileEmbed` is the pure function `RenderProfile`. It gives the card
    (author, description or its fallback, one field per platform the record
    has, in the card's fixed order, with the link rules), or the "No profile
    yet" embed its `catch` builds.
  - `listEmbed` is the method `RenderList`, with the accumulation loop over
    the filtered records and its invariant.
- **The handler** (`handler.dfy`):
  - `HandleMessage` runs on a `Store`. It ignores bots and messages without
    the prefix, then ensures the sender's record, then runs the `switch`.
  - It is proved against two functions on snapshots. `Effect` gives the new
    store. `Response` gives the reply: the embed sent and where, the value
    stored, the failure reactions, or the handler throwing.
  - The deferred callbacks run in the order they were scheduled. The only
    ordering that shows is that `listEmbed` filters synchronously, before
    the deferred `ensure` of the same message. So the list is read from the
    store as the message found it, and the profile views read it after the
    ensure. `ListUnaffectedByEnsure` proves the list body is the same either
    way.

Enmap's `has(key, path)` is lodash's `_.has`, a presence test. A handle
stored as `""` (`!xbox` with no argument) therefore counts as present for the
profile card, while the list filter, which tests truthiness, leaves it out.
On the card, discord.js's `RichEmbed.addField` rejects a blank value, so such a
handle shows only inside a link (`EmptyHandleOnlyLinked`).

The embeds are built with discord.js v11's `RichEmbed`, which throws a
`RangeError` past its limits: a field value must hold a non-whitespace
character and be at most 1024 characters long, a description at most 2048
and a title at most 256. A throw while the card is built is caught by
`profileEmbed`'s `catch`, which sends "No profile yet" instead. A throw in
`listEmbed` escapes to the handler, which then stops like `list` without a
platform word. Field names are the fixed platform labels and a card has at
most ten fields, so the limits on names and on the number of fields are never
reached.

## Model

| member | source | states |
|---|---|---|
| JsStrings.IndexOf | profiler.js:49-50 | `indexOf` gives -1 exactly when the character is absent; otherwise the position of its first occurrence |
| JsStrings.IndexOfAfter | profiler.js:49-50 | in `a + [c] + b` with no `c` in `a`, the first `c` is at `|a|` |
| JsStrings.Substring | profiler.js:49-50 | `substring` is the slice between its bounds once both are clamped into range, in either order; negative bounds give "" |
| JsStrings.JoinSnoc | profiler.js:291-293 | appending one part to a non-empty join adds the separator and the part |
| JsStrings.Split | profiler.js:201 | `split(' ')` gives at least one piece, no piece holds the separator, and joining the pieces gives back the input |
| JsStrings.SplitStep | profiler.js:201 | the first piece, up to the first separator, followed by the pieces of the rest, has no separator and joins back to the input |
| JsStrings.SplitJoin | profiler.js:201 | splitting inverts joining when no part holds the separator |
| JsStrings.Trim | profiler.js:294 | `trim()` keeps a prefix of the start-trimmed text; what it drops at either end is whitespace, and the result neither starts nor ends with whitespace |
| JsStrings.TrimIdempotent | profiler.js:294 | trimming twice is trimming once |
| JsStrings.TrimLeadingSpace | profiler.js:290-294 | the space the loop puts before the first argument disappears under `trim()` |
| JsStrings.EncodeSpaces | profiler.js:70 | the `%20` encoding of a handle holds no space |
| JsStrings.EncodeSpacesWithoutSpace | profiler.js:70 | a handle without spaces is left as it is |
| JsStrings.EncodeSpacesAppend | profiler.js:70 | the encoding distributes over concatenation |
| JsStrings.DecodeEncodeSpaces | profiler.js:70 | decoding `%20` inverts the encoding for handles that hold no `%` |
| JsStrings.EncodeSpacesNotInjective | profiler.js:70 | the encoding is not injective: " " and "%20" encode alike |
| JsStrings.ToUpper | profiler.js:136 | upper-casing keeps the length and maps each character |
| JsStrings.ToUpperIdempotent | profiler.js:136 | upper-casing an upper-cased word changes nothing |
| Platforms.PlatformNamed | profiler.js:303-312 | a command word that selects a platform case is that platform's property name |
| Platforms.PlatformNamedInverse | profiler.js:303-312 | looking a platform up by its word and naming a platform are inverse, in both directions |
| Platforms.PropNameNotIdentity | profiler.js:207-210 | no platform property is `id` or `guild`, so a fresh `{id, guild}` record has no handle |
| Commands.Parse | profiler.js:201-203 | the command word and the arguments hold no space, and joined with spaces they rebuild the text after the prefix |
| Commands.ParseUnique | profiler.js:201-203 | those three facts determine the parse: no other split has them |
| Commands.StoredValueIsRestOfBody | profiler.js:201-203 | the value a set-command stores is the trimmed text after the first space of the body, or "" when there is none |
| Commands.BuildValue | profiler.js:290-294 | the loop `value + ' ' + args[i]` followed by `trim()` yields the trimmed space-join of the arguments |
| Commands.KeyRoundTrip | profiler.js:204 | splitting a key `guild-author` at its first '-' gives back the guild and the author when the guild holds no '-' |
| Commands.KeyRebuild | profiler.js:49-50 | a key holding '-' is rebuilt from its two parts |
| Commands.KeyWithoutDash | profiler.js:49-50 | a key without '-' splits into an empty guild and the whole key as user |
| Commands.WritesOwnName | profiler.js:288-340 | exactly the twelve set-commands write a property, and the property written is the command word itself |
| ProfileStore.Get | profiler.js:58 | `get(key)` gives a record exactly when the key is stored, and then the stored record |
| ProfileStore.Ensured | profiler.js:206-211 | `ensure` leaves a stored key's record alone and otherwise stores the default, appended to the order; other records are unchanged |
| ProfileStore.EnsureIdempotent | profiler.js:206-211 | ensuring twice, with any second default, is ensuring once |
| ProfileStore.EnsurePreservesWellformed | profiler.js:206-211 | ensure keeps the key order free of repeats and in step with the stored keys |
| ProfileStore.Written | profiler.js:297-299 | `set(key, value, path)` sets that one property, keeps every other property and record, and creates a record holding only that property for a missing key |
| ProfileStore.WrittenRecord | profiler.js:297-299 | the written record is the old one, or an empty one, with the one property set |
| ProfileStore.WriteIdempotent | profiler.js:297-299 | writing the same value twice is writing it once |
| ProfileStore.WritePreservesWellformed | profiler.js:297-299 | set keeps the key order free of repeats and in step with the stored keys |
| ProfileStore.FilterKeys | profiler.js:131 | the filter's result holds only stored records of the guild whose property is truthy, and every such record whose key it visits |
| ProfileStore.FilterKeysAppend | profiler.js:131 | filtering keeps insertion order: it distributes over a split of the key order |
| ProfileStore.Filtered | profiler.js:131 | every listed record is a stored record of the guild whose property is non-empty |
| ProfileStore.FilteredComplete | profiler.js:131 | in a well-formed store no qualifying record is missed |
| ProfileStore.FilterKeysAgree | profiler.js:131 | the filter reads only the records of the keys it visits |
| ProfileStore.FilteredUnaffectedByEnsure | profiler.js:131 | ensuring a record that does not pass the filter leaves the filter's result unchanged |
| ProfileStore.Store.Ensure | profiler.js:206-211 | the in-place `ensure` leaves the store as `Ensured` says and keeps it well-formed |
| ProfileStore.Store.Set | profiler.js:297-299 | the in-place `set` leaves the store as `Written` says and keeps it well-formed |
| Render.Rank | profiler.js:69-102 | each platform's position in the card order |
| Render.ParseLinkInverse | profiler.js:70 | a markdown link `[text](url)` reads back into its text and target when the text holds no ']' |
| Render.ProfileValueRule | profiler.js:69-102 | Xbox, PSN, Uplay and GOG show `[handle](template + encoded handle)`; Steam shows `[handle](steamurl)` when `steamurl` is present, else plain text; the other five are plain text; a link whose handle holds no ']' reads back into the handle and its target |
| Render.RankSortedTail | profiler.js:69-102 | a suffix of the card order is still in rank order |
| Render.RankedCons | profiler.js:69-102 | a field ranked below an increasing run of fields extends it |
| Render.FieldsForOrdered | profiler.js:69-102 | the fields come out in strictly increasing card rank, so no title repeats |
| Render.FieldsForComplete | profiler.js:69-102 | every platform the record has gets its field |
| Render.ProfileFieldsExact | profiler.js:69-102 | the card shows a field for every present platform, in the order Xbox, Playstation, Steam, Uplay, GOG, Nintendo Switch, Battle.net, EA Origin, Epic Games, Rocket ID |
| Render.ProfileFieldsSound | profiler.js:69-102 | every field shown belongs to a platform the record has |
| Render.FirstRejected | profiler.js:69-101 | the fields `addField` takes before it first meets a blank or over-long value are all accepted, and the one it stops at is not |
| Render.RenderProfile | profiler.js:45-121 | "No profile yet" for a missing record, an unknown user, a description past 2048 characters, or a field the builder rejects (keeping the author and the fields added before it); otherwise, exactly then, the card with the user's name, the record's description or the fallback, and the platform fields |
| Render.MemberLineRule | profiler.js:140-170 | each list line is `name\t:\tvalue\n`; for Xbox, PSN, Uplay and GOG the value is a link to the profile template followed by the encoded handle, for Steam a link to the fixed Steam community template, for the rest the plain handle |
| Render.AllHavePrefix | profiler.js:131 | every prefix of records that all have the property does too |
| Render.ListTextSnoc | profiler.js:140-170 | one more record appends its line after the lines so far |
| Render.ListTitle | profiler.js:136 | the list title is the requested word upper-cased, followed by " Members" |
| Render.ListTitleIgnoresCase | profiler.js:136 | a word and its upper-cased form get the same list title |
| Render.UnknownPlatformListsNothing | profiler.js:140-171 | a word that names none of the ten platforms gives an empty list body |
| Render.RenderList | profiler.js:124-171 | the list embed is built exactly when its title and body are within the builder's limits; its title is the upper-cased word with " Members", its body one line per filtered record in insertion order, empty for a word that is not a platform |
| Render.EmptyHandleOnlyLinked | profiler.js:69-101 | a handle stored as "" is never listed; on the card it is an accepted field for the four templated platforms, and for the others (Steam without `steamurl` included) it stops the card from being shown |
| Handler.Identity | profiler.js:207-210 | the record ensured for a new sender holds exactly its id and guild |
| Handler.Apply | profiler.js:288-340 | a command writes at most the one property it names, into the ensured sender record only, and keeps the key order |
| Handler.Effect | profiler.js:191-357 | a message that is not handled changes nothing; a handled one adds only the sender's key and changes no other record |
| Handler.ProfileReply | profiler.js:106-119 | a card goes where it was asked for; the "No profile yet" embed always goes to the channel |
| Handler.Answer | profiler.js:218-357 | never ignored; exactly the set-commands are acknowledged, with the command word and the trimmed argument text; help only for `help`; the list only for `list` when `listEmbed` did not throw, to the author; the handler throws exactly for `file` without a mention or a `list` that threw; a profile embed exactly for `me`, `preview` and `file` with a mention, sent to the channel exactly for `me` or the fallback |
| Handler.IgnoredIffNotCommand | profiler.js:191-198 | a message is ignored exactly when it comes from a bot or starts with neither the prefix nor the upper-cased prefix, and then the store is unchanged |
| Handler.AnswerListing | profiler.js:342-350 | only `list` sends the list embed |
| Handler.NonSetCommandOnlyEnsures | profiler.js:218-357 | a command that is not a set-command, the unknown ones included, only ensures the sender's record |
| Handler.SetCommandWritesOneProperty | profiler.js:288-340 | a set-command writes the trimmed argument text to the property named by the command word in the sender's record, keeping its other properties |
| Handler.FirstCommandCreatesProfile | profiler.js:206-211 | a new sender's first command creates `{id, guild}`, plus the written property for a set-command, at the end of the order |
| Handler.EffectIdempotent | profiler.js:198-357 | handling the same message twice leaves the store as handling it once |
| Handler.EffectPreservesWellformed | profiler.js:198-357 | handling keeps the store well-formed |
| Handler.OwnProfileNeverMissing | profiler.js:257-276 | `me` and `preview` never meet a missing record; they show the sender's record as the message leaves it, as a card exactly when the user is known and the builder takes the record |
| Handler.UnknownCommandNotUnderstood | profiler.js:352-357 | an unrecognised command gets the failure reactions and writes nothing |
| Handler.AcknowledgedValueIsStored | profiler.js:288-340 | a reply acknowledges a stored value exactly for the set-commands, and the acknowledged value is what the sender's record then holds under the acknowledged property |
| Handler.ListSentOnlyForList | profiler.js:342-350 | the list is sent exactly for `list` with a platform word whose embed fits the builder's limits, always to the author, with the body read from the store the message arrived at |
| Handler.ProfileSentOnlyForViews | profiler.js:257-286 | a profile embed answers exactly `me`, `preview` and `file` with a mention; it goes to the channel exactly for `me` or for the "No profile yet" embed |
| Handler.FileShowsMentioned | profiler.js:277-286 | `file` shows the first mentioned member's record as the store holds it after the message; it is missing only for a member other than the sender with no record in the guild |
| Handler.EnsuredView | profiler.js:56-58 | a profile read after an `ensure` is missing only for a key other than the ensured one that was never stored, and a card shows the stored record's fields |
| Handler.AbortedOnlyWhenThrown | profiler.js:277-350 | the handler throws exactly for `file` without a mention and for `list` without a platform word or with a list past the builder's limits, after scheduling the sender's `ensure` |
| Handler.HelpOnlyForHelp | profiler.js:219-255 | the help embed answers `help` and nothing else |
| Handler.ListUnaffectedByEnsure | profiler.js:131 | the list body is the same whether read before or after the sender's record is ensured |
| Handler.StoreArgs | profiler.js:290-299 | a set-command's value is the trimmed join of the arguments, written to the one property |
| Handler.View | profiler.js:218-357 | the cases that only read the store never acknowledge a write, and reply as `Answer` says |
| Handler.SetCommand | profiler.js:288-340 | the set-command cases write as `Apply` says and acknowledge the value stored |
| Handler.Dispatch | profiler.js:218-357 | the `switch` writes as `Apply` says and replies as `Answer` says |
| Handler.HandleMessage | profiler.js:189-360 | the handler leaves the store as `Effect` says and replies as `Response` says for the store the message arrived at |

## Left out

- The Discord client is not modelled. This covers login, the reconnect loop, `ready`, `guildCreate`/`guildDelete`, the activity status, sending messages, reactions and deleting the command message. The reply records what is sent and where; reactions are implied by the reply kind.
- The user directory is a parameter, not modelled. `client.users.get(id)` appears as `userName` for the card's author and `mention` for the list lines.
- Thumbnails, avatars, timestamps, analytics and logging are left out. They are I/O or clocks with no effect on the store or on the text of the embeds.
- The help embed's text is left out: `help` replies with `HelpSent`. Its "Commands" field holds 873 characters plus eleven copies of the prefix, so a prefix of 14 or more characters would make `addField` throw; this is not modelled.
- The "Error" field of the "No profile yet" embed holds a JavaScript exception object. It is modelled only as which step threw (`LookupError`).
- Enmap's persistence and its `defer` promise are left out. The deferred callbacks are taken to run in scheduling order, one message at a time; messages handled concurrently are not modelled.
- The direct-message path is not modelled. Every direct message from a non-bot gets "You can't talk to me here"; one that also carries the prefix then makes the handler throw at `message.guild.id`. `Message.guild` is always a string.
- JsStrings.ToUpper: does not model upper-casing beyond ASCII letters, because full Unicode case mapping is a large table. The prefix test and the list title both upper-case; for `list ñ` the source's title is "Ñ Members" where the model's is "ñ Members", and characters such as "ß" that upper-case to two would also change the title's length.
- Strings are sequences of Unicode scalar values, not UTF-16 code units. Lengths differ for characters outside the Basic Multilingual Plane.
- Properties a record inherits from `Object.prototype` are not modelled. An example is `list constructor`, whose filter test `f[platform]` would see an inherited method.
