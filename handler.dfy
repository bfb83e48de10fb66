/**
 * The bot's `message` handler: it ignores bots and messages without the
 * prefix, makes sure the sender has a record in the guild, then dispatches on
 * the command word to a reply and at most one property write.
 */
module Handler {
  import opened Wrappers
  import opened JsStrings
  import opened Platforms
  import opened Commands
  import opened ProfileStore
  import opened Render

  /** The parts of a chat message the handler reads. */
  datatype Message = Message(
    content: string,
    author: string,
    authorIsBot: bool,
    guild: string,
    mentions: seq<string>)  // the guild members mentioned, in order

  datatype Location = Channel | Author

  /** What the handler sends back. */
  datatype Reply =
    | Ignored                                          // a bot's message, or no prefix
    | HelpSent                                         // the fixed help embed, to the author
    | ProfileSent(to: Location, embed: ProfileEmbed)
    | Stored(property: string, value: string)          // a set-command, acknowledged with a reaction
    | ListSent(to: Location, list: ListEmbed)
    | NotUnderstood                                    // the `default` branch: failure reactions
    | Aborted                                          // `file` without a mention, `list` without a platform: the handler throws

  /** The record `ensure` creates for a new sender: `{id, guild}`. */
  function Identity(msg: Message): (r: Record)
    ensures r.Keys == {"id", "guild"} && r["id"] == msg.author && r["guild"] == msg.guild
  {
    map["id" := msg.author, "guild" := msg.guild]
  }

  function SenderKey(msg: Message): string
  {
    MakeKey(msg.guild, msg.author)
  }

  /** The handler acts on a message from a non-bot that carries the prefix. */
  predicate Handled(msg: Message, prefix: string)
  {
    !msg.authorIsBot && IsCommand(msg.content, prefix)
  }

  /** The value a set-command stores. */
  function CommandValue(msg: Message, prefix: string): string
  {
    Trim(Join(Parse(msg.content, prefix).args, ' '))
  }

  /**
   * The store after a command, once the sender's record `key` is ensured: the
   * property the command names is written into that record, and nothing else
   * changes; a command that names no property leaves the store as it is.
   */
  function Apply(ensured: Snapshot, key: string, c: Command, value: string): (r: Snapshot)
    requires key in ensured.records
    ensures r.order == ensured.order && r.records.Keys == ensured.records.Keys
    ensures forall k :: k in ensured.records && k != key ==> r.records[k] == ensured.records[k]
    ensures WrittenProperty(c).None? ==> r == ensured
    ensures WrittenProperty(c).Some? ==> r.records[key] == ensured.records[key][WrittenProperty(c).value := value]
  {
    match WrittenProperty(c)
    case Some(path) =>
      WrittenRecord(ensured, key, path, value);
      Written(ensured, key, path, value)
    case None => ensured
  }

  /**
   * The store after handling `msg`: the sender's record ensured, then at most
   * one property written. Only the sender's record can change or appear.
   */
  function Effect(s: Snapshot, msg: Message, prefix: string): (r: Snapshot)
    ensures !Handled(msg, prefix) ==> r == s
    ensures Handled(msg, prefix) ==> r.records.Keys == s.records.Keys + {SenderKey(msg)}
    ensures forall k :: k in s.records && k != SenderKey(msg) ==> r.records[k] == s.records[k]
  {
    if !Handled(msg, prefix) then s
    else
      var key := SenderKey(msg);
      Apply(Ensured(s, key, Identity(msg)), key, Classify(Parse(msg.content, prefix).cmd), CommandValue(msg, prefix))
  }

  /** A profile embed goes where it was asked for; the "No profile yet" embed always goes to the channel. */
  function ProfileReply(e: ProfileEmbed, requested: Location): (r: Reply)
    ensures r.ProfileSent? && r.embed == e
    ensures r.to == (if e.Card? then requested else Channel)
  {
    ProfileSent(if e.Card? then requested else Channel, e)
  }

  /**
   * The list embed for the arguments of `list`, read from the store `s`; None
   * when `listEmbed` throws: no platform word, or an embed past the builder's
   * limits.
   */
  function Listing(s: Snapshot, guild: string, args: seq<string>, mention: Option<string> -> string): Option<ListEmbed>
  {
    if args == [] then None
    else
      var e := ListEmbed(ListTitle(args[0]), ListBody(s, guild, args[0], mention));
      if ListFits(e) then Some(e) else None
  }

  /**
   * The reply to a parsed command once the sender's record is ensured, given
   * the list embed `listing` that `list` would send (None when it throws).
   * Exactly the set-commands are acknowledged, with the property the command
   * word names and the trimmed argument text.
   */
  function Answer(ensured: Snapshot, msg: Message, key: string, parsed: Parsed, listing: Option<ListEmbed>,
                  userName: string -> Option<string>): (r: Reply)
    ensures r != Ignored
    ensures r.Stored? <==> IsSetCommand(parsed.cmd)
    ensures r.Stored? ==> r.property == parsed.cmd && r.value == Trim(Join(parsed.args, ' '))
    ensures r == HelpSent <==> Classify(parsed.cmd) == Help
    ensures r.ListSent? <==> Classify(parsed.cmd) == List && listing.Some?
    ensures r.ListSent? ==> r.to == Author && r.list == listing.value
    ensures r == Aborted <==> (Classify(parsed.cmd) == File && msg.mentions == [])
                              || (Classify(parsed.cmd) == List && listing.None?)
    ensures r.ProfileSent? <==> Classify(parsed.cmd) in {Me, Preview} || (Classify(parsed.cmd) == File && msg.mentions != [])
    ensures r.ProfileSent? ==> (r.to == Channel <==> Classify(parsed.cmd) == Me || r.embed.NoProfile?)
  {
    WritesOwnName(parsed.cmd);
    match Classify(parsed.cmd)
    case Help => HelpSent
    case Preview => ProfileReply(RenderProfile(ensured, key, userName), Author)
    case Me => ProfileReply(RenderProfile(ensured, key, userName), Channel)
    case File =>
      if msg.mentions == [] then Aborted
      else ProfileReply(RenderProfile(ensured, MakeKey(msg.guild, msg.mentions[0]), userName), Author)
    case Describe => Stored("description", Trim(Join(parsed.args, ' ')))
    case SetHandle(p) => Stored(PropName(p), Trim(Join(parsed.args, ' ')))
    case SetSteamUrl => Stored("steamurl", Trim(Join(parsed.args, ' ')))
    case List => if listing.None? then Aborted else ListSent(Author, listing.value)
    case Unknown => NotUnderstood
  }

  /** Only `list` sends the list embed: for every other command the reply does not depend on it. */
  lemma AnswerListing(ensured: Snapshot, msg: Message, key: string, parsed: Parsed, l1: Option<ListEmbed>,
                      l2: Option<ListEmbed>,
                      userName: string -> Option<string>)
    requires Classify(parsed.cmd) == List ==> l1 == l2
    ensures Answer(ensured, msg, key, parsed, l1, userName) == Answer(ensured, msg, key, parsed, l2, userName)
  {
  }

  /**
   * The reply to `msg` given the store `s` it arrived at. The list is read
   * from `s` itself, since `listEmbed` filters before the deferred `ensure`
   * runs; the profile views read the store after `ensure`.
   */
  function Response(s: Snapshot, msg: Message, prefix: string, userName: string -> Option<string>,
                    mention: Option<string> -> string): Reply
  {
    if !Handled(msg, prefix) then Ignored
    else
      var parsed := Parse(msg.content, prefix);
      var key := SenderKey(msg);
      Answer(Ensured(s, key, Identity(msg)), msg, key, parsed, Listing(s, msg.guild, parsed.args, mention), userName)
  }

  /**
   * A command that is not a set-command, the unrecognised ones included, only
   * ensures the sender's record.
   */
  lemma NonSetCommandOnlyEnsures(s: Snapshot, msg: Message, prefix: string)
    requires Handled(msg, prefix) && !IsSetCommand(Parse(msg.content, prefix).cmd)
    ensures Effect(s, msg, prefix) == Ensured(s, SenderKey(msg), Identity(msg))
  {
    WritesOwnName(Parse(msg.content, prefix).cmd);
  }

  /**
   * A set-command writes exactly the property named by the command word, to
   * the trimmed text after the command word, into the sender's record (a new
   * record starting from `{id, guild}`); every other property is unchanged.
   */
  lemma SetCommandWritesOneProperty(s: Snapshot, msg: Message, prefix: string)
    requires Handled(msg, prefix) && IsSetCommand(Parse(msg.content, prefix).cmd)
    ensures var cmd := Parse(msg.content, prefix).cmd;
            var key := SenderKey(msg);
            var before := if key in s.records then s.records[key] else Identity(msg);
            && Effect(s, msg, prefix).records[key] == before[cmd := CommandValue(msg, prefix)]
            && Effect(s, msg, prefix).order == Ensured(s, key, Identity(msg)).order
  {
    var cmd := Parse(msg.content, prefix).cmd;
    WritesOwnName(cmd);
    var key := SenderKey(msg);
    var ensured := Ensured(s, key, Identity(msg));
    var effect := Apply(ensured, key, Classify(cmd), CommandValue(msg, prefix));
    assert Effect(s, msg, prefix) == effect;
    assert ensured.records[key] == if key in s.records then s.records[key] else Identity(msg);
  }

  /**
   * The first command of a sender in a guild creates its record: `{id, guild}`,
   * plus the written property for a set-command.
   */
  lemma FirstCommandCreatesProfile(s: Snapshot, msg: Message, prefix: string)
    requires Handled(msg, prefix) && SenderKey(msg) !in s.records
    ensures var cmd := Parse(msg.content, prefix).cmd;
            var created := Effect(s, msg, prefix).records[SenderKey(msg)];
            && (IsSetCommand(cmd) ==> created == Identity(msg)[cmd := CommandValue(msg, prefix)])
            && (!IsSetCommand(cmd) ==> created == Identity(msg))
            && Effect(s, msg, prefix).order == s.order + [SenderKey(msg)]
  {
    var cmd := Parse(msg.content, prefix).cmd;
    WritesOwnName(cmd);
    var key := SenderKey(msg);
    var ensured := Ensured(s, key, Identity(msg));
    var effect := Apply(ensured, key, Classify(cmd), CommandValue(msg, prefix));
    assert Effect(s, msg, prefix) == effect;
  }

  /** Handling the same message twice leaves the store as handling it once. */
  lemma EffectIdempotent(s: Snapshot, msg: Message, prefix: string)
    ensures Effect(Effect(s, msg, prefix), msg, prefix) == Effect(s, msg, prefix)
  {
    if Handled(msg, prefix) {
      var key := SenderKey(msg);
      var ensured := Ensured(s, key, Identity(msg));
      match WrittenProperty(Classify(Parse(msg.content, prefix).cmd))
      case Some(path) =>
        WriteIdempotent(ensured, key, path, CommandValue(msg, prefix));
      case None =>
    }
  }

  /** Handling keeps the store well-formed. */
  lemma EffectPreservesWellformed(s: Snapshot, msg: Message, prefix: string)
    requires Wellformed(s)
    ensures Wellformed(Effect(s, msg, prefix))
  {
    if Handled(msg, prefix) {
      var key := SenderKey(msg);
      EnsurePreservesWellformed(s, key, Identity(msg));
      var ensured := Ensured(s, key, Identity(msg));
      match WrittenProperty(Classify(Parse(msg.content, prefix).cmd))
      case Some(path) => WritePreservesWellformed(ensured, key, path, CommandValue(msg, prefix));
      case None =>
    }
  }

  /**
   * `me` and `preview` never meet a missing record: the sender's record was
   * just ensured. They show the sender's record as the message leaves it, as a
   * card exactly when the user is known and the embed builder takes the record.
   */
  lemma OwnProfileNeverMissing(s: Snapshot, msg: Message, prefix: string, userName: string -> Option<string>,
                               mention: Option<string> -> string)
    requires Handled(msg, prefix)
    requires Classify(Parse(msg.content, prefix).cmd) in {Me, Preview}
    ensures var r := Response(s, msg, prefix, userName, mention);
            && r.ProfileSent?
            && r.embed != NoProfile(MissingRecord)
            && SenderKey(msg) in Effect(s, msg, prefix).records
            && (r.embed.Card? <==> userName(KeyId(SenderKey(msg))).Some?
                                   && Presentable(Effect(s, msg, prefix).records[SenderKey(msg)]))
            && (r.embed.Card? ==> r.embed.fields == ProfileFields(Effect(s, msg, prefix).records[SenderKey(msg)]))
  {
    var parsed := Parse(msg.content, prefix);
    var key := SenderKey(msg);
    var ensured := Ensured(s, key, Identity(msg));
    var listing := Listing(s, msg.guild, parsed.args, mention);
    WritesOwnName(parsed.cmd);
    NonSetCommandOnlyEnsures(s, msg, prefix);
    assert Effect(s, msg, prefix) == ensured;
    assert Response(s, msg, prefix, userName, mention) == Answer(ensured, msg, key, parsed, listing, userName);
    AnswerOwnProfile(ensured, msg, key, parsed, listing, userName);
  }

  /** `me` and `preview` render the record under the sender's own key. */
  lemma AnswerOwnProfile(ensured: Snapshot, msg: Message, key: string, parsed: Parsed, listing: Option<ListEmbed>,
                         userName: string -> Option<string>)
    requires Classify(parsed.cmd) in {Me, Preview}
    ensures Answer(ensured, msg, key, parsed, listing, userName).embed == RenderProfile(ensured, key, userName)
  {
  }

  /**
   * The handler answers exactly the messages of non-bots that start with the
   * prefix or the upper-cased prefix; every other message is ignored and
   * leaves the store as it was.
   */
  lemma IgnoredIffNotCommand(s: Snapshot, msg: Message, prefix: string, userName: string -> Option<string>,
                             mention: Option<string> -> string)
    ensures Response(s, msg, prefix, userName, mention) == Ignored <==> !Handled(msg, prefix)
    ensures !Handled(msg, prefix) ==> Effect(s, msg, prefix) == s
  {
  }

  /** The unrecognised commands get the failure reactions and write nothing. */
  lemma UnknownCommandNotUnderstood(s: Snapshot, msg: Message, prefix: string, userName: string -> Option<string>,
                                    mention: Option<string> -> string)
    requires Handled(msg, prefix) && Classify(Parse(msg.content, prefix).cmd) == Unknown
    ensures Response(s, msg, prefix, userName, mention) == NotUnderstood
    ensures Effect(s, msg, prefix) == Ensured(s, SenderKey(msg), Identity(msg))
  {
  }

  /**
   * The acknowledgement reports what was stored: exactly the set-commands are
   * acknowledged, and the acknowledged value is what the sender's record holds
   * afterwards under the acknowledged property.
   */
  lemma AcknowledgedValueIsStored(s: Snapshot, msg: Message, prefix: string, userName: string -> Option<string>,
                                  mention: Option<string> -> string)
    ensures Response(s, msg, prefix, userName, mention).Stored?
            <==> Handled(msg, prefix) && IsSetCommand(Parse(msg.content, prefix).cmd)
    ensures var r := Response(s, msg, prefix, userName, mention);
            var after := Effect(s, msg, prefix);
            r.Stored? ==> && r.value == CommandValue(msg, prefix)
                          && SenderKey(msg) in after.records
                          && r.property in after.records[SenderKey(msg)]
                          && after.records[SenderKey(msg)][r.property] == r.value
  {
    if Handled(msg, prefix) && IsSetCommand(Parse(msg.content, prefix).cmd) {
      SetCommandWritesOneProperty(s, msg, prefix);
    }
  }

  /**
   * Only `list` with a platform word sends the list, always to the author, read
   * from the store as the message found it; it is sent unless the embed builder
   * rejects its title or body.
   */
  lemma ListSentOnlyForList(s: Snapshot, msg: Message, prefix: string, userName: string -> Option<string>,
                            mention: Option<string> -> string)
    ensures var r := Response(s, msg, prefix, userName, mention);
            var parsed := Parse(msg.content, prefix);
            r.ListSent? <==> && Handled(msg, prefix) && Classify(parsed.cmd) == List && parsed.args != []
                             && ListFits(ListEmbed(ListTitle(parsed.args[0]), ListBody(s, msg.guild, parsed.args[0], mention)))
    ensures var r := Response(s, msg, prefix, userName, mention);
            var parsed := Parse(msg.content, prefix);
            r.ListSent? ==> && parsed.args != [] && r.to == Author
                            && r.list.title == ListTitle(parsed.args[0])
                            && r.list.body == ListBody(s, msg.guild, parsed.args[0], mention)
  {
  }

  /**
   * A profile embed answers `me`, `preview`, and `file` with a mention. It goes
   * to the channel exactly for `me` or when it is the "No profile yet" embed.
   */
  lemma ProfileSentOnlyForViews(s: Snapshot, msg: Message, prefix: string, userName: string -> Option<string>,
                                mention: Option<string> -> string)
    ensures var r := Response(s, msg, prefix, userName, mention);
            var c := Classify(Parse(msg.content, prefix).cmd);
            r.ProfileSent? <==> Handled(msg, prefix) && (c == Me || c == Preview || (c == File && msg.mentions != []))
    ensures var r := Response(s, msg, prefix, userName, mention);
            var c := Classify(Parse(msg.content, prefix).cmd);
            r.ProfileSent? ==> (r.to == Channel <==> c == Me || r.embed.NoProfile?)
  {
  }

  /**
   * `file` shows the first mentioned member's record as the store holds it
   * after the message; the record is missing only for a member other than the
   * sender who has none in the guild.
   */
  lemma FileShowsMentioned(s: Snapshot, msg: Message, prefix: string, userName: string -> Option<string>,
                           mention: Option<string> -> string)
    requires Handled(msg, prefix) && Classify(Parse(msg.content, prefix).cmd) == File && msg.mentions != []
    ensures var r := Response(s, msg, prefix, userName, mention);
            var target := MakeKey(msg.guild, msg.mentions[0]);
            var after := Effect(s, msg, prefix);
            && r.ProfileSent?
            && (r.embed == NoProfile(MissingRecord) <==> target !in after.records)
            && (target !in after.records <==> target !in s.records && target != SenderKey(msg))
            && (r.embed.Card? ==> r.to == Author && r.embed.fields == ProfileFields(after.records[target]))
  {
    var parsed := Parse(msg.content, prefix);
    var key := SenderKey(msg);
    var ensured := Ensured(s, key, Identity(msg));
    var target := MakeKey(msg.guild, msg.mentions[0]);
    var listing := Listing(s, msg.guild, parsed.args, mention);
    WritesOwnName(parsed.cmd);
    NonSetCommandOnlyEnsures(s, msg, prefix);
    assert Effect(s, msg, prefix) == ensured;
    assert Response(s, msg, prefix, userName, mention) == Answer(ensured, msg, key, parsed, listing, userName);
    assert Answer(ensured, msg, key, parsed, listing, userName)
           == ProfileReply(RenderProfile(ensured, target, userName), Author);
    EnsuredView(s, key, Identity(msg), target, userName);
  }

  /** A profile read after an `ensure` shows the stored record, missing only for another key never stored. */
  lemma EnsuredView(s: Snapshot, key: string, init: Record, target: string, userName: string -> Option<string>)
    ensures var after := Ensured(s, key, init);
            var v := RenderProfile(after, target, userName);
            && (v == NoProfile(MissingRecord) <==> target !in after.records)
            && (target !in after.records <==> target !in s.records && target != key)
            && (v.Card? ==> v.fields == ProfileFields(after.records[target]))
  {
  }

  /**
   * The handler throws for `file` without a mention, and for `list` without a
   * platform word or with a list the embed builder rejects. The sender's
   * `ensure` is already scheduled by then.
   */
  lemma AbortedOnlyWhenThrown(s: Snapshot, msg: Message, prefix: string, userName: string -> Option<string>,
                              mention: Option<string> -> string)
    ensures var parsed := Parse(msg.content, prefix);
            var c := Classify(parsed.cmd);
            Response(s, msg, prefix, userName, mention) == Aborted
            <==> && Handled(msg, prefix)
                 && ((c == File && msg.mentions == [])
                     || (c == List && (parsed.args == []
                                       || !ListFits(ListEmbed(ListTitle(parsed.args[0]),
                                                              ListBody(s, msg.guild, parsed.args[0], mention))))))
    ensures Response(s, msg, prefix, userName, mention) == Aborted
            ==> Effect(s, msg, prefix) == Ensured(s, SenderKey(msg), Identity(msg))
  {
    if Handled(msg, prefix) && !IsSetCommand(Parse(msg.content, prefix).cmd) {
      NonSetCommandOnlyEnsures(s, msg, prefix);
    }
  }

  /** The help embed answers `help` and nothing else. */
  lemma HelpOnlyForHelp(s: Snapshot, msg: Message, prefix: string, userName: string -> Option<string>,
                        mention: Option<string> -> string)
    ensures Response(s, msg, prefix, userName, mention) == HelpSent
            <==> Handled(msg, prefix) && Classify(Parse(msg.content, prefix).cmd) == Help
  {
  }

  /**
   * Reading the list before the sender's record is ensured shows the same body
   * as reading it after: a fresh `{id, guild}` record holds no platform handle.
   */
  lemma ListUnaffectedByEnsure(s: Snapshot, msg: Message, platform: string, mention: Option<string> -> string)
    requires Wellformed(s)
    ensures ListBody(Ensured(s, SenderKey(msg), Identity(msg)), msg.guild, platform, mention)
            == ListBody(s, msg.guild, platform, mention)
  {
    if PlatformNamed(platform).Some? {
      PropNameNotIdentity(PlatformNamed(platform).value);
      assert platform !in Identity(msg);
      FilteredUnaffectedByEnsure(s, SenderKey(msg), Identity(msg), msg.guild, platform);
    }
  }

  /** A set-command's body: the value rebuilt from the arguments, written to property `path`. */
  method StoreArgs(store: Store, key: string, path: string, args: seq<string>) returns (value: string)
    requires store.Valid()
    modifies store
    ensures store.Valid()
    ensures value == Trim(Join(args, ' '))
    ensures store.Value() == Written(old(store.Value()), key, path, value)
  {
    value := BuildValue(args);
    store.Set(key, value, path);
  }

  /** The `switch` cases that only read the store: help, the profile views, the list and `default`. */
  method View(store: Store, msg: Message, key: string, parsed: Parsed, listing: Option<ListEmbed>,
              userName: string -> Option<string>)
    returns (reply: Reply)
    requires !IsSetCommand(parsed.cmd)
    ensures !reply.Stored?
    ensures reply == Answer(store.Value(), msg, key, parsed, listing, userName)
  {
    match Classify(parsed.cmd) {
      case Help =>
        reply := HelpSent;
      case Preview =>
        reply := ProfileReply(RenderProfile(store.Value(), key, userName), Author);
      case Me =>
        reply := ProfileReply(RenderProfile(store.Value(), key, userName), Channel);
      case File =>
        if msg.mentions == [] {
          reply := Aborted;
        } else {
          var target := MakeKey(msg.guild, msg.mentions[0]);
          reply := ProfileReply(RenderProfile(store.Value(), target, userName), Author);
        }
      case List =>
        if listing.None? {
          reply := Aborted;  // `listEmbed` threw
        } else {
          reply := ListSent(Author, listing.value);
        }
      case Unknown =>
        reply := NotUnderstood;
      case _ =>
        WritesOwnName(parsed.cmd);
        assert false;
    }
  }

  /** The `switch` cases of the twelve set-commands: the rebuilt value written to the property the command names. */
  method SetCommand(store: Store, msg: Message, key: string, parsed: Parsed, listing: Option<ListEmbed>,
                    userName: string -> Option<string>)
    returns (reply: Reply)
    requires store.Valid() && key in store.records && IsSetCommand(parsed.cmd)
    modifies store
    ensures store.Valid()
    ensures store.Value() == Apply(old(store.Value()), key, Classify(parsed.cmd), Trim(Join(parsed.args, ' ')))
    ensures reply == Answer(old(store.Value()), msg, key, parsed, listing, userName)
  {
    var cmd, args := parsed.cmd, parsed.args;
    ghost var s := store.Value();
    WritesOwnName(cmd);
    match Classify(cmd) {
      case Describe =>
        var description := StoreArgs(store, key, "description", args);
        reply := Stored("description", description);
        WrittenRecord(s, key, cmd, description);
      case SetHandle(p) =>
        var gamertag := StoreArgs(store, key, cmd, args);
        reply := Stored(PropName(p), gamertag);
        WrittenRecord(s, key, cmd, gamertag);
      case SetSteamUrl =>
        var url := StoreArgs(store, key, cmd, args);
        reply := Stored("steamurl", url);
        WrittenRecord(s, key, cmd, url);
      case _ =>
        assert false;
    }
  }

  /**
   * The `switch` of the handler, run once the sender's record is ensured:
   * at most one property written and the reply sent.
   */
  method Dispatch(store: Store, msg: Message, key: string, parsed: Parsed, listing: Option<ListEmbed>,
                  userName: string -> Option<string>)
    returns (reply: Reply)
    requires store.Valid() && key in store.records
    modifies store
    ensures store.Valid()
    ensures store.Value() == Apply(old(store.Value()), key, Classify(parsed.cmd), Trim(Join(parsed.args, ' ')))
    ensures reply == Answer(old(store.Value()), msg, key, parsed, listing, userName)
  {
    if IsSetCommand(parsed.cmd) {
      reply := SetCommand(store, msg, key, parsed, listing, userName);
    } else {
      WritesOwnName(parsed.cmd);
      reply := View(store, msg, key, parsed, listing, userName);
    }
  }

  /**
   * The `message` handler over the in-memory store. The store ends as Effect
   * says and the reply is the one Response gives for the store the message
   * arrived at.
   */
  method HandleMessage(store: Store, prefix: string, msg: Message,
                       userName: string -> Option<string>, mention: Option<string> -> string)
    returns (reply: Reply)
    requires store.Valid()
    modifies store
    ensures store.Valid()
    ensures store.Value() == Effect(old(store.Value()), msg, prefix)
    ensures reply == Response(old(store.Value()), msg, prefix, userName, mention)
  {
    if msg.authorIsBot {
      return Ignored;
    }
    if !IsCommand(msg.content, prefix) {
      return Ignored;
    }
    ghost var s0 := store.Value();
    var parsed := Parse(msg.content, prefix);
    var key := MakeKey(msg.guild, msg.author);

    // `listEmbed` filters synchronously, before the deferred `ensure` has run.
    var listing: Option<ListEmbed> := None;
    if Classify(parsed.cmd) == List && parsed.args != [] {
      listing := RenderList(store, msg.guild, parsed.args[0], mention);
    }
    ghost var expected := Listing(s0, msg.guild, parsed.args, mention);
    assert Classify(parsed.cmd) == List ==> listing == expected;

    store.Ensure(key, Identity(msg));
    reply := Dispatch(store, msg, key, parsed, listing, userName);
    assert Handled(msg, prefix);
    assert key == SenderKey(msg);
    assert Trim(Join(parsed.args, ' ')) == CommandValue(msg, prefix);
    assert store.Value() == Effect(s0, msg, prefix);
    AnswerListing(Ensured(s0, key, Identity(msg)), msg, key, parsed, listing, expected, userName);
    assert reply == Response(s0, msg, prefix, userName, mention);
  }
}
