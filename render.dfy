/**
 * The two embeds the bot renders: one member's profile card, and the list of
 * a guild's members on one platform. Embed decorations that carry no logic
 * (thumbnail, avatar, timestamp) are not represented.
 */
module Render {
  import opened Wrappers
  import opened JsStrings
  import opened Platforms
  import opened ProfileStore
  import opened Commands

  const NO_DESCRIPTION := "This user has not provided a description yet."
  const NO_PROFILE_TITLE := "No profile yet"
  const NO_PROFILE_DESCRIPTION := "This user does not yet have a profile."

  /** The embed builder's limits: it throws a RangeError past them. */
  const TITLE_LIMIT := 256
  const DESCRIPTION_LIMIT := 2048
  const FIELD_VALUE_LIMIT := 1024

  datatype EmbedField = EmbedField(name: string, value: string)

  /**
   * What made `profileEmbed` throw, reported in the "Error" field. When the
   * embed builder rejects a description or a field, the fallback embed still
   * carries the author and the fields added before the throw.
   */
  datatype LookupError =
    | MissingRecord   // `get(key)` gave undefined, so reading its `id` threw
    | UnknownUser     // the client knows no user with the key's id, so reading `username` threw
    | DescriptionTooLong(author: string)                                 // `setDescription` threw
    | FieldRejected(author: string, kept: seq<EmbedField>, field: EmbedField)  // `addField` threw on `field`

  /** The profile embed, or the fallback built in the `catch` handler. */
  datatype ProfileEmbed =
    | Card(author: string, description: string, fields: seq<EmbedField>)
    | NoProfile(error: LookupError)
  {
    function Description(): string
    {
      if Card? then description else NO_PROFILE_DESCRIPTION
    }
  }

  datatype ListEmbed = ListEmbed(title: string, body: string)

  /** The field title shown for a platform. */
  function Label(p: Platform): string
  {
    match p
    case Xbox => "Xbox"
    case Psn => "Playstation"
    case Steam => "Steam"
    case Uplay => "Uplay"
    case Gog => "GOG"
    case Switch => "Nintendo Switch"
    case Bnet => "Battle.net"
    case Origin => "EA Origin"
    case Epic => "Epic Games"
    case RocketId => "Rocket ID"
  }

  /** The order in which the profile card shows the platforms. */
  const PROFILE_ORDER: seq<Platform> := [Xbox, Psn, Steam, Uplay, Gog, Switch, Bnet, Origin, Epic, RocketId]

  /** The position of a platform in PROFILE_ORDER. */
  function Rank(p: Platform): (r: nat)
    ensures r < |PROFILE_ORDER| && PROFILE_ORDER[r] == p
  {
    match p
    case Xbox => 0
    case Psn => 1
    case Steam => 2
    case Uplay => 3
    case Gog => 4
    case Switch => 5
    case Bnet => 6
    case Origin => 7
    case Epic => 8
    case RocketId => 9
  }

  /** The position of the platform a field title belongs to, or 10 for any other title. */
  function LabelRank(name: string): (r: nat)
    ensures r <= |PROFILE_ORDER|
  {
    if name == "Xbox" then 0
    else if name == "Playstation" then 1
    else if name == "Steam" then 2
    else if name == "Uplay" then 3
    else if name == "GOG" then 4
    else if name == "Nintendo Switch" then 5
    else if name == "Battle.net" then 6
    else if name == "EA Origin" then 7
    else if name == "Epic Games" then 8
    else if name == "Rocket ID" then 9
    else 10
  }

  /** The profile-page URL a platform's handle is appended to, for the four platforms that have one. */
  function ProfileTemplate(p: Platform): Option<string>
  {
    match p
    case Xbox => Some("https://account.xbox.com/en-us/profile?gamertag=")
    case Psn => Some("https://my.playstation.com/profile/")
    case Uplay => Some("https://club.ubisoft.com/en-US/profile/")
    case Gog => Some("https://www.gog.com/u/")
    case _ => None
  }

  /** The list also links Steam handles, to a fixed Steam community template. */
  function ListTemplate(p: Platform): Option<string>
  {
    if p == Steam then Some("https://steamcommunity.com/id/") else ProfileTemplate(p)
  }

  /** A markdown link. */
  function Link(text: string, url: string): string
  {
    "[" + text + "](" + url + ")"
  }

  /** Reads a markdown link back into its text and its target, when the text holds no ']'. */
  function ParseLink(s: string): Option<(string, string)>
  {
    var i := IndexOf(s, ']');
    if 1 <= i && i + 2 <= |s| && s[0] == '[' && s[i + 1] == '(' && s[|s| - 1] == ')'
    then Some((s[1..i], s[i + 2..|s| - 1]))
    else None
  }

  /** A link can be read back into the handle and the target it was built from. */
  lemma ParseLinkInverse(text: string, url: string)
    requires ']' !in text
    ensures ParseLink(Link(text, url)) == Some((text, url))
  {
    var s := Link(text, url);
    IndexOfAfter("[" + text, ']', "(" + url + ")");
    assert s == "[" + text + [']'] + ("(" + url + ")");
    assert ']' !in "[" + text;
    assert s[1..|text| + 1] == text;
    assert s[|text| + 3..|s| - 1] == url;
  }

  /** A templated link to a handle: the handle is the text and, with its spaces encoded, ends the target. */
  function HandleLink(handle: string, template: string): string
  {
    Link(handle, template + EncodeSpaces(handle))
  }

  /**
   * The value shown for a platform on the profile card: a link for the four
   * templated platforms, a link to `steamurl` for Steam when that property is
   * present, otherwise the handle as plain text.
   */
  function ProfileValue(r: Record, p: Platform): string
    requires PropName(p) in r
  {
    var handle := r[PropName(p)];
    if p == Steam then
      if "steamurl" in r then Link(handle, r["steamurl"]) else handle
    else match ProfileTemplate(p)
      case Some(t) => HandleLink(handle, t)
      case None => handle
  }

  /** The link rule of the profile card, and that a link's target never holds a space the handle had. */
  lemma ProfileValueRule(r: Record, p: Platform)
    requires PropName(p) in r
    ensures var handle := r[PropName(p)];
            && (ProfileTemplate(p).Some? ==>
                  ProfileValue(r, p) == Link(handle, ProfileTemplate(p).value + EncodeSpaces(handle)))
            && (p == Steam && "steamurl" in r ==> ProfileValue(r, p) == Link(handle, r["steamurl"]))
            && (ProfileTemplate(p).Some? ==>
                  ']' !in handle ==> ParseLink(ProfileValue(r, p))
                                     == Some((handle, ProfileTemplate(p).value + EncodeSpaces(handle))))
            && (p == Steam && "steamurl" in r && ']' !in handle ==>
                  ParseLink(ProfileValue(r, p)) == Some((handle, r["steamurl"])))
            && (p == Steam && "steamurl" !in r ==> ProfileValue(r, p) == handle)
            && (p in {Switch, Bnet, Origin, Epic, RocketId} ==> ProfileValue(r, p) == handle)
  {
    var handle := r[PropName(p)];
    if ProfileTemplate(p).Some? && ']' !in handle {
      ParseLinkInverse(handle, ProfileTemplate(p).value + EncodeSpaces(handle));
    }
    if p == Steam && "steamurl" in r && ']' !in handle {
      ParseLinkInverse(handle, r["steamurl"]);
    }
  }

  function PlatformField(r: Record, p: Platform): EmbedField
    requires PropName(p) in r
  {
    EmbedField(Label(p), ProfileValue(r, p))
  }

  /** The fields for the platforms of `ps` that the record has, in the order of `ps`. */
  function FieldsFor(r: Record, ps: seq<Platform>): seq<EmbedField>
  {
    if ps == [] then []
    else if PropName(ps[0]) in r then [PlatformField(r, ps[0])] + FieldsFor(r, ps[1..])
    else FieldsFor(r, ps[1..])
  }

  /** The platform fields of a profile card, one per present platform. */
  function ProfileFields(r: Record): seq<EmbedField>
  {
    FieldsFor(r, PROFILE_ORDER)
  }

  /** The platforms of `ps` come in strictly increasing rank. */
  predicate RankSorted(ps: seq<Platform>)
  {
    forall i, j :: 0 <= i < j < |ps| ==> Rank(ps[i]) < Rank(ps[j])
  }

  lemma ProfileOrderSorted()
    ensures RankSorted(PROFILE_ORDER)
  {
    forall i | 0 <= i < |PROFILE_ORDER| ensures Rank(PROFILE_ORDER[i]) == i {
      if i == 0 {} else if i == 1 {} else if i == 2 {} else if i == 3 {} else if i == 4 {}
      else if i == 5 {} else if i == 6 {} else if i == 7 {} else if i == 8 {} else {}
    }
  }

  /** A field title is ranked as the platform it belongs to. */
  lemma LabelRankOfLabel(p: Platform)
    ensures LabelRank(Label(p)) == Rank(p)
  {
  }

  /** Every field title ranks at least `lo` among the platforms. */
  predicate RanksFrom(fs: seq<EmbedField>, lo: nat)
  {
    forall i :: 0 <= i < |fs| ==> lo <= LabelRank(fs[i].name) < |PROFILE_ORDER|
  }

  /** The field titles come in strictly increasing platform rank, so none repeats. */
  predicate RankIncreasing(fs: seq<EmbedField>)
  {
    forall i, j :: 0 <= i < j < |fs| ==> LabelRank(fs[i].name) < LabelRank(fs[j].name)
  }

  /** A suffix of rank-sorted platforms is rank-sorted. */
  lemma RankSortedTail(ps: seq<Platform>)
    requires RankSorted(ps) && ps != []
    ensures RankSorted(ps[1..])
  {
    forall i, j | 0 <= i < j < |ps[1..]| ensures Rank(ps[1..][i]) < Rank(ps[1..][j]) {
      assert ps[1..][i] == ps[i + 1] && ps[1..][j] == ps[j + 1];
    }
  }

  /** A field ranked below every field of an increasing run starts a longer increasing run. */
  lemma RankedCons(f: EmbedField, fs: seq<EmbedField>, lo: nat)
    requires lo <= LabelRank(f.name) < |PROFILE_ORDER|
    requires RanksFrom(fs, LabelRank(f.name) + 1) && RankIncreasing(fs)
    ensures RanksFrom([f] + fs, lo) && RankIncreasing([f] + fs)
  {
    var gs := [f] + fs;
    forall i | 1 <= i < |gs| ensures gs[i] == fs[i - 1] { }
  }

  /** Over rank-sorted platforms the fields come out in rank order, none ranked below the first platform. */
  lemma {:induction false} FieldsForOrdered(r: Record, ps: seq<Platform>)
    requires RankSorted(ps)
    ensures ps != [] ==> RanksFrom(FieldsFor(r, ps), Rank(ps[0]))
    ensures RankIncreasing(FieldsFor(r, ps))
  {
    if ps != [] {
      var rest := FieldsFor(r, ps[1..]);
      RankSortedTail(ps);
      FieldsForOrdered(r, ps[1..]);
      assert RanksFrom(rest, Rank(ps[0]) + 1) by {
        if |ps| > 1 {
          assert ps[1..][0] == ps[1] && Rank(ps[0]) < Rank(ps[1]);
        }
      }
      if PropName(ps[0]) in r {
        LabelRankOfLabel(ps[0]);
        RankedCons(PlatformField(r, ps[0]), rest, Rank(ps[0]));
      }
    }
  }

  /** Every platform of `ps` that the record has gets its field. */
  lemma {:induction false} FieldsForComplete(r: Record, ps: seq<Platform>, p: Platform)
    requires p in ps && PropName(p) in r
    ensures PlatformField(r, p) in FieldsFor(r, ps)
  {
    if ps[0] != p {
      assert p in ps[1..];
      FieldsForComplete(r, ps[1..], p);
    }
  }

  /**
   * A profile card shows a field for every platform the record has, and its
   * fields follow PROFILE_ORDER (Xbox, Playstation, Steam, Uplay, GOG,
   * Nintendo Switch, Battle.net, EA Origin, Epic Games, Rocket ID) with no
   * title repeated.
   */
  lemma ProfileFieldsExact(r: Record)
    ensures forall p :: PropName(p) in r ==> PlatformField(r, p) in ProfileFields(r)
    ensures RanksFrom(ProfileFields(r), 0)
    ensures RankIncreasing(ProfileFields(r))
  {
    ProfileOrderSorted();
    FieldsForOrdered(r, PROFILE_ORDER);
    assert ProfileFields(r) == FieldsFor(r, PROFILE_ORDER);
    forall p | PropName(p) in r ensures PlatformField(r, p) in ProfileFields(r) {
      assert PROFILE_ORDER[Rank(p)] == p;
      FieldsForComplete(r, PROFILE_ORDER, p);
    }
  }

  /** Every field shown belongs to a platform the record has. */
  lemma {:induction false} ProfileFieldsSound(r: Record, ps: seq<Platform>, f: EmbedField)
    requires f in FieldsFor(r, ps)
    ensures exists p :: p in ps && PropName(p) in r && f == PlatformField(r, p)
  {
    if PropName(ps[0]) in r && f == PlatformField(r, ps[0]) {
    } else {
      ProfileFieldsSound(r, ps[1..], f);
      var p :| p in ps[1..] && PropName(p) in r && f == PlatformField(r, p);
      assert p in ps;
    }
  }

  /** `/\S/` finds nothing in the value: it is empty or all whitespace. */
  predicate Blank(v: string)
  {
    forall i :: 0 <= i < |v| ==> IsJsWhitespace(v[i])
  }

  /** `addField` takes a value that is not blank and at most FIELD_VALUE_LIMIT characters long. */
  predicate FieldAccepted(f: EmbedField)
  {
    !Blank(f.value) && |f.value| <= FIELD_VALUE_LIMIT
  }

  /** How many fields `addField` takes before the first one it rejects: all of them when it rejects none. */
  function FirstRejected(fs: seq<EmbedField>): (i: nat)
    ensures i <= |fs|
    ensures forall j :: 0 <= j < i ==> FieldAccepted(fs[j])
    ensures i < |fs| ==> !FieldAccepted(fs[i])
  {
    if fs == [] || !FieldAccepted(fs[0]) then 0 else 1 + FirstRejected(fs[1..])
  }

  /** The card's description: the record's own, or the fixed fallback text. */
  function CardDescription(r: Record): string
  {
    if "description" in r then r["description"] else NO_DESCRIPTION
  }

  /** The embed builder accepts the card of `r`: its description and every field are within the limits. */
  predicate Presentable(r: Record)
  {
    |CardDescription(r)| <= DESCRIPTION_LIMIT && forall f :: f in ProfileFields(r) ==> FieldAccepted(f)
  }

  /**
   * `profileEmbed(key)`: the record stored under `key` rendered as a card; the
   * description falls back to a fixed text when the record has none. A missing
   * record, an unknown user, or a description or field the embed builder
   * rejects gives the "No profile yet" embed.
   */
  function RenderProfile(s: Snapshot, key: string, userName: string -> Option<string>): (v: ProfileEmbed)
    ensures v == NoProfile(MissingRecord) <==> key !in s.records
    ensures v == NoProfile(UnknownUser) <==> key in s.records && userName(KeyId(key)).None?
    ensures v.Card? <==> key in s.records && userName(KeyId(key)).Some? && Presentable(s.records[key])
    ensures v.Card? ==> v.author == userName(KeyId(key)).value && v.fields == ProfileFields(s.records[key])
    ensures v.Card? && Has(s, key, "description") ==> v.Description() == s.records[key]["description"]
    ensures v.Card? && !Has(s, key, "description") ==> v.Description() == NO_DESCRIPTION
    ensures v.NoProfile? && v.error.DescriptionTooLong? ==>
              key in s.records && |CardDescription(s.records[key])| > DESCRIPTION_LIMIT
    ensures v.NoProfile? && v.error.FieldRejected? ==>
              && key in s.records && userName(KeyId(key)).Some?
              && v.error.author == userName(KeyId(key)).value
              && v.error.kept + [v.error.field] <= ProfileFields(s.records[key])
              && (forall f :: f in v.error.kept ==> FieldAccepted(f))
              && !FieldAccepted(v.error.field)
  {
    match Get(s, key)
    case None => NoProfile(MissingRecord)
    case Some(r) =>
      match userName(KeyId(key))
      case None => NoProfile(UnknownUser)
      case Some(name) =>
        var description := CardDescription(r);
        if |description| > DESCRIPTION_LIMIT then NoProfile(DescriptionTooLong(name))
        else
          var fs := ProfileFields(r);
          var i := FirstRejected(fs);
          if i < |fs| then
            assert fs[..i] + [fs[i]] == fs[..i + 1];
            NoProfile(FieldRejected(name, fs[..i], fs[i]))
          else Card(name, description, fs)
  }

  /** One line of the list: `name + '\t:\t' + value + '\n'`. */
  function MemberLine(p: Platform, r: Record, mention: Option<string> -> string): string
    requires PropName(p) in r
  {
    var handle := r[PropName(p)];
    var value := match ListTemplate(p)
      case Some(t) => HandleLink(handle, t)
      case None => handle;
    mention(if "id" in r then Some(r["id"]) else None) + "\t:\t" + value + "\n"
  }

  /** Every record of `rs` has the property of platform `p`. */
  predicate AllHave(p: Platform, rs: seq<Record>)
  {
    forall i :: 0 <= i < |rs| ==> PropName(p) in rs[i]
  }

  /** The list body: one line per record, in order, each appended after the lines before it. */
  function ListText(p: Platform, rs: seq<Record>, mention: Option<string> -> string): string
    requires AllHave(p, rs)
  {
    if rs == [] then ""
    else
      var init := rs[..|rs| - 1];
      assert AllHave(p, init) by {
        forall i | 0 <= i < |init| ensures PropName(p) in init[i] { assert init[i] == rs[i]; }
      }
      ListText(p, init, mention) + MemberLine(p, rs[|rs| - 1], mention)
  }

  /** Every prefix of records that all have the property does too. */
  lemma AllHavePrefix(p: Platform, rs: seq<Record>, n: nat)
    requires AllHave(p, rs) && n <= |rs|
    ensures AllHave(p, rs[..n])
  {
    forall j | 0 <= j < n ensures PropName(p) in rs[..n][j] { assert rs[..n][j] == rs[j]; }
  }

  /** One more record adds its line at the end of the body. */
  lemma ListTextSnoc(p: Platform, rs: seq<Record>, i: nat, mention: Option<string> -> string)
    requires AllHave(p, rs) && i < |rs|
    ensures AllHave(p, rs[..i]) && AllHave(p, rs[..i + 1])
    ensures ListText(p, rs[..i + 1], mention) == ListText(p, rs[..i], mention) + MemberLine(p, rs[i], mention)
  {
    AllHavePrefix(p, rs, i);
    AllHavePrefix(p, rs, i + 1);
    var q := rs[..i + 1];
    calc {
      ListText(p, q, mention);
      ListText(p, q[..|q| - 1], mention) + MemberLine(p, q[|q| - 1], mention);
      { assert q[..|q| - 1] == rs[..i] && q[|q| - 1] == rs[i]; }
      ListText(p, rs[..i], mention) + MemberLine(p, rs[i], mention);
    }
  }

  /**
   * In the list every templated platform, Steam included, is a link built from
   * the handle; Steam's target is the fixed Steam community template even when
   * the record has a `steamurl`.
   */
  lemma MemberLineRule(p: Platform, r: Record, mention: Option<string> -> string)
    requires PropName(p) in r
    ensures var handle := r[PropName(p)];
            var who := mention(if "id" in r then Some(r["id"]) else None);
            && (p == Steam ==>
                  MemberLine(p, r, mention)
                  == who + "\t:\t" + Link(handle, "https://steamcommunity.com/id/" + EncodeSpaces(handle)) + "\n")
            && (ListTemplate(p).None? ==> MemberLine(p, r, mention) == who + "\t:\t" + handle + "\n")
            && (p != Steam ==> ListTemplate(p) == ProfileTemplate(p))
            && (ProfileTemplate(p).Some? ==>
                  MemberLine(p, r, mention)
                  == who + "\t:\t" + Link(handle, ProfileTemplate(p).value + EncodeSpaces(handle)) + "\n")
  {
  }

  /** The list's title: the requested platform word upper-cased, then " Members". */
  function ListTitle(platform: string): (t: string)
    ensures |t| == |platform| + 8
    ensures t[..|platform|] == ToUpper(platform)
    ensures t[|platform|..] == " Members"
  {
    ToUpper(platform) + " Members"
  }

  /** The list body for a platform word: empty unless the word names one of the ten platforms. */
  function ListBody(s: Snapshot, guild: string, platform: string, mention: Option<string> -> string): string
  {
    match PlatformNamed(platform)
    case None => ""
    case Some(p) =>
      assert AllHave(p, Filtered(s, guild, platform));
      ListText(p, Filtered(s, guild, platform), mention)
  }

  /** A word that names none of the ten platforms gives an empty list body, whatever the store holds. */
  lemma UnknownPlatformListsNothing(s: Snapshot, guild: string, platform: string, mention: Option<string> -> string)
    requires PlatformNamed(platform).None?
    ensures ListBody(s, guild, platform, mention) == ""
  {
  }

  /** The embed builder accepts a list embed whose title and description are within its limits. */
  predicate ListFits(e: ListEmbed)
  {
    |e.title| <= TITLE_LIMIT && |e.body| <= DESCRIPTION_LIMIT
  }

  /**
   * `listEmbed(platform)`: filters the guild's records whose `platform`
   * property is truthy, then for a known platform appends one line per record;
   * an unknown platform word leaves the body empty. The embed builder throws
   * (None) when the title or the body is past its limit.
   */
  method RenderList(store: Store, guild: string, platform: string, mention: Option<string> -> string)
    returns (e: Option<ListEmbed>)
    ensures e.Some? <==> ListFits(ListEmbed(ListTitle(platform), ListBody(store.Value(), guild, platform, mention)))
    ensures e.Some? ==> e.value.title == ListTitle(platform)
    ensures e.Some? ==> e.value.body == ListBody(store.Value(), guild, platform, mention)
  {
    var filtered := Filtered(store.Value(), guild, platform);
    var title := ListTitle(platform);
    if |title| > TITLE_LIMIT {
      return None;  // `setTitle` throws before any line is built
    }
    var mems := "";
    var named := PlatformNamed(platform);
    if named.Some? {
      var p := named.value;
      assert AllHave(p, filtered);
      var i := 0;
      while i < |filtered|
        invariant 0 <= i <= |filtered|
        invariant AllHave(p, filtered[..i])
        invariant mems == ListText(p, filtered[..i], mention)
      {
        ListTextSnoc(p, filtered, i, mention);
        mems := mems + MemberLine(p, filtered[i], mention);
        i := i + 1;
      }
      assert filtered[..i] == filtered;
      assert mems == ListBody(store.Value(), guild, platform, mention);
    }
    if |mems| > DESCRIPTION_LIMIT {
      return None;  // `setDescription` throws
    }
    e := Some(ListEmbed(title, mems));
  }

  /**
   * A handle stored as "" (a platform command with no argument) is never
   * listed: the list tests truthiness. The card tests presence, but `addField`
   * rejects a blank value, so a "" handle reaches a card only inside a link:
   * for the four templated platforms, and for Steam with a `steamurl`.
   */
  lemma EmptyHandleOnlyLinked(s: Snapshot, key: string, p: Platform, userName: string -> Option<string>)
    requires key in s.records && PropName(p) in s.records[key] && s.records[key][PropName(p)] == ""
    ensures var r := s.records[key];
            var v := RenderProfile(s, key, userName);
            && (ProfileTemplate(p).Some? ==> FieldAccepted(PlatformField(r, p)))
            && (ProfileTemplate(p).None? && !(p == Steam && "steamurl" in r) ==> !v.Card?)
            && (v.Card? ==> PlatformField(r, p) in v.fields)
    ensures forall guild :: !Listed(s.records[key], guild, PropName(p))
  {
    var r := s.records[key];
    ProfileFieldsExact(r);
    var f := PlatformField(r, p);
    if ProfileTemplate(p).Some? {
      assert f.value[0] == '[';
    } else if !(p == Steam && "steamurl" in r) {
      assert f.value == "";
    }
  }

  /** `list XBOX` gets the same title as `list xbox` (though not the same body: the platform test is case-sensitive). */
  lemma ListTitleIgnoresCase(platform: string)
    ensures ListTitle(ToUpper(platform)) == ListTitle(platform)
  {
    ToUpperIdempotent(platform);
  }
}
