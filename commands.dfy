/** The ten gaming platforms a profile can hold a handle for. */
module Platforms {
  import opened Wrappers

  datatype Platform = Xbox | Psn | Switch | Steam | Epic | Uplay | Bnet | Origin | Gog | RocketId

  /** The command word, which is also the record property holding the handle. */
  function PropName(p: Platform): string
  {
    match p
    case Xbox => "xbox"
    case Psn => "psn"
    case Switch => "switch"
    case Steam => "steam"
    case Epic => "epic"
    case Uplay => "uplay"
    case Bnet => "bnet"
    case Origin => "origin"
    case Gog => "gog"
    case RocketId => "rocketid"
  }

  /** The platform whose command word is `name`, if any. */
  function PlatformNamed(name: string): (r: Option<Platform>)
    ensures r.Some? ==> PropName(r.value) == name
  {
    if name == "xbox" then Some(Xbox)
    else if name == "psn" then Some(Psn)
    else if name == "switch" then Some(Switch)
    else if name == "steam" then Some(Steam)
    else if name == "epic" then Some(Epic)
    else if name == "uplay" then Some(Uplay)
    else if name == "bnet" then Some(Bnet)
    else if name == "origin" then Some(Origin)
    else if name == "gog" then Some(Gog)
    else if name == "rocketid" then Some(RocketId)
    else None
  }

  /** No handle property collides with the identity properties of a record. */
  lemma PropNameNotIdentity(p: Platform)
    ensures PropName(p) != "id" && PropName(p) != "guild"
  {
  }

  /** Looking a platform up by its command word is the inverse of naming it, in both directions. */
  lemma PlatformNamedInverse(name: string, p: Platform)
    ensures PlatformNamed(name) == Some(p) <==> PropName(p) == name
  {
  }
}

/**
 * How the message handler reads a message: the prefix test, the split into a
 * command word and arguments, the stored value rebuilt from the arguments,
 * the record key and its split, and which record property a command writes.
 */
module Commands {
  import opened Wrappers
  import opened JsStrings
  import opened Platforms

  /**
   * A message is a command when its content starts with the configured prefix
   * or with the prefix upper-cased.
   */
  predicate IsCommand(content: string, prefix: string)
  {
    StartsWith(content, prefix) || StartsWith(content, ToUpper(prefix))
  }

  datatype Parsed = Parsed(cmd: string, args: seq<string>)

  /** The text after the prefix: `content.substring(prefix.length)`. */
  function Body(content: string, prefix: string): string
  {
    Substring(content, |prefix|, |content|)
  }

  /**
   * `content.substring(prefix.length).split(' ')`: the first token is the
   * command word, the others are the arguments.
   */
  function Parse(content: string, prefix: string): (p: Parsed)
    ensures ' ' !in p.cmd
    ensures forall i :: 0 <= i < |p.args| ==> ' ' !in p.args[i]
    ensures Join([p.cmd] + p.args, ' ') == Body(content, prefix)
  {
    var tokens := Split(Body(content, prefix), ' ');
    assert tokens == [tokens[0]] + tokens[1..];
    Parsed(tokens[0], tokens[1..])
  }

  /** The three clauses of Parse determine its result: no other split has them. */
  lemma ParseUnique(content: string, prefix: string, q: Parsed)
    requires ' ' !in q.cmd
    requires forall i :: 0 <= i < |q.args| ==> ' ' !in q.args[i]
    requires Join([q.cmd] + q.args, ' ') == Body(content, prefix)
    ensures q == Parse(content, prefix)
  {
    var parts := [q.cmd] + q.args;
    assert forall i :: 0 <= i < |parts| ==> ' ' !in parts[i] by {
      forall i | 0 <= i < |parts| ensures ' ' !in parts[i] {
        if i > 0 { assert parts[i] == q.args[i - 1]; }
      }
    }
    SplitJoin(parts, ' ');
    assert parts[1..] == q.args;
  }

  /**
   * The value a set-command stores is the text after the command word with
   * its surrounding whitespace removed (interior spaces kept), or "" when the
   * body holds no space at all.
   */
  lemma StoredValueIsRestOfBody(content: string, prefix: string)
    ensures var body := Body(content, prefix);
            Trim(Join(Parse(content, prefix).args, ' '))
            == if ' ' in body then Trim(body[IndexOf(body, ' ') + 1..]) else ""
  {
    var body := Body(content, prefix);
    var tokens := Split(body, ' ');
    assert Parse(content, prefix).args == tokens[1..];
    var i := IndexOf(body, ' ');
    if i == -1 {
      assert tokens == [body];
    } else {
      assert tokens == [body[..i]] + Split(body[i + 1..], ' ');
      assert tokens[1..] == Split(body[i + 1..], ' ');
    }
  }

  /**
   * The loops at the set-commands: `value = value + ' ' + args[i]` for each
   * argument, then `value.trim()`. The result is the trimmed `' '`-join of the
   * arguments.
   */
  method BuildValue(args: seq<string>) returns (value: string)
    ensures value == Trim(Join(args, ' '))
  {
    value := "";
    var i := 0;
    while i < |args|
      invariant 0 <= i <= |args|
      invariant value == if i == 0 then "" else [' '] + Join(args[..i], ' ')
    {
      if i > 0 {
        JoinSnoc(args[..i], args[i], ' ');
      }
      assert args[..i + 1] == args[..i] + [args[i]];
      value := value + " " + args[i];
      i := i + 1;
    }
    assert args[..i] == args;
    if i > 0 {
      TrimLeadingSpace(Join(args, ' '));
    }
    value := Trim(value);
  }

  /** The record key: `${guild}-${author}`. */
  function MakeKey(guild: string, author: string): string
  {
    guild + "-" + author
  }

  /** `key.substring(0, key.indexOf('-'))`, the guild part of a key. */
  function KeyGuild(key: string): string
  {
    Substring(key, 0, IndexOf(key, '-'))
  }

  /** `key.substring(key.indexOf('-') + 1)`, the user part of a key. */
  function KeyId(key: string): string
  {
    Substring(key, IndexOf(key, '-') + 1, |key|)
  }

  /** Splitting a built key returns its guild and user whenever the guild holds no '-'. */
  lemma KeyRoundTrip(guild: string, author: string)
    requires '-' !in guild
    ensures KeyGuild(MakeKey(guild, author)) == guild
    ensures KeyId(MakeKey(guild, author)) == author
  {
    IndexOfAfter(guild, '-', author);
    var key := MakeKey(guild, author);
    assert key[..|guild|] == guild;
    assert key[|guild| + 1..] == author;
  }

  /** Rebuilding a key from its two parts gives the key back whenever it holds a '-'. */
  lemma KeyRebuild(key: string)
    requires '-' in key
    ensures MakeKey(KeyGuild(key), KeyId(key)) == key
  {
    var i := IndexOf(key, '-');
    assert key == key[..i] + "-" + key[i + 1..];
  }

  /** A key without '-' splits into an empty guild and the whole key as user (JavaScript's clamping of -1). */
  lemma KeyWithoutDash(key: string)
    requires '-' !in key
    ensures KeyGuild(key) == "" && KeyId(key) == key
  {
  }

  /** The commands of the handler's `switch`. */
  datatype Command =
    | Help
    | Preview
    | Me
    | File
    | Describe
    | SetHandle(platform: Platform)
    | SetSteamUrl
    | List
    | Unknown

  /** The `case` label that a command word selects; matching is case-sensitive. */
  function Classify(cmd: string): Command
  {
    if cmd == "help" then Help
    else if cmd == "preview" then Preview
    else if cmd == "me" then Me
    else if cmd == "file" then File
    else if cmd == "description" then Describe
    else if cmd == "steamurl" then SetSteamUrl
    else if cmd == "list" then List
    else match PlatformNamed(cmd)
      case Some(p) => SetHandle(p)
      case None => Unknown
  }

  /** The record property a command writes, or None for a command that writes nothing. */
  function WrittenProperty(c: Command): Option<string>
  {
    match c
    case Describe => Some("description")
    case SetHandle(p) => Some(PropName(p))
    case SetSteamUrl => Some("steamurl")
    case _ => None
  }

  /** The twelve set-commands. */
  predicate IsSetCommand(cmd: string)
  {
    cmd == "description" || cmd == "steamurl" || PlatformNamed(cmd).Some?
  }

  /**
   * Exactly the set-commands write a property, and the property written is
   * always the one named by the command word itself.
   */
  lemma WritesOwnName(cmd: string)
    ensures WrittenProperty(Classify(cmd)).Some? <==> IsSetCommand(cmd)
    ensures WrittenProperty(Classify(cmd)).Some? ==> WrittenProperty(Classify(cmd)).value == cmd
  {
    match PlatformNamed(cmd)
    case Some(p) => PlatformNamedInverse(cmd, p);
    case None =>
  }
}
