/** Reading the capsule keys from the settings. */
module CapsuleRuntime {
  import opened Prelude
  import Json
  import opened Base64Url
  import opened Capsule

  datatype Settings = Settings(keys: Option<string>, activeKid: Option<string>, enabled: bool)

  datatype SettingsError = MalformedEntry | InvalidKeyData | EnabledWithoutActiveKid | ActiveKidMissing

  function TrimStart(s: string): string {
    if s != "" && IsWhitespace(s[0]) then TrimStart(s[1..]) else s
  }

  function TrimEnd(s: string): string {
    if s != "" && IsWhitespace(s[|s| - 1]) then TrimEnd(s[..|s| - 1]) else s
  }

  function Trim(s: string): string { TrimEnd(TrimStart(s)) }

  /** Rust's `split_once`. */
  function SplitOnce(s: string, c: char): Option<(string, string)> {
    if s == "" then None
    else if s[0] == c then Some(("", s[1..]))
    else match SplitOnce(s[1..], c)
      case None => None
      case Some((x, y)) => Some(([s[0]] + x, y))
  }

  function ParseEntry(entry: string): Result<(string, Key), SettingsError> {
    match SplitOnce(entry, ':')
    case None => Err(MalformedEntry)
    case Some((kid, encoded)) =>
      if Trim(kid) == "" || Trim(encoded) == "" then Err(MalformedEntry)
      else match Decode(Trim(encoded))
        case None => Err(InvalidKeyData)
        case Some(key) => Ok((Trim(kid), key))
  }

  type EntryReader = string -> Result<(string, Key), SettingsError>

  /** The keys of the entries read in order: the first bad entry fails them all, a later key id replaces. */
  function ParseEntries(read: EntryReader, entries: seq<string>): Result<map<string, Key>, SettingsError> {
    if entries == [] then Ok(map[])
    else match ParseEntries(read, entries[..|entries| - 1])
      case Err(e) => Err(e)
      case Ok(keys) =>
        match read(entries[|entries| - 1])
        case Err(e) => Err(e)
        case Ok((kid, key)) => Ok(keys[kid := key])
  }

  function EntriesOf(settings: Settings): seq<string> {
    match settings.keys
    case None => []
    case Some(text) => if IsBlank(text) then [] else Split(text, ',')
  }

  function Resolve(settings: Settings): Result<Runtime, SettingsError> {
    match ParseEntries(ParseEntry, EntriesOf(settings))
    case Err(e) => Err(e)
    case Ok(keys) =>
      if settings.enabled && !NonEmpty(settings.activeKid) then Err(EnabledWithoutActiveKid)
      else if settings.enabled && settings.activeKid.value !in keys then Err(ActiveKidMissing)
      else Ok(Runtime(Keyring(keys, settings.activeKid), settings.enabled))
  }

  method ReadEntries(read: EntryReader, entries: seq<string>) returns (r: Result<map<string, Key>, SettingsError>)
    ensures r == ParseEntries(read, entries)
  {
    var keys: map<string, Key> := map[];
    for i := 0 to |entries|
      invariant ParseEntries(read, entries[..i]) == Ok(keys)
    {
      assert entries[..i + 1][..i] == entries[..i];
      var entry := read(entries[i]);
      if entry.Err? {
        ErrorStays(read, entries, i + 1);
        return Err(entry.error);
      }
      keys := keys[entry.value.0 := entry.value.1];
    }
    assert entries[..|entries|] == entries;
    return Ok(keys);
  }

  method ResolveCapsuleRuntime(settings: Settings) returns (r: Result<Runtime, SettingsError>)
    ensures r == Resolve(settings)
  {
    var keys := ReadEntries(ParseEntry, EntriesOf(settings));
    if keys.Err? {
      return Err(keys.error);
    }
    if settings.enabled {
      if !NonEmpty(settings.activeKid) {
        return Err(EnabledWithoutActiveKid);
      }
      if settings.activeKid.value !in keys.value {
        return Err(ActiveKidMissing);
      }
    }
    return Ok(Runtime(Keyring(keys.value, settings.activeKid), settings.enabled));
  }

  lemma {:induction false} ErrorStays(read: EntryReader, entries: seq<string>, n: nat)
    requires n <= |entries| && ParseEntries(read, entries[..n]).Err?
    ensures ParseEntries(read, entries) == ParseEntries(read, entries[..n])
    decreases |entries|
  {
    if n == |entries| {
      assert entries[..n] == entries;
    } else {
      assert entries[..|entries| - 1][..n] == entries[..n];
      ErrorStays(read, entries[..|entries| - 1], n);
    }
  }

  // ---- what the settings say ----

  lemma {:induction false} TrimStartIs(space: string, s: string)
    requires IsBlank(space) && (s == "" || !IsWhitespace(s[0]))
    ensures TrimStart(space + s) == s
  {
    if space == "" {
      assert space + s == s;
    } else {
      assert (space + s)[1..] == space[1..] + s;
      TrimStartIs(space[1..], s);
    }
  }

  lemma {:induction false} TrimEndIs(s: string, space: string)
    requires IsBlank(space) && (s == "" || !IsWhitespace(s[|s| - 1]))
    ensures TrimEnd(s + space) == s
  {
    if space == "" {
      assert s + space == s;
    } else {
      assert (s + space)[..|s + space| - 1] == s + space[..|space| - 1];
      TrimEndIs(s, space[..|space| - 1]);
    }
  }

  /** The text has something in it, and no white space at its ends. */
  predicate IsTrim(s: string) { s != "" && !IsWhitespace(s[0]) && !IsWhitespace(s[|s| - 1]) }

  lemma {:induction false} TrimIs(before: string, s: string, behind: string)
    requires IsBlank(before) && IsBlank(behind) && IsTrim(s)
    ensures Trim(before + s + behind) == s
  {
    assert before + s + behind == before + (s + behind);
    assert (s + behind)[0] == s[0];
    TrimStartIs(before, s + behind);
    TrimEndIs(s, behind);
  }

  lemma {:induction false} SplitOnceIs(x: string, c: char, y: string)
    requires c !in x
    ensures SplitOnce(x + [c] + y, c) == Some((x, y))
  {
    var s := x + [c] + y;
    if x == "" {
      assert s[1..] == y;
    } else {
      assert s[1..] == x[1..] + [c] + y && s[0] == x[0] && x == [x[0]] + x[1..];
      SplitOnceIs(x[1..], c, y);
    }
  }

  /** An entry is a key id and a key in base64url around a colon; white space around either does not count. */
  lemma {:induction false} EntryIsRead(a: string, kid: string, b: string, c: string, encoded: string, d: string)
    requires IsBlank(a) && IsBlank(b) && IsBlank(c) && IsBlank(d) && IsTrim(kid) && IsTrim(encoded)
    requires ':' !in a + kid + b
    ensures var entry := (a + kid + b) + ":" + (c + encoded + d);
            && (forall key :: encoded == Encode(key) ==> ParseEntry(entry) == Ok((kid, key)))
            && ((forall key :: encoded != Encode(key)) ==> ParseEntry(entry) == Err(InvalidKeyData))
  {
    SplitOnceIs(a + kid + b, ':', c + encoded + d);
    TrimIs(a, kid, b);
    TrimIs(c, encoded, d);
    forall key ensures encoded == Encode(key) <==> Decode(encoded) == Some(key) {
      DecodeIffEncoded(encoded, key);
    }
  }

  lemma {:induction false} BlankTrims(s: string)
    requires IsBlank(s)
    ensures Trim(s) == ""
  {
    if s != "" {
      assert TrimStart(s) == TrimStart(s[1..]);
      BlankTrims(s[1..]);
    }
  }

  lemma {:induction false} NoColonNoSplit(s: string, c: char)
    requires c !in s
    ensures SplitOnce(s, c).None?
  {
    if s != "" {
      assert s[0] in s && forall x <- s[1..] :: x in s;
      NoColonNoSplit(s[1..], c);
    }
  }

  /** An entry without a colon, or with nothing on one side of the first, is malformed. */
  lemma {:induction false} EntryIsMalformed(x: string, y: string)
    requires ':' !in x
    ensures ParseEntry(x) == Err(MalformedEntry)
    ensures IsBlank(x) || IsBlank(y) ==> ParseEntry(x + ":" + y) == Err(MalformedEntry)
  {
    NoColonNoSplit(x, ':');
    SplitOnceIs(x, ':', y);
    if IsBlank(x) {
      BlankTrims(x);
    }
    if IsBlank(y) {
      BlankTrims(y);
    }
  }

  /** The settings resolve unless an entry is bad, or minting is enabled without a key that could sign. */
  lemma {:induction false} SettingsResolveIff(settings: Settings)
    ensures var keys := ParseEntries(ParseEntry, EntriesOf(settings));
            if keys.Err? then Resolve(settings) == Err(keys.error)
            else match Resolve(settings)
              case Ok(runtime) =>
                && runtime.keyring.keys == keys.value && runtime.keyring.activeKid == settings.activeKid
                && runtime.encoderEnabled == settings.enabled
                && (settings.enabled ==> settings.activeKid.Some? && settings.activeKid.value != ""
                                         && settings.activeKid.value in keys.value)
              case Err(EnabledWithoutActiveKid) =>
                settings.enabled && (settings.activeKid == None || settings.activeKid == Some(""))
              case Err(ActiveKidMissing) =>
                && settings.enabled && settings.activeKid.Some? && settings.activeKid.value != ""
                && settings.activeKid.value !in keys.value
              case Err(_) => false
  {
  }

  /** The entries of the settings, joined by commas; without any text there are none. */
  lemma {:induction false} EntriesAre(settings: Settings)
    ensures settings.keys.None? || IsBlank(settings.keys.value) ==> EntriesOf(settings) == []
    ensures settings.keys.Some? && !IsBlank(settings.keys.value) ==>
              && Joined(EntriesOf(settings)) == settings.keys.value
              && forall entry <- EntriesOf(settings) :: ',' !in entry
  {
    if settings.keys.Some? {
      SplitIsJoined(settings.keys.value);
      SplitLeavesNone(settings.keys.value, ',');
    }
  }

  function Joined(entries: seq<string>): string {
    if entries == [] then "" else if |entries| == 1 then entries[0] else entries[0] + "," + Joined(entries[1..])
  }

  lemma {:induction false} SplitIsJoined(s: string)
    ensures Joined(Split(s, ',')) == s
  {
    if s != "" {
      var rest := Split(s[1..], ',');
      SplitIsJoined(s[1..]);
      assert s == [s[0]] + s[1..];
      if s[0] == ',' {
        assert ([""] + rest)[1..] == rest;
      } else {
        assert ([[s[0]] + rest[0]] + rest[1..])[1..] == rest[1..];
      }
    }
  }

  /** A runtime that may mint can: its encoder fails only for content it would not decode, or for size. */
  lemma {:induction false} EnabledRuntimeMints(lib: Library, settings: Settings, callId: string, items: seq<Json.Json>)
    requires Resolve(settings).Ok? && settings.enabled
    ensures var r := EncodeResponsesCapsule(lib, callId, items, Resolve(settings).value.keyring);
            r.Err? ==> r.error == SizeLimit
                       || (r.error == InvalidContent && (callId == "" || !AllValid(ItemIsValid, items)))
    ensures var r := EncodeCapsule(lib, callId, items, Resolve(settings).value.keyring);
            r.Err? ==> r.error == SizeLimit
  {
  }

  /** Entries for other key ids, added behind, take no key away. */
  lemma {:induction false} AddedEntriesKeepKey(read: EntryReader, entries: seq<string>, more: seq<string>, kid: string)
    requires ParseEntries(read, entries + more).Ok?
    requires forall e <- more :: read(e).Ok? ==> read(e).value.0 != kid
    ensures ParseEntries(read, entries).Ok?
    ensures var before, after := ParseEntries(read, entries).value, ParseEntries(read, entries + more).value;
            (kid in after <==> kid in before) && (kid in before ==> after[kid] == before[kid])
    decreases |more|
  {
    if more == [] {
      assert entries + more == entries;
    } else {
      var n := |more| - 1;
      assert (entries + more)[..|entries| + n] == entries + more[..n];
      AddedEntriesKeepKey(read, entries, more[..n], kid);
    }
  }

  /**
   * Key rotation, however an entry is read: a capsule minted before stays decodable after further keys are
   * added and another is made active, as long as no added entry takes over the key id that signed it.
   */
  lemma {:induction false} RotationKeepsCapsules(lib: Library, read: EntryReader, entries: seq<string>,
                                                 more: seq<string>, active: Option<string>, next: Option<string>,
                                                 callId: string, items: seq<Json.Json>)
    requires Lawful(lib) && ParseEntries(read, entries + more).Ok?
    requires forall e <- more :: read(e).Ok? ==> Some(read(e).value.0) != active
    requires ParseEntries(read, entries).Ok?
    requires EncodeResponsesCapsule(lib, callId, items, Keyring(ParseEntries(read, entries).value, active)).Ok?
    ensures var wire := EncodeResponsesCapsule(lib, callId, items,
                                               Keyring(ParseEntries(read, entries).value, active)).value;
            DecodeResponsesCapsule(lib, wire, Keyring(ParseEntries(read, entries + more).value, next))
            == Ok(DecodedCapsule(callId, items))
  {
    AddedEntriesKeepKey(read, entries, more, active.value);
    ResponsesCapsuleRoundTrip(lib, callId, items, Keyring(ParseEntries(read, entries).value, active),
                              Keyring(ParseEntries(read, entries + more).value, next));
  }
}
