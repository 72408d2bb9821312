/**
 * Reasoning capsules: tool-call ids that carry the reasoning of a turn, authenticated by a keyed MAC, in
 * two namespaces (`brtc_v1` for Bedrock blocks, `rsc_v1` for Responses items).
 */
module Capsule {
  import opened Prelude
  import opened Json
  import opened Base64Url

  type Key = seq<Octet>

  const CAPSULE_PREFIX := "brtc_v1."
  const RESPONSES_CAPSULE_PREFIX := "rsc_v1."
  const MAX_CAPSULE_WIRE_BYTES := 65536

  datatype Keyring = Keyring(keys: map<string, Key>, activeKid: Option<string>)

  datatype Runtime = Runtime(keyring: Keyring, encoderEnabled: bool)

  datatype CapsuleError =
    | SizeLimit
    | Malformed
    | UnsupportedVersion
    | NoKid
    | UnknownKid
    | NotAuthentic
    | InvalidContent
    | NoActiveKid
    | ActiveKidUnknown

  // ---- payloads ----

  datatype ChatPayload =
    ChatPayload(version: int, kid: string, toolUseId: string, reasoningVersion: int, blocks: seq<Json>)

  datatype ResponsesPayload = ResponsesPayload(version: int, kid: string, callId: string, items: seq<Json>)

  datatype DecodedCapsule = DecodedCapsule(id: string, reasoning: seq<Json>)

  /** The MAC and the JSON form of the payloads. */
  datatype Library = Library(
    mac: (Key, string) -> seq<Octet>,
    printChat: ChatPayload -> seq<Octet>,
    parseChat: seq<Octet> -> Option<ChatPayload>,
    printResponses: ResponsesPayload -> seq<Octet>,
    parseResponses: seq<Octet> -> Option<ResponsesPayload>)

  /** What is assumed of them: a MAC has 32 octets, JSON text is not empty, and parsing undoes printing. */
  ghost predicate Lawful(lib: Library) {
    && (forall key, text :: |lib.mac(key, text)| == 32)
    && (forall p :: lib.printChat(p) != [] && lib.parseChat(lib.printChat(p)) == Some(p))
    && (forall p :: lib.printResponses(p) != [] && lib.parseResponses(lib.printResponses(p)) == Some(p))
  }

  predicate BlockIsValid(block: Json) {
    || (match block.Get("reasoningText")
        case Some(text) => text.GetString("text").Some? && text.GetString("signature").Some?
        case None => false)
    || block.GetString("redactedContent").Some?
  }

  predicate NonEmpty(s: Option<string>) { s.Some? && s.value != "" }

  predicate ItemIsValid(item: Json) {
    && item.GetString("type") == Some("reasoning")
    && NonEmpty(item.GetString("id"))
    && NonEmpty(item.GetString("encrypted_content"))
  }

  predicate AllValid(valid: Json -> bool, values: seq<Json>) { forall v <- values :: valid(v) }

  // ---- the wire format, common to both namespaces ----

  /** The bytes of a string in UTF-8. */
  function Utf8Length(s: string): nat {
    if s == [] then 0 else Utf8Width(s[0]) + Utf8Length(s[1..])
  }

  function Utf8Width(c: char): nat {
    if c < '\U{0080}' then 1 else if c < '\U{0800}' then 2 else if c < '\U{10000}' then 3 else 4
  }

  function Signed(lib: Library, prefix: string, key: Key, payload: seq<Octet>): string {
    var signed := prefix + Encode(payload);
    signed + "." + Encode(lib.mac(key, signed))
  }

  /** Rust's `split` on a character. */
  function Split(s: string, c: char): (r: seq<string>)
    ensures r != []
  {
    if s == "" then [""]
    else
      var rest := Split(s[1..], c);
      if s[0] == c then [""] + rest else [[s[0]] + rest[0]] + rest[1..]
  }

  datatype Wire = Wire(payload: string, tag: string)

  /** The payload and tag segments: exactly two, neither empty. */
  function Unwrap(prefix: string, candidate: string): Result<Wire, CapsuleError> {
    if Utf8Length(candidate) > MAX_CAPSULE_WIRE_BYTES then Err(SizeLimit)
    else match StripPrefix(candidate, prefix)
      case None => Err(Malformed)
      case Some(encoded) =>
        var segments := Split(encoded, '.');
        if |segments| == 2 && segments[0] != "" && segments[1] != "" then Ok(Wire(segments[0], segments[1]))
        else Err(Malformed)
  }

  /** The key named by the payload must be known, and the tag must be its MAC of everything before it. */
  function Authenticate(lib: Library, prefix: string, wire: Wire, kid: string, keyring: Keyring)
    : Result<(), CapsuleError>
  {
    if kid == "" then Err(NoKid)
    else if kid !in keyring.keys then Err(UnknownKid)
    else match Decode(wire.tag)
      case None => Err(Malformed)
      case Some(tag) =>
        if lib.mac(keyring.keys[kid], prefix + wire.payload) == tag then Ok(()) else Err(NotAuthentic)
  }

  function SigningKey(keyring: Keyring): Result<(string, Key), CapsuleError> {
    if !NonEmpty(keyring.activeKid) then Err(NoActiveKid)
    else if keyring.activeKid.value !in keyring.keys then Err(ActiveKidUnknown)
    else Ok((keyring.activeKid.value, keyring.keys[keyring.activeKid.value]))
  }

  function Limited(wire: string): Result<string, CapsuleError> {
    if Utf8Length(wire) > MAX_CAPSULE_WIRE_BYTES then Err(SizeLimit) else Ok(wire)
  }

  // ---- the Bedrock namespace ----

  predicate IsCapsule(id: string) { HasPrefix(id, CAPSULE_PREFIX) }

  /** The encoder does not look at the blocks: its caller has. */
  function EncodeCapsule(lib: Library, toolUseId: string, blocks: seq<Json>, keyring: Keyring)
    : Result<string, CapsuleError>
  {
    match SigningKey(keyring)
    case Err(e) => Err(e)
    case Ok((kid, key)) =>
      Limited(Signed(lib, CAPSULE_PREFIX, key, lib.printChat(ChatPayload(1, kid, toolUseId, 1, blocks))))
  }

  function DecodeCapsule(lib: Library, candidate: string, keyring: Keyring): Result<DecodedCapsule, CapsuleError> {
    match Unwrap(CAPSULE_PREFIX, candidate)
    case Err(e) => Err(e)
    case Ok(wire) =>
      match Decode(wire.payload)
      case None => Err(Malformed)
      case Some(bytes) =>
        match lib.parseChat(bytes)
        case None => Err(Malformed)
        case Some(p) =>
          if p.version != 1 || p.reasoningVersion != 1 then Err(UnsupportedVersion)
          else match Authenticate(lib, CAPSULE_PREFIX, wire, p.kid, keyring)
            case Err(e) => Err(e)
            case Ok(_) =>
              if AllValid(BlockIsValid, p.blocks) then Ok(DecodedCapsule(p.toolUseId, p.blocks))
              else Err(InvalidContent)
  }

  // ---- the Responses namespace ----

  predicate IsResponsesCapsule(id: string) { HasPrefix(id, RESPONSES_CAPSULE_PREFIX) }

  function EncodeResponsesCapsule(lib: Library, callId: string, items: seq<Json>, keyring: Keyring)
    : Result<string, CapsuleError>
  {
    if callId == "" || !AllValid(ItemIsValid, items) then Err(InvalidContent)
    else match SigningKey(keyring)
      case Err(e) => Err(e)
      case Ok((kid, key)) =>
        Limited(Signed(lib, RESPONSES_CAPSULE_PREFIX, key, lib.printResponses(ResponsesPayload(1, kid, callId, items))))
  }

  function DecodeResponsesCapsule(lib: Library, candidate: string, keyring: Keyring)
    : Result<DecodedCapsule, CapsuleError>
  {
    match Unwrap(RESPONSES_CAPSULE_PREFIX, candidate)
    case Err(e) => Err(e)
    case Ok(wire) =>
      match Decode(wire.payload)
      case None => Err(Malformed)
      case Some(bytes) =>
        match lib.parseResponses(bytes)
        case None => Err(Malformed)
        case Some(p) =>
          if p.version != 1 then Err(UnsupportedVersion)
          else match Authenticate(lib, RESPONSES_CAPSULE_PREFIX, wire, p.kid, keyring)
            case Err(e) => Err(e)
            case Ok(_) =>
              if p.callId != "" && AllValid(ItemIsValid, p.items) then Ok(DecodedCapsule(p.callId, p.items))
              else Err(InvalidContent)
  }

  // ---- splitting a signed wire ----

  lemma {:induction false} SplitJoins(s: string, c: char)
    ensures |Split(s, c)| == 1 ==> s == Split(s, c)[0]
    ensures |Split(s, c)| == 2 ==> s == Split(s, c)[0] + [c] + Split(s, c)[1]
  {
    if s != "" {
      SplitJoins(s[1..], c);
      assert s == [s[0]] + s[1..];
    }
  }

  lemma {:induction false} SplitAtNone(s: string, c: char)
    requires c !in s
    ensures Split(s, c) == [s]
  {
    if s != "" {
      SplitAtNone(s[1..], c);
      assert s == [s[0]] + s[1..];
    }
  }

  lemma {:induction false} SplitAtOne(x: string, y: string, c: char)
    requires c !in x && c !in y
    ensures Split(x + [c] + y, c) == [x, y]
  {
    var s := x + [c] + y;
    if x == "" {
      SplitAtNone(y, c);
      assert s[1..] == y;
    } else {
      SplitAtOne(x[1..], y, c);
      assert s[1..] == x[1..] + [c] + y && x == [x[0]] + x[1..];
    }
  }

  lemma {:induction false} EncodeHasNoDot(b: seq<Octet>)
    ensures '.' !in Encode(b)
  {
    EncodeIsText(b);
    assert !IsDigit('.');
  }

  /** A signed wire within the limit comes apart into the two segments it was made of. */
  lemma {:induction false} UnwrapSigned(lib: Library, prefix: string, key: Key, payload: seq<Octet>)
    requires |lib.mac(key, prefix + Encode(payload))| == 32 && payload != []
    requires Utf8Length(Signed(lib, prefix, key, payload)) <= MAX_CAPSULE_WIRE_BYTES
    ensures Unwrap(prefix, Signed(lib, prefix, key, payload))
            == Ok(Wire(Encode(payload), Encode(lib.mac(key, prefix + Encode(payload)))))
  {
    var x, y := Encode(payload), Encode(lib.mac(key, prefix + Encode(payload)));
    var wire := Signed(lib, prefix, key, payload);
    assert wire == prefix + (x + "." + y);
    EncodeHasNoDot(payload);
    EncodeHasNoDot(lib.mac(key, prefix + x));
    EncodeIsText(payload);
    EncodeIsText(lib.mac(key, prefix + x));
    SplitAtOne(x, y, '.');
  }

  /** Whatever unwraps is the prefix and its two segments. */
  lemma {:induction false} UnwrapJoins(prefix: string, candidate: string)
    requires Unwrap(prefix, candidate).Ok?
    ensures var w := Unwrap(prefix, candidate).value;
            candidate == prefix + w.payload + "." + w.tag
  {
    var encoded := StripPrefix(candidate, prefix).value;
    SplitJoins(encoded, '.');
    assert candidate == prefix + encoded;
  }

  /** What a tag says of a signed wire, under any keyring. */
  lemma {:induction false} AuthenticateSigned(lib: Library, prefix: string, key: Key, payload: seq<Octet>,
                                              kid: string, keyring: Keyring)
    requires kid != ""
    ensures var signed := prefix + Encode(payload);
            Authenticate(lib, prefix, Wire(Encode(payload), Encode(lib.mac(key, signed))), kid, keyring)
            == if kid !in keyring.keys then Err(UnknownKid)
               else if lib.mac(keyring.keys[kid], signed) != lib.mac(key, signed) then Err(NotAuthentic)
               else Ok(())
  {
    var tag := lib.mac(key, prefix + Encode(payload));
    DecodeIffEncoded(Encode(tag), tag);
  }

  // ---- the wire, character by character ----

  /** The tag, the payload and its MAC under the key, which also covers the tag; all in base64url. */
  predicate IsSigned(lib: Library, tag: string, key: Key, payload: seq<Octet>, wire: string) {
    wire == tag + Encode(payload) + "." + Encode(lib.mac(key, tag + Encode(payload)))
  }

  /** The widths of section 3 of RFC 3629. */
  lemma {:induction false} WidthIs(c: char)
    ensures Utf8Width(c)
            == if c as int <= 127 then 1 else if c as int <= 2047 then 2 else if c as int <= 65535 then 3 else 4
  {
  }

  predicate IsAscii(s: string) { forall c <- s :: c < '\U{0080}' }

  /** A text is at least as many bytes as characters, and at most four times as many; ASCII is one byte each. */
  lemma {:induction false} Utf8Is(s: string)
    ensures |s| <= Utf8Length(s) <= 4 * |s| && (IsAscii(s) <==> Utf8Length(s) == |s|)
  {
    if s != "" {
      Utf8Is(s[1..]);
      assert s == [s[0]] + s[1..] && s[0] in s;
      assert IsAscii(s) <==> s[0] < '\U{0080}' && IsAscii(s[1..]) by {
        assert forall c <- s[1..] :: c in s;
      }
    }
  }

  lemma {:induction false} EncodeIsAscii(b: seq<Octet>)
    ensures IsAscii(Encode(b))
  {
    EncodeIsText(b);
    forall c <- Encode(b) ensures c < '\U{0080}' {
      DigitsAreAscii(c);
    }
  }

  lemma {:induction false} SignedIsAscii(lib: Library, prefix: string, key: Key, payload: seq<Octet>)
    requires IsAscii(prefix)
    ensures var wire := Signed(lib, prefix, key, payload); IsAscii(wire) && Utf8Length(wire) == |wire|
  {
    EncodeIsAscii(payload);
    EncodeIsAscii(lib.mac(key, prefix + Encode(payload)));
    Utf8Is(Signed(lib, prefix, key, payload));
  }

  /** Whose key signs: the active one's, if one is named and known. */
  predicate SignsAs(keyring: Keyring, kid: string, key: Key) {
    keyring.activeKid == Some(kid) && kid != "" && kid in keyring.keys && keyring.keys[kid] == key
  }

  /** The wire of a payload that names the active key. */
  ghost predicate IsChatWire(lib: Library, id: string, blocks: seq<Json>, keyring: Keyring, wire: string) {
    exists kid, key :: SignsAs(keyring, kid, key)
                       && IsSigned(lib, "brtc_v1.", key, lib.printChat(ChatPayload(1, kid, id, 1, blocks)), wire)
  }

  ghost predicate IsResponsesWire(lib: Library, id: string, items: seq<Json>, keyring: Keyring, wire: string) {
    exists kid, key :: SignsAs(keyring, kid, key)
                       && IsSigned(lib, "rsc_v1.", key, lib.printResponses(ResponsesPayload(1, kid, id, items)), wire)
  }

  /**
   * What the encoder writes: the payload with the tool id and the blocks, in version 1 of both, under the active key.
   * It fails only without such a key, or for length.
   */
  lemma {:induction false} MintedIs(lib: Library, id: string, blocks: seq<Json>, keyring: Keyring)
    ensures match EncodeCapsule(lib, id, blocks, keyring)
            case Ok(wire) => |wire| <= 65536 && IsChatWire(lib, id, blocks, keyring, wire)
            case Err(SizeLimit) => exists wire :: IsChatWire(lib, id, blocks, keyring, wire) && |wire| > 65536
            case Err(NoActiveKid) => keyring.activeKid == None || keyring.activeKid == Some("")
            case Err(ActiveKidUnknown) =>
              keyring.activeKid.Some? && keyring.activeKid.value != "" && keyring.activeKid.value !in keyring.keys
            case Err(_) => false
  {
    if SigningKey(keyring).Ok? {
      var (kid, key) := SigningKey(keyring).value;
      var payload := lib.printChat(ChatPayload(1, kid, id, 1, blocks));
      var wire := Signed(lib, CAPSULE_PREFIX, key, payload);
      SignedIsAscii(lib, CAPSULE_PREFIX, key, payload);
      assert SignsAs(keyring, kid, key) && IsSigned(lib, "brtc_v1.", key, payload, wire);
      assert IsChatWire(lib, id, blocks, keyring, wire);
    }
  }

  /** In the Responses namespace the content is looked at first: a call id, and items that can be replayed. */
  lemma {:induction false} MintedResponsesIs(lib: Library, id: string, items: seq<Json>, keyring: Keyring)
    ensures match EncodeResponsesCapsule(lib, id, items, keyring)
            case Ok(wire) =>
              && |wire| <= 65536 && id != "" && AllValid(ItemIsValid, items)
              && IsResponsesWire(lib, id, items, keyring, wire)
            case Err(InvalidContent) => id == "" || !AllValid(ItemIsValid, items)
            case Err(SizeLimit) => exists wire :: IsResponsesWire(lib, id, items, keyring, wire) && |wire| > 65536
            case Err(NoActiveKid) => keyring.activeKid == None || keyring.activeKid == Some("")
            case Err(ActiveKidUnknown) =>
              keyring.activeKid.Some? && keyring.activeKid.value != "" && keyring.activeKid.value !in keyring.keys
            case Err(_) => false
  {
    if SigningKey(keyring).Ok? {
      var (kid, key) := SigningKey(keyring).value;
      var payload := lib.printResponses(ResponsesPayload(1, kid, id, items));
      var wire := Signed(lib, RESPONSES_CAPSULE_PREFIX, key, payload);
      SignedIsAscii(lib, RESPONSES_CAPSULE_PREFIX, key, payload);
      assert SignsAs(keyring, kid, key) && IsSigned(lib, "rsc_v1.", key, payload, wire);
      assert IsResponsesWire(lib, id, items, keyring, wire);
    }
  }

  // ---- content that can be replayed ----

  predicate HasText(v: Json, key: string, text: string) {
    v.Object? && key in v.fields && v.fields[key] == String(text)
  }

  ghost predicate IsSignedThought(block: Json) {
    && block.Object? && "reasoningText" in block.fields
    && (exists text :: HasText(block.fields["reasoningText"], "text", text))
    && exists signature :: HasText(block.fields["reasoningText"], "signature", signature)
  }

  /** Of the blocks that can be replayed each is a text that upstream signed, or redacted. */
  lemma {:induction false} BlockIsValidIff(block: Json)
    ensures BlockIsValid(block) <==> IsSignedThought(block) || exists data :: HasText(block, "redactedContent", data)
  {
    if block.Object? && "reasoningText" in block.fields {
      var thought := block.fields["reasoningText"];
      if thought.GetString("text").Some? {
        assert HasText(thought, "text", thought.GetString("text").value);
      }
      if thought.GetString("signature").Some? {
        assert HasText(thought, "signature", thought.GetString("signature").value);
      }
    }
    if block.GetString("redactedContent").Some? {
      assert HasText(block, "redactedContent", block.GetString("redactedContent").value);
    }
  }

  /** An item can be replayed when it is reasoning, and has an id and encrypted content, neither of them empty. */
  lemma {:induction false} ItemIsValidIff(item: Json)
    ensures ItemIsValid(item)
            <==> && HasText(item, "type", "reasoning")
                 && (exists id :: id != "" && HasText(item, "id", id))
                 && exists content :: content != "" && HasText(item, "encrypted_content", content)
  {
    if item.GetString("id").Some? {
      assert HasText(item, "id", item.GetString("id").value);
    }
    if item.GetString("encrypted_content").Some? {
      assert HasText(item, "encrypted_content", item.GetString("encrypted_content").value);
    }
  }

  // ---- round trips ----

  /** How a keyring treats a wire signed with a key: one verdict for both namespaces. */
  function Verdict(lib: Library, prefix: string, payload: seq<Octet>, kid: string, key: Key, keyring: Keyring,
                   valid: bool, decoded: DecodedCapsule)
    : Result<DecodedCapsule, CapsuleError>
  {
    var signed := prefix + Encode(payload);
    if kid !in keyring.keys then Err(UnknownKid)
    else if lib.mac(keyring.keys[kid], signed) != lib.mac(key, signed) then Err(NotAuthentic)
    else if !valid then Err(InvalidContent)
    else Ok(decoded)
  }

  /**
   * What the Bedrock encoder mints, under any keyring: refused when the keyring no longer knows the key
   * id, when it binds it to a key with another MAC, or when a block is not replayable; otherwise decoded
   * to the tool id and the blocks. It is never refused for its size or its form.
   */
  lemma {:induction false} MintedCapsuleDecodes(lib: Library, id: string, blocks: seq<Json>, signer: Keyring,
                                                keyring: Keyring)
    requires Lawful(lib) && EncodeCapsule(lib, id, blocks, signer).Ok?
    ensures var wire := EncodeCapsule(lib, id, blocks, signer).value;
            var (kid, key) := SigningKey(signer).value;
            var payload := lib.printChat(ChatPayload(1, kid, id, 1, blocks));
            DecodeCapsule(lib, wire, keyring)
            == Verdict(lib, CAPSULE_PREFIX, payload, kid, key, keyring, AllValid(BlockIsValid, blocks),
                       DecodedCapsule(id, blocks))
  {
    var (kid, key) := SigningKey(signer).value;
    var payload := lib.printChat(ChatPayload(1, kid, id, 1, blocks));
    UnwrapSigned(lib, CAPSULE_PREFIX, key, payload);
    DecodeIffEncoded(Encode(payload), payload);
    AuthenticateSigned(lib, CAPSULE_PREFIX, key, payload, kid, keyring);
  }

  lemma {:induction false} MintedResponsesCapsuleDecodes(lib: Library, id: string, items: seq<Json>,
                                                         signer: Keyring, keyring: Keyring)
    requires Lawful(lib) && EncodeResponsesCapsule(lib, id, items, signer).Ok?
    ensures var wire := EncodeResponsesCapsule(lib, id, items, signer).value;
            var (kid, key) := SigningKey(signer).value;
            var payload := lib.printResponses(ResponsesPayload(1, kid, id, items));
            DecodeResponsesCapsule(lib, wire, keyring)
            == Verdict(lib, RESPONSES_CAPSULE_PREFIX, payload, kid, key, keyring, true, DecodedCapsule(id, items))
  {
    var (kid, key) := SigningKey(signer).value;
    var payload := lib.printResponses(ResponsesPayload(1, kid, id, items));
    UnwrapSigned(lib, RESPONSES_CAPSULE_PREFIX, key, payload);
    DecodeIffEncoded(Encode(payload), payload);
    AuthenticateSigned(lib, RESPONSES_CAPSULE_PREFIX, key, payload, kid, keyring);
  }

  /** The keyring still binds the signing key id to the same key. */
  predicate Keeps(signer: Keyring, keyring: Keyring) {
    SigningKey(signer).Ok?
    && SigningKey(signer).value.0 in keyring.keys
    && keyring.keys[SigningKey(signer).value.0] == SigningKey(signer).value.1
  }

  /** Round trip through any keyring that keeps the signing key; the other namespace refuses the wire. */
  lemma {:induction false} CapsuleRoundTrip(lib: Library, id: string, blocks: seq<Json>, signer: Keyring,
                                            keyring: Keyring)
    requires Lawful(lib) && EncodeCapsule(lib, id, blocks, signer).Ok? && Keeps(signer, keyring)
    ensures var wire := EncodeCapsule(lib, id, blocks, signer).value;
            && IsCapsule(wire) && !IsResponsesCapsule(wire)
            && DecodeResponsesCapsule(lib, wire, keyring) == Err(Malformed)
            && DecodeCapsule(lib, wire, keyring)
               == if AllValid(BlockIsValid, blocks) then Ok(DecodedCapsule(id, blocks)) else Err(InvalidContent)
  {
    MintedCapsuleDecodes(lib, id, blocks, signer, keyring);
    PrefixOfSigned(lib, CAPSULE_PREFIX, SigningKey(signer).value.1,
                   lib.printChat(ChatPayload(1, SigningKey(signer).value.0, id, 1, blocks)));
  }

  lemma {:induction false} ResponsesCapsuleRoundTrip(lib: Library, id: string, items: seq<Json>, signer: Keyring,
                                                     keyring: Keyring)
    requires Lawful(lib) && EncodeResponsesCapsule(lib, id, items, signer).Ok? && Keeps(signer, keyring)
    ensures var wire := EncodeResponsesCapsule(lib, id, items, signer).value;
            && IsResponsesCapsule(wire) && !IsCapsule(wire)
            && DecodeCapsule(lib, wire, keyring) == Err(Malformed)
            && DecodeResponsesCapsule(lib, wire, keyring) == Ok(DecodedCapsule(id, items))
  {
    MintedResponsesCapsuleDecodes(lib, id, items, signer, keyring);
    PrefixOfSigned(lib, RESPONSES_CAPSULE_PREFIX, SigningKey(signer).value.1,
                   lib.printResponses(ResponsesPayload(1, SigningKey(signer).value.0, id, items)));
  }

  lemma {:induction false} PrefixOfSigned(lib: Library, prefix: string, key: Key, payload: seq<Octet>)
    ensures var wire := Signed(lib, prefix, key, payload);
            HasPrefix(wire, prefix) && (prefix != "" ==> wire[0] == prefix[0])
  {
    var signed := prefix + Encode(payload);
    var wire := Signed(lib, prefix, key, payload);
    assert wire[..|signed|] == signed && signed[..|prefix|] == prefix;
    assert wire[..|prefix|] == wire[..|signed|][..|prefix|];
  }

  /**
   * Authenticity: a Bedrock capsule is accepted exactly when it is, character for character, the signed
   * form of a replayable version 1 payload under the key its own key id names, and no longer than 65536 bytes.
   */
  lemma {:induction false} AcceptedIffSigned(lib: Library, candidate: string, keyring: Keyring, d: DecodedCapsule)
    requires Lawful(lib)
    ensures DecodeCapsule(lib, candidate, keyring) == Ok(d)
            <==> exists payload, kid ::
                   && kid != "" && kid in keyring.keys
                   && lib.parseChat(payload) == Some(ChatPayload(1, kid, d.id, 1, d.reasoning))
                   && IsSigned(lib, "brtc_v1.", keyring.keys[kid], payload, candidate)
                   && payload != [] && |candidate| <= 65536
                   && AllValid(BlockIsValid, d.reasoning)
  {
    if DecodeCapsule(lib, candidate, keyring) == Ok(d) {
      var payload, p := AcceptedIsSigned(lib, candidate, keyring);
      SignedIsAscii(lib, CAPSULE_PREFIX, keyring.keys[p.kid], payload);
      assert IsSigned(lib, "brtc_v1.", keyring.keys[p.kid], payload, candidate);
    }
    forall payload, kid
      | && kid != "" && kid in keyring.keys
        && lib.parseChat(payload) == Some(ChatPayload(1, kid, d.id, 1, d.reasoning))
        && IsSigned(lib, "brtc_v1.", keyring.keys[kid], payload, candidate)
        && payload != [] && |candidate| <= 65536
        && AllValid(BlockIsValid, d.reasoning)
      ensures DecodeCapsule(lib, candidate, keyring) == Ok(d)
    {
      SignedIsAscii(lib, CAPSULE_PREFIX, keyring.keys[kid], payload);
      UnwrapSigned(lib, CAPSULE_PREFIX, keyring.keys[kid], payload);
      DecodeIffEncoded(Encode(payload), payload);
      AuthenticateSigned(lib, CAPSULE_PREFIX, keyring.keys[kid], payload, kid, keyring);
    }
  }

  lemma {:induction false} AcceptedIsSigned(lib: Library, candidate: string, keyring: Keyring)
    returns (payload: seq<Octet>, p: ChatPayload)
    requires DecodeCapsule(lib, candidate, keyring).Ok?
    ensures lib.parseChat(payload) == Some(p) && p.version == 1 && p.reasoningVersion == 1
    ensures p.kid != "" && p.kid in keyring.keys && payload != []
    ensures candidate == Signed(lib, CAPSULE_PREFIX, keyring.keys[p.kid], payload)
    ensures DecodeCapsule(lib, candidate, keyring) == Ok(DecodedCapsule(p.toolUseId, p.blocks))
    ensures Utf8Length(candidate) <= MAX_CAPSULE_WIRE_BYTES && AllValid(BlockIsValid, p.blocks)
  {
    var wire := Unwrap(CAPSULE_PREFIX, candidate).value;
    payload := Decode(wire.payload).value;
    p := lib.parseChat(payload).value;
    UnwrapJoins(CAPSULE_PREFIX, candidate);
    DecodeIffEncoded(wire.payload, payload);
    DecodeIffEncoded(wire.tag, Decode(wire.tag).value);
  }

  lemma {:induction false} AcceptedResponsesIffSigned(lib: Library, candidate: string, keyring: Keyring,
                                                      d: DecodedCapsule)
    requires Lawful(lib)
    ensures DecodeResponsesCapsule(lib, candidate, keyring) == Ok(d)
            <==> exists payload, kid ::
                   && kid != "" && kid in keyring.keys
                   && lib.parseResponses(payload) == Some(ResponsesPayload(1, kid, d.id, d.reasoning))
                   && IsSigned(lib, "rsc_v1.", keyring.keys[kid], payload, candidate)
                   && payload != [] && |candidate| <= 65536
                   && d.id != "" && AllValid(ItemIsValid, d.reasoning)
  {
    if DecodeResponsesCapsule(lib, candidate, keyring) == Ok(d) {
      var wire := Unwrap(RESPONSES_CAPSULE_PREFIX, candidate).value;
      var payload := Decode(wire.payload).value;
      var kid := lib.parseResponses(payload).value.kid;
      UnwrapJoins(RESPONSES_CAPSULE_PREFIX, candidate);
      DecodeIffEncoded(wire.payload, payload);
      DecodeIffEncoded(wire.tag, Decode(wire.tag).value);
      assert candidate == Signed(lib, RESPONSES_CAPSULE_PREFIX, keyring.keys[kid], payload);
      SignedIsAscii(lib, RESPONSES_CAPSULE_PREFIX, keyring.keys[kid], payload);
      assert IsSigned(lib, "rsc_v1.", keyring.keys[kid], payload, candidate);
    }
    forall payload, kid
      | && kid != "" && kid in keyring.keys
        && lib.parseResponses(payload) == Some(ResponsesPayload(1, kid, d.id, d.reasoning))
        && IsSigned(lib, "rsc_v1.", keyring.keys[kid], payload, candidate)
        && payload != [] && |candidate| <= 65536
        && d.id != "" && AllValid(ItemIsValid, d.reasoning)
      ensures DecodeResponsesCapsule(lib, candidate, keyring) == Ok(d)
    {
      SignedIsAscii(lib, RESPONSES_CAPSULE_PREFIX, keyring.keys[kid], payload);
      UnwrapSigned(lib, RESPONSES_CAPSULE_PREFIX, keyring.keys[kid], payload);
      DecodeIffEncoded(Encode(payload), payload);
      AuthenticateSigned(lib, RESPONSES_CAPSULE_PREFIX, keyring.keys[kid], payload, kid, keyring);
    }
  }

  // ---- what any wire is refused for ----

  /** The wire has this tag, this payload and this last segment, and is not too long. */
  predicate HasForm(tag: string, wire: string, payload: seq<Octet>, mac: string) {
    && wire == tag + Encode(payload) + "." + mac && Utf8Length(wire) <= 65536
    && payload != [] && mac != "" && '.' !in mac
  }

  lemma {:induction false} FormIsUnwrapped(tag: string, wire: string, payload: seq<Octet>, mac: string)
    requires HasForm(tag, wire, payload, mac)
    ensures Unwrap(tag, wire) == Ok(Wire(Encode(payload), mac)) && Decode(Encode(payload)) == Some(payload)
  {
    assert wire == tag + (Encode(payload) + "." + mac);
    EncodeHasNoDot(payload);
    EncodeIsText(payload);
    SplitAtOne(Encode(payload), mac, '.');
    DecodeIffEncoded(Encode(payload), payload);
  }

  lemma {:induction false} UnwrappedHasForm(tag: string, wire: string)
    requires Unwrap(tag, wire).Ok? && Decode(Unwrap(tag, wire).value.payload).Some?
    ensures var w := Unwrap(tag, wire).value; HasForm(tag, wire, Decode(w.payload).value, w.tag)
  {
    var w := Unwrap(tag, wire).value;
    UnwrapJoins(tag, wire);
    DecodeIffEncoded(w.payload, Decode(w.payload).value);
    SplitLeavesNone(StripPrefix(wire, tag).value, '.');
  }

  lemma {:induction false} SplitLeavesNone(s: string, c: char)
    ensures forall part <- Split(s, c) :: c !in part
  {
    if s != "" {
      SplitLeavesNone(s[1..], c);
    }
  }

  /** The verdict on a tag's last segment, for a payload that names a key. */
  function TagVerdict(lib: Library, signed: string, kid: string, mac: string, keyring: Keyring): Option<CapsuleError> {
    if kid == "" then Some(NoKid)
    else if kid !in keyring.keys then Some(UnknownKid)
    else if Decode(mac).None? then Some(Malformed)
    else if mac != Encode(lib.mac(keyring.keys[kid], signed)) then Some(NotAuthentic)
    else None
  }

  lemma {:induction false} AuthenticateIs(lib: Library, tag: string, wire: Wire, kid: string, keyring: Keyring)
    ensures var verdict := TagVerdict(lib, tag + wire.payload, kid, wire.tag, keyring);
            Authenticate(lib, tag, wire, kid, keyring) == if verdict.None? then Ok(()) else Err(verdict.value)
  {
    if kid in keyring.keys && Decode(wire.tag).Some? {
      DecodeIffEncoded(wire.tag, Decode(wire.tag).value);
      DecodeIffEncoded(wire.tag, lib.mac(keyring.keys[kid], tag + wire.payload));
    }
  }

  /**
   * What becomes of any text taken for a Bedrock capsule. One that has the form, with a payload that can be read, is
   * refused for its version, then its key, then its MAC, then its content, and otherwise decoded; any other is
   * malformed, or too long.
   */
  lemma {:induction false} DecodingIs(lib: Library, wire: string, payload: seq<Octet>, mac: string, keyring: Keyring)
    ensures HasForm("brtc_v1.", wire, payload, mac) && lib.parseChat(payload).Some? ==>
              var p := lib.parseChat(payload).value;
              var verdict := TagVerdict(lib, "brtc_v1." + Encode(payload), p.kid, mac, keyring);
              DecodeCapsule(lib, wire, keyring)
              == if p.version != 1 || p.reasoningVersion != 1 then Err(UnsupportedVersion)
                 else if verdict.Some? then Err(verdict.value)
                 else if !AllValid(BlockIsValid, p.blocks) then Err(InvalidContent)
                 else Ok(DecodedCapsule(p.toolUseId, p.blocks))
    ensures (forall b, m :: HasForm("brtc_v1.", wire, b, m) ==> lib.parseChat(b).None?) ==>
              DecodeCapsule(lib, wire, keyring) == Err(if Utf8Length(wire) > 65536 then SizeLimit else Malformed)
  {
    if HasForm("brtc_v1.", wire, payload, mac) && lib.parseChat(payload).Some? {
      FormIsUnwrapped("brtc_v1.", wire, payload, mac);
      AuthenticateIs(lib, "brtc_v1.", Wire(Encode(payload), mac), lib.parseChat(payload).value.kid, keyring);
    }
    var w := Unwrap("brtc_v1.", wire);
    if w.Ok? && Decode(w.value.payload).Some? {
      UnwrappedHasForm("brtc_v1.", wire);
    }
  }

  /** The same for the Responses namespace, whose payloads have one version, and need a call id. */
  lemma {:induction false} ResponsesDecodingIs(lib: Library, wire: string, payload: seq<Octet>, mac: string,
                                               keyring: Keyring)
    ensures HasForm("rsc_v1.", wire, payload, mac) && lib.parseResponses(payload).Some? ==>
              var p := lib.parseResponses(payload).value;
              var verdict := TagVerdict(lib, "rsc_v1." + Encode(payload), p.kid, mac, keyring);
              DecodeResponsesCapsule(lib, wire, keyring)
              == if p.version != 1 then Err(UnsupportedVersion)
                 else if verdict.Some? then Err(verdict.value)
                 else if p.callId == "" || !AllValid(ItemIsValid, p.items) then Err(InvalidContent)
                 else Ok(DecodedCapsule(p.callId, p.items))
    ensures (forall b, m :: HasForm("rsc_v1.", wire, b, m) ==> lib.parseResponses(b).None?) ==>
              DecodeResponsesCapsule(lib, wire, keyring)
              == Err(if Utf8Length(wire) > 65536 then SizeLimit else Malformed)
  {
    if HasForm("rsc_v1.", wire, payload, mac) && lib.parseResponses(payload).Some? {
      FormIsUnwrapped("rsc_v1.", wire, payload, mac);
      AuthenticateIs(lib, "rsc_v1.", Wire(Encode(payload), mac), lib.parseResponses(payload).value.kid, keyring);
    }
    var w := Unwrap("rsc_v1.", wire);
    if w.Ok? && Decode(w.value.payload).Some? {
      UnwrappedHasForm("rsc_v1.", wire);
    }
  }
}
