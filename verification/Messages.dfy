/** Signed chat messages: `Message::fields_to_bytes`, `Message::new` and `Message::verify_strict`,
    under an ideal signature scheme. */
module Messages {
  import opened Foundation
  import opened Syrup

  datatype Message = Message(id: Uuid, sender: Key, text: Bytes, signature: Signature)

  /** How a verifying key is written as a Syrup value. The record name and layout are a parameter of
      the model; all that is used is that different keys are written differently. */
  type KeyFormat = Key -> Value

  ghost predicate Faithful(fmt: KeyFormat) {
    forall k, l :: fmt(k) == fmt(l) ==> k == l
  }

  function FieldsToBytes(fmt: KeyFormat, id: Uuid, sender: Key, text: Bytes): Bytes {
    SerializeUuid(id) + Encode(fmt(sender)) + Encode(Text(text))
  }

  /** Reading the three encodings back, one after the other. */
  function ReadFields(b: Bytes): Option<(Bytes, Value, Bytes)> {
    match Decode(b)
    case Some((Octets(id), r1)) => (
      match Decode(r1)
      case Some((key, r2)) => (
        match Decode(r2)
        case Some((Text(text), r3)) => if r3 == [] then Some((id, key, text)) else None
        case _ => None)
      case None => None)
    case _ => None
  }

  /** The signed bytes are read back to the three fields they were made from. */
  lemma ReadFieldsToBytes(fmt: KeyFormat, id: Uuid, sender: Key, text: Bytes)
    ensures ReadFields(FieldsToBytes(fmt, id, sender, text)) == Some((id.bytes, fmt(sender), text))
  {
    var k, t := Encode(fmt(sender)), Encode(Text(text));
    var b := FieldsToBytes(fmt, id, sender, text);
    assert b == SerializeUuid(id) + (k + t);
    DecodeEncode(Octets(id.bytes), k + t);
    DecodeEncode(fmt(sender), t);
    assert t + [] == t;
    DecodeEncode(Text(text), []);
  }

  /** The signed bytes determine id, sender and text. */
  lemma FieldsUnambiguous(fmt: KeyFormat, id: Uuid, sender: Key, text: Bytes,
                          id': Uuid, sender': Key, text': Bytes)
    requires Faithful(fmt)
    ensures FieldsToBytes(fmt, id, sender, text) == FieldsToBytes(fmt, id', sender', text') <==>
            (id, sender, text) == (id', sender', text')
  {
    ReadFieldsToBytes(fmt, id, sender, text);
    ReadFieldsToBytes(fmt, id', sender', text');
  }

  /** What is signed: `16:` and the id, the key, and the text's length in decimal, a quotation mark and the text. */
  lemma SignedForm(fmt: KeyFormat, id: Uuid, sender: Key, text: Bytes) returns (mark: Bytes, digits: Bytes)
    requires |id.bytes| == 16
    ensures FieldsToBytes(fmt, id, sender, text) == mark + id.bytes + Encode(fmt(sender)) + digits + [34] + text
    ensures Spells(mark, "16:") && Spells([34], "\"") && AllDigits(digits) && NatOf(digits) == |text|
  {
    UuidBytes(id);
    mark, digits := SerializeUuid(id)[..3], Decimal(|text|);
    assert SerializeUuid(id) == mark + id.bytes;
    PrintedForms(text, Text(text), []);
    NatOfDecimal(|text|);
    var (front, k) := (mark + id.bytes, Encode(fmt(sender)));
    assert front + k + (digits + [34] + text) == front + k + digits + [34] + text;
  }

  // ----- what a key is used for

  /** The bytes a node signs to authenticate to a gateway. */
  const GATEWAY_MESSAGE: Bytes := [70, 73, 88, 84, 72, 73, 83]

  /** The two things a signing key is used for: chat messages and gateway authentication. */
  datatype Act =
    | SignMessage(key: Key, id: Uuid, sender: Key, text: Bytes, signature: Signature)
    | SignGateway(key: Key, signature: Signature)

  function ActBytes(fmt: KeyFormat, act: Act): Bytes {
    match act
    case SignMessage(_, id, sender, text, _) => FieldsToBytes(fmt, id, sender, text)
    case SignGateway(_, _) => GATEWAY_MESSAGE
  }

  ghost function LedgerOf(fmt: KeyFormat, acts: set<Act>): set<Signed> {
    set act | act in acts :: Signed(act.key, ActBytes(fmt, act), act.signature)
  }

  /** `Message::new`, with the fresh id and the signature it produces as parameters. */
  ghost function New(acts: set<Act>, signingKey: Key, id: Uuid, sender: Key, text: Bytes, signature: Signature)
    : (Message, set<Act>)
  {
    (Message(id, sender, text, signature), acts + {SignMessage(signingKey, id, sender, text, signature)})
  }

  /** `Message::verify_strict`. */
  ghost predicate Verifies(fmt: KeyFormat, ledger: set<Signed>, m: Message, key: Key) {
    VerifyStrict(ledger, key, FieldsToBytes(fmt, m.id, m.sender, m.text), m.signature)
  }

  /** Signed gateway bytes are never the signed bytes of a message: those start with a digit. */
  lemma GatewayBytesAreNoMessage(fmt: KeyFormat, id: Uuid, sender: Key, text: Bytes)
    ensures Spells(GATEWAY_MESSAGE, "FIXTHIS") && FieldsToBytes(fmt, id, sender, text) != GATEWAY_MESSAGE
  {
    assert FieldsToBytes(fmt, id, sender, text)[0] == Decimal(|id.bytes|)[0];
  }

  /** A message passes under a key exactly when that key signed that very id, sender and text. */
  lemma VerifiesIffSigned(fmt: KeyFormat, acts: set<Act>, m: Message, key: Key)
    requires Faithful(fmt)
    ensures Verifies(fmt, LedgerOf(fmt, acts), m, key) <==>
            SignMessage(key, m.id, m.sender, m.text, m.signature) in acts
  {
    var bytes := FieldsToBytes(fmt, m.id, m.sender, m.text);
    var mine := SignMessage(key, m.id, m.sender, m.text, m.signature);
    if mine in acts {
      assert Signed(key, ActBytes(fmt, mine), m.signature) in LedgerOf(fmt, acts);
    }
    if Verifies(fmt, LedgerOf(fmt, acts), m, key) {
      var act :| act in acts && Signed(act.key, ActBytes(fmt, act), act.signature) == Signed(key, bytes, m.signature);
      match act
      case SignMessage(_, id, sender, text, _) => FieldsUnambiguous(fmt, id, sender, text, m.id, m.sender, m.text);
      case SignGateway(_, _) => GatewayBytesAreNoMessage(fmt, m.id, m.sender, m.text);
    }
  }

  /** A new message has the fields that it was made from and passes under its signing key; and making it lets nothing
      pass but a message of these fields, under this key. */
  lemma NewVerifies(fmt: KeyFormat, acts: set<Act>, signingKey: Key, id: Uuid, sender: Key, text: Bytes,
                    signature: Signature, other: Message, key: Key)
    requires Faithful(fmt)
    ensures var (m, acts') := New(acts, signingKey, id, sender, text, signature);
            && m.id == id && m.sender == sender && m.text == text && m.signature == signature
            && Verifies(fmt, LedgerOf(fmt, acts'), m, signingKey)
            && (Verifies(fmt, LedgerOf(fmt, acts'), other, key) <==>
                Verifies(fmt, LedgerOf(fmt, acts), other, key)
                || (key == signingKey && other.id == id && other.sender == sender && other.text == text
                    && other.signature == signature))
  {
    var (m, acts') := New(acts, signingKey, id, sender, text, signature);
    VerifiesIffSigned(fmt, acts', m, signingKey);
    VerifiesIffSigned(fmt, acts', other, key);
    VerifiesIffSigned(fmt, acts, other, key);
  }

  /** What `Gateway::authenticate` checks is the bytes alone: they pass for a key exactly when the key signed them,
      for whatever purpose. */
  lemma AuthenticatesIffSigned(fmt: KeyFormat, acts: set<Act>, key: Key, message: Bytes, signature: Signature)
    ensures VerifyStrict(LedgerOf(fmt, acts), key, message, signature) <==>
            exists act :: act in acts && act.key == key && ActBytes(fmt, act) == message && act.signature == signature
  {
    if act :| act in acts && act.key == key && ActBytes(fmt, act) == message && act.signature == signature {
      assert Signed(act.key, ActBytes(fmt, act), act.signature) in LedgerOf(fmt, acts);
    }
  }

  /** So an authentication passes on a gateway's bytes exactly for a key that signed them to authenticate, and on
      the signed bytes of a message exactly for a key that signed that message. */
  lemma AuthenticationPurpose(fmt: KeyFormat, acts: set<Act>, key: Key, id: Uuid, sender: Key, text: Bytes,
                              signature: Signature)
    requires Faithful(fmt)
    ensures VerifyStrict(LedgerOf(fmt, acts), key, GATEWAY_MESSAGE, signature) <==> SignGateway(key, signature) in acts
    ensures VerifyStrict(LedgerOf(fmt, acts), key, FieldsToBytes(fmt, id, sender, text), signature) <==>
            SignMessage(key, id, sender, text, signature) in acts
  {
    AuthenticatesIffSigned(fmt, acts, key, GATEWAY_MESSAGE, signature);
    forall act | act in acts && ActBytes(fmt, act) == GATEWAY_MESSAGE ensures act.SignGateway? {
      if act.SignMessage? {
        GatewayBytesAreNoMessage(fmt, act.id, act.sender, act.text);
      }
    }
    if SignGateway(key, signature) in acts {
      assert ActBytes(fmt, SignGateway(key, signature)) == GATEWAY_MESSAGE;
    }
    VerifiesIffSigned(fmt, acts, Message(id, sender, text, signature), key);
  }
}
