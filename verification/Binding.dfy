/** What a client signs, what the strike cache hashes, and the key schedule. */
module Binding {
  import opened ByteStrings
  import opened Suites
  import opened Records

  const CLIENT_BINDING_LABEL: Bytes := Ascii("ORT-v1 connmeta")
  const INFO_ENC_KEY: Bytes := Ascii("ORT-v1 enc-key")
  const INFO_POOL_KEY: Bytes := Ascii("ORT-v1 pool-key")

  datatype ConnMeta = ConnMeta(srcIp: Bytes16, tsMillis: U64, nonce: Bytes32)

  function Canonical(cm: ConnMeta): (b: Bytes)
    ensures |b| == 56
  {
    cm.srcIp + ToBE(8, cm.tsMillis) + cm.nonce
  }

  function BindingMsg(su: Suite, cm: ConnMeta, clientPk: Bytes, ciphertext: Bytes, encData: Bytes): Bytes {
    CLIENT_BINDING_LABEL + Canonical(cm) + clientPk + su.hash256(ciphertext) + su.hash256(encData)
  }

  /** `ConnMeta::canonical` fills a fixed array in place. */
  method CanonicalArray(cm: ConnMeta) returns (out: array<Byte>)
    ensures fresh(out) && out[..] == Canonical(cm)
  {
    out := new Byte[56](_ => 0);
    forall i | 0 <= i < 16 {
      out[i] := cm.srcIp[i];
    }
    var be := ToBE(8, cm.tsMillis);
    forall i | 16 <= i < 24 {
      out[i] := be[i - 16];
    }
    forall i | 24 <= i < 56 {
      out[i] := cm.nonce[i - 24];
    }
  }

  method ClientBindingMsg(su: Suite, cm: ConnMeta, clientPk: Bytes, ciphertext: Bytes,
                          encData: Bytes) returns (msg: Bytes)
    ensures msg == BindingMsg(su, cm, clientPk, ciphertext, encData)
  {
    var canonical := CanonicalArray(cm);
    msg := CLIENT_BINDING_LABEL;
    msg := msg + canonical[..];
    msg := msg + clientPk;
    msg := msg + su.hash256(ciphertext);
    msg := msg + su.hash256(encData);
  }

  lemma CanonicalInjective(a: ConnMeta, b: ConnMeta)
    requires Canonical(a) == Canonical(b)
    ensures a == b
  {
    var s, t := Canonical(a), Canonical(b);
    assert s[..16] == a.srcIp && t[..16] == b.srcIp;
    assert s[16..24] == ToBE(8, a.tsMillis) && t[16..24] == ToBE(8, b.tsMillis);
    assert s[24..] == a.nonce && t[24..] == b.nonce;
    BE64Injective(a.tsMillis, b.tsMillis);
  }

  lemma BindingFields(su: Suite, cm: ConnMeta, pk: Bytes, ct: Bytes, ed: Bytes)
    ensures var m := BindingMsg(su, cm, pk, ct, ed);
            && |m| == 135 + |pk|
            && m[..15] == Ascii("ORT-v1 connmeta")
            && m[15..71] == Canonical(cm)
            && m[71..|m| - 64] == pk
            && m[|m| - 64..|m| - 32] == su.hash256(ct)
            && m[|m| - 32..] == su.hash256(ed)
  {
  }

  /** The signed message determines everything it binds, although the client key
      in the middle of it carries no length. */
  lemma BindingInjective(su: Suite, cm: ConnMeta, pk: Bytes, ct: Bytes, ed: Bytes,
                         cm': ConnMeta, pk': Bytes, ct': Bytes, ed': Bytes)
    requires BindingMsg(su, cm, pk, ct, ed) == BindingMsg(su, cm', pk', ct', ed')
    ensures cm == cm' && pk == pk'
    ensures su.hash256(ct) == su.hash256(ct') && su.hash256(ed) == su.hash256(ed')
  {
    BindingFields(su, cm, pk, ct, ed);
    BindingFields(su, cm', pk', ct', ed');
    CanonicalInjective(cm, cm');
  }

  // --- Replay tags ---------------------------------------------------------

  function TagPreimage(nonce: Bytes32, encData: Bytes): Bytes {
    nonce + encData
  }

  function ReplayTag(su: Suite, nonce: Bytes32, encData: Bytes): Bytes32 {
    su.hash256(TagPreimage(nonce, encData))
  }

  lemma TagPreimageInjective(nonce: Bytes32, encData: Bytes, nonce': Bytes32, encData': Bytes)
    requires TagPreimage(nonce, encData) == TagPreimage(nonce', encData')
    ensures nonce == nonce' && encData == encData'
  {
    var s, t := TagPreimage(nonce, encData), TagPreimage(nonce', encData');
    assert s[..32] == nonce && t[..32] == nonce' && s[32..] == encData && t[32..] == encData';
  }

  /** As long as their strings do not collide under the hash, two tags are equal
      exactly if nonce and early data are. */
  lemma TagIff(su: Suite, nonce: Bytes32, encData: Bytes, nonce': Bytes32, encData': Bytes)
    requires su.hash256(nonce + encData) == su.hash256(nonce' + encData') ==> nonce + encData == nonce' + encData'
    ensures ReplayTag(su, nonce, encData) == ReplayTag(su, nonce', encData') <==> nonce == nonce' && encData == encData'
  {
    if ReplayTag(su, nonce, encData) == ReplayTag(su, nonce', encData') {
      TagPreimageInjective(nonce, encData, nonce', encData');
    }
  }

  // --- Key schedule --------------------------------------------------------

  function DeriveKeys(su: Suite, shared: Bytes, ciphertext: Bytes): SessionKeys {
    var salt := su.hash256(ciphertext);
    SessionKeys(su.hkdf(shared, salt, INFO_ENC_KEY, 32), su.hkdf(shared, salt, INFO_POOL_KEY, 32))
  }
}
