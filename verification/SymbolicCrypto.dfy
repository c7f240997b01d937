/** The foreign cryptography, symbolically: a value is the term that built it, and a
    cipher opens exactly under the key that closed it. */
module SymbolicCrypto {
  import opened Types

  /** An RSA key pair is one fresh number; the two halves are different values. */
  datatype RsaPublic = RsaPublic(id: nat)
  datatype RsaPrivate = RsaPrivate(id: nat)

  datatype Data =
    | Text(bytes: string)
    | Secret(id: nat)
    | PublicOf(secret: Data)
    | AesKey(id: nat)
    | Share(secret: Data, n: nat, k: nat, index: nat)
    | Junk(slices: seq<Data>)
    | Rsa(pub: RsaPublic, payload: Data)
    | Aes(key: Data, payload: Data)
    | Cid(block: Data)
    | MultiSig(k: nat, keys: seq<Data>, taskType: string)
    | Signature(keyType: string, secret: Data, message: Data)
    | Witness(k: nat, keys: seq<Data>, signatures: seq<Data>, taskType: string)

  function RsaDecrypt(key: RsaPrivate, c: Data): Option<Data> {
    if c.Rsa? && c.pub.id == key.id then Some(c.payload) else None
  }

  function AesDecrypt(key: Data, c: Data): Option<Data> {
    if c.Aes? && c.key == key then Some(c.payload) else None
  }

  /** The n slices of one sharing. */
  function ShamirShare(n: nat, k: nat, secret: Data): (slices: seq<Data>)
    ensures |slices| == n
    ensures forall i :: 0 <= i < n ==> slices[i] == Share(secret, n, k, i)
  {
    seq(n, i requires 0 <= i < n => Share(secret, n, k, i))
  }

  predicate OneSharing(secret: Data, n: nat, k: nat, slices: seq<Data>) {
    forall s :: s in slices ==> s.Share? && s.secret == secret && s.n == n && s.k == k
  }

  /** Recovery refuses fewer than `k` distinct slices. Given enough of them for the
      sharing they come from it yields the shared secret, and otherwise it
      interpolates a value that has nothing to do with it. */
  function ShamirRecovery(k: nat, slices: seq<Data>): Option<Data> {
    var distinct := Elements(slices);
    if |distinct| < k || slices == [] then None
    else
      var first := slices[0];
      if first.Share? && OneSharing(first.secret, first.n, first.k, slices) && first.k <= |distinct| then
        Some(first.secret)
      else
        Some(Junk(slices))
  }

  /** Slices of one generated key give it back exactly when recovery accepts their
      number and they reach the threshold of the sharing. */
  lemma RecoveryExact(k: nat, id: nat, n: nat, t: nat, slices: seq<Data>)
    requires 0 < |slices| && Distinct(slices) && OneSharing(Secret(id), n, t, slices)
    ensures ShamirRecovery(k, slices) == Some(Secret(id)) <==> k <= |slices| && t <= |slices|
    ensures ShamirRecovery(k, slices).None? <==> |slices| < k
  {
    DistinctCount(slices);
    assert slices[0] in slices;
  }
}
