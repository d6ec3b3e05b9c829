/** Results shared by every module. */
module Results {
  datatype Option<+T> = None | Some(value: T)

  datatype Result<+T, +E> = Ok(value: T) | Err(error: E)
}

/**
 The library values the repository builds on, as free terms: two terms are equal only when they
 were built the same way. A hash collision is therefore impossible by construction, and private
 derivation matches public derivation by the definition of `PublicOf`.
 */
module Bitcoin {
  import opened Results

  type Byte = n: int | 0 <= n < 256
  type Bytes = seq<Byte>

  datatype Hash32 =
    | Sha256(data: Bytes)
    | NextHash(prev: Hash32)
    | AddHashes(left: Hash32, right: Hash32)
    | TxId(tx: Tx)
    | RawHash(id: nat)

  /** `NoKey` is the zero value of a key that was never filled in. */
  datatype PublicKey =
    | NoKey
    | ChildKey(wallet: nat, keyType: nat, keyIndex: nat)
    | NextPublicKey(base: PublicKey, hash: Hash32)

  datatype PrivateKey =
    | PrivateChild(wallet: nat, keyType: nat, keyIndex: nat)
    | NextKey(key: PrivateKey, hash: Hash32)

  function PublicOf(key: PrivateKey): PublicKey {
    match key
    case PrivateChild(w, t, i) => ChildKey(w, t, i)
    case NextKey(k, h) => NextPublicKey(PublicOf(k), h)
  }

  /** The wallet that can sign for a key, if there is one. */
  function WalletOf(key: PublicKey): Option<nat> {
    match key
    case NoKey => None
    case ChildKey(w, _, _) => Some(w)
    case NextPublicKey(base, _) => WalletOf(base)
  }

  datatype Hash20 = Hash160(key: PublicKey) | RawHash20(id: nat)

  /** `NoAddress` stands for a script that names no address. */
  datatype RawAddress =
    | NoAddress
    | PayToKeyHash(hash: Hash20)
    | PayToKey(key: PublicKey)
    | MultiKeyHash(hashes: seq<Hash20>)

  /** The hashes of an address; None is the unknown script template error. */
  function HashesOf(ra: RawAddress): Option<seq<Hash20>> {
    match ra
    case NoAddress => None
    case PayToKeyHash(h) => Some([h])
    case PayToKey(k) => Some([Hash160(k)])
    case MultiKeyHash(hs) => Some(hs)
  }

  // ----- the hash chain of a relationship -----

  /** The hash at position `index` of the chain that starts at the hash of `seed`. */
  function Chain(seed: Bytes, index: nat): Hash32
    requires index >= 1
  {
    if index == 1 then Sha256(seed) else NextHash(Chain(seed, index - 1))
  }

  /** No hash ever repeats along one chain. */
  lemma {:induction false} ChainInjective(seed: Bytes, i: nat, j: nat)
    requires i >= 1 && j >= 1
    ensures Chain(seed, i) == Chain(seed, j) <==> i == j
  {
    if i > 1 && j > 1 {
      ChainInjective(seed, i - 1, j - 1);
    }
  }

  // ----- transactions -----

  /** An outpoint names the transaction it spends from: the transaction hash is a free term. */
  datatype OutPoint = OutPoint(tx: Tx, index: nat)

  /** `keys` are the public keys in the unlocking script; None is a script that does not parse. */
  datatype TxIn = TxIn(point: OutPoint, keys: Option<seq<PublicKey>>)

  datatype Script = Pay(address: RawAddress) | Flag(data: Bytes) | Envelope | Unreadable

  datatype TxOut = TxOut(value: nat, script: Script)

  datatype Tx = Tx(inputs: seq<TxIn>, outputs: seq<TxOut>)

  /** The address in a locking script, NoAddress when there is none. */
  function AddressOf(script: Script): RawAddress {
    if script.Pay? then script.address else NoAddress
  }

  /** The public key that unlocks an input; None is the parse error. */
  function UnlockingKey(input: TxIn): Option<PublicKey> {
    if input.keys.Some? && |input.keys.value| > 0 then Some(input.keys.value[0]) else None
  }

  /** No transaction spends its own outputs. */
  lemma NoSelfSpend(tx: Tx, i: nat)
    requires i < |tx.inputs|
    ensures tx.inputs[i].point.tx != tx
  {
  }
}
