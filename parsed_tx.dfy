/**
 * Upcasting of legacy account metas and transaction instructions to the newer
 * instruction interface, and the entry points that hand an instruction to a parser.
 */
module ParsedTx {
  import opened Common

  /** A public key: its 32 bytes. */
  datatype PublicKey = PublicKey(bytes: seq<byte>)

  /** An account address, `address(text)` of the key's base58 text. */
  datatype Address = Address(text: string)

  /** A legacy account meta. */
  datatype AccountMeta = AccountMeta(pubkey: PublicKey, isSigner: bool, isWritable: bool)

  /** The four account roles, with the numbers the newer interface gives them. */
  datatype AccountRole = Readonly | Writable | ReadonlySigner | WritableSigner {
    function Value(): nat {
      match this
      case Readonly => 0
      case Writable => 1
      case ReadonlySigner => 2
      case WritableSigner => 3
    }

    predicate IsSigner() {
      this == ReadonlySigner || this == WritableSigner
    }

    predicate IsWritable() {
      this == Writable || this == WritableSigner
    }
  }

  /** An account meta of the newer interface. */
  datatype RoleMeta = RoleMeta(address: Address, role: AccountRole)

  /**
   * `upcastAccountMeta`: the address of the key's base58 text (`toBase58`), and the
   * role whose signer and writable flags are the meta's, numbered 3, 2, 1, 0.
   */
  function UpcastAccountMeta(meta: AccountMeta, toBase58: PublicKey -> string): (r: RoleMeta)
    ensures r.address == Address(toBase58(meta.pubkey))
    ensures r.role.IsSigner() == meta.isSigner && r.role.IsWritable() == meta.isWritable
    ensures r.role.Value() == (if meta.isSigner then 2 else 0) + (if meta.isWritable then 1 else 0)
  {
    RoleMeta(
      Address(toBase58(meta.pubkey)),
      if meta.isSigner then
        (if meta.isWritable then WritableSigner else ReadonlySigner)
      else
        (if meta.isWritable then Writable else Readonly))
  }

  /** The role mapping loses nothing: equal roles come from equal flags. */
  lemma RoleDeterminesFlags(a: AccountMeta, b: AccountMeta, toBase58: PublicKey -> string)
    requires UpcastAccountMeta(a, toBase58).role == UpcastAccountMeta(b, toBase58).role
    ensures a.isSigner == b.isSigner && a.isWritable == b.isWritable
  {
  }

  /** A legacy transaction instruction. */
  datatype TransactionInstruction = TransactionInstruction(keys: seq<AccountMeta>, programId: PublicKey, data: seq<byte>)

  /** An instruction of the newer interface. */
  datatype Instruction = Instruction(accounts: seq<RoleMeta>, data: seq<byte>, programAddress: Address)

  /** `keys.map(upcastAccountMeta)`. */
  function UpcastKeys(keys: seq<AccountMeta>, toBase58: PublicKey -> string): (r: seq<RoleMeta>)
    ensures |r| == |keys|
    ensures forall i | 0 <= i < |keys| :: r[i] == UpcastAccountMeta(keys[i], toBase58)
  {
    if keys == [] then []
    else [UpcastAccountMeta(keys[0], toBase58)] + UpcastKeys(keys[1..], toBase58)
  }

  /**
   * `upcastTransactionInstruction`: one account per key, in order, each the upcast of
   * its key; the data unchanged; the program address from the program id.
   */
  function UpcastTransactionInstruction(ix: TransactionInstruction, toBase58: PublicKey -> string): (r: Instruction)
    ensures |r.accounts| == |ix.keys|
    ensures forall i | 0 <= i < |ix.keys| :: r.accounts[i] == UpcastAccountMeta(ix.keys[i], toBase58)
    ensures r.data == ix.data
    ensures r.programAddress == Address(toBase58(ix.programId))
  {
    Instruction(UpcastKeys(ix.keys, toBase58), ix.data, Address(toBase58(ix.programId)))
  }

  /** A JavaScript value as the parsers build it. */
  datatype JsValue =
    | JsString(s: string)
    | JsNumber(n: int)
    | JsKey(key: PublicKey)
    | JsObject(fields: map<string, JsValue>)

  /** `intoParsedInstruction`: exactly what `parse` makes of the instruction and the extra data. */
  function IntoParsedInstruction<I, D, P>(instruction: I, data: Option<D>, parse: (I, Option<D>) -> P): (r: P)
    ensures r == parse(instruction, data)
  {
    parse(instruction, data)
  }

  /** A legacy transaction (it has `compileMessage`) or a versioned message. */
  datatype TransactionOrMessage =
    | Transaction(instructions: seq<TransactionInstruction>)
    | VersionedMessage(staticAccountKeys: seq<PublicKey>)

  /** `intoParsedTransaction`: "Not implemented" for a transaction, the empty object for a message. */
  function IntoParsedTransaction(input: TransactionOrMessage): (r: Result<map<string, JsValue>, string>)
    ensures r.Err? <==> input.Transaction?
    ensures r.Err? ==> r.error == "Not implemented"
    ensures r.Ok? ==> r.value == map[]
  {
    if input.Transaction? then Err("Not implemented") else Ok(map[])
  }
}
