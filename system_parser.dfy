/** The system program's instruction parser: a transfer is decoded, everything else left empty. */
module SystemParser {
  import opened Common
  import opened ParsedTx

  /** What the instruction identifier reports for an instruction's data. */
  datatype SystemInstruction = TransferSol | OtherSystemInstruction(discriminator: nat)

  const ProgramName := "system"

  /** The record the parser fills before merging in the caller's data. */
  datatype Pre = Pre(parsed: JsValue, program: string, programId: PublicKey)

  /** The record as an object with its three fields. */
  function Fields(pre: Pre): (r: map<string, JsValue>)
    ensures r.Keys == {"parsed", "program", "programId"}
    ensures r["parsed"] == pre.parsed && r["program"] == JsString(pre.program) && r["programId"] == JsKey(pre.programId)
  {
    map["parsed" := pre.parsed, "program" := JsString(pre.program), "programId" := JsKey(pre.programId)]
  }

  /** `{ ...base, ...(extra ?? {}) }`: every key of `extra` overrides, every other key of `base` survives. */
  function Spread(base: map<string, JsValue>, extra: Option<map<string, JsValue>>): (r: map<string, JsValue>)
    ensures r.Keys == base.Keys + extra.GetOr(map[]).Keys
    ensures forall k | k in extra.GetOr(map[]) :: r[k] == extra.GetOr(map[])[k]
    ensures forall k | k in base && k !in extra.GetOr(map[]) :: r[k] == base[k]
    ensures extra.None? ==> r == base
  {
    base + extra.GetOr(map[])
  }

  /** The `parsed` field of a transfer: the decoder's output and the type `transfer`. */
  function TransferParsed(info: JsValue): JsValue {
    JsObject(map["info" := info, "type" := JsString("transfer")])
  }

  /**
   * `systemProgramTransactionInstructionParser`. `identify` stands for
   * `identifySystemInstruction` and `decodeTransfer` for `parseTransferSolInstruction`.
   */
  method SystemProgramTransactionInstructionParser(
    ti: TransactionInstruction, data: Option<map<string, JsValue>>,
    identify: seq<byte> -> SystemInstruction, decodeTransfer: Instruction -> JsValue,
    toBase58: PublicKey -> string)
    returns (parsed: map<string, JsValue>)
    ensures parsed.Keys == {"parsed", "program", "programId"} + data.GetOr(map[]).Keys
    ensures forall k | k in data.GetOr(map[]) :: parsed[k] == data.GetOr(map[])[k]
    ensures "programId" !in data.GetOr(map[]) ==> parsed["programId"] == JsKey(ti.programId)
    ensures "program" !in data.GetOr(map[]) ==>
      parsed["program"] == JsString(if identify(ti.data) == TransferSol then ProgramName else "")
    ensures "parsed" !in data.GetOr(map[]) ==>
      parsed["parsed"] == if identify(ti.data) == TransferSol
                          then TransferParsed(decodeTransfer(UpcastTransactionInstruction(ti, toBase58)))
                          else JsObject(map[])
  {
    var instructionType := identify(ti.data);
    var pre := Pre(JsObject(map[]), "", ti.programId);
    match instructionType {
      case TransferSol =>
        pre := pre.(program := ProgramName);
        var info := decodeTransfer(UpcastTransactionInstruction(ti, toBase58));
        pre := pre.(parsed := TransferParsed(info));
      case OtherSystemInstruction(_) =>
        // nothing to decode
    }
    parsed := Spread(Fields(pre), data);
  }
}
