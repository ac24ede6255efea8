/** The spend descriptor the witness builders consume: a revealed leaf
    script together with the control block proving its inclusion in the
    Taproot output. Both are built elsewhere; only what the builders read is
    modelled. */
module Taproot {
  import opened Wrappers
  import opened ByteStrings

  /** A serialized Merkle inclusion proof. How it is encoded is not modelled:
      the value records the outcome `ToBytes` produces for it, either the
      encoded bytes or the message of the error it reports. */
  datatype ControlBlock = ControlBlock(serialization: Result<Bytes, string>) {

    /** `ControlBlock.ToBytes`: the canonical encoding, which may fail. */
    function ToBytes(): Result<Bytes, string> {
      serialization
    }
  }

  /** Spend information for one script path of a staking output. Go hands
      it around by pointer, so the builders receive a possibly nil
      reference. Nothing here changes it after construction. */
  class SpendInfo {
    const controlBlock: ControlBlock
    const revealedScript: Bytes

    constructor (controlBlock: ControlBlock, revealedScript: Bytes)
      ensures this.controlBlock == controlBlock
      ensures this.revealedScript == revealedScript
    {
      this.controlBlock := controlBlock;
      this.revealedScript := revealedScript;
    }

    /** The script of the revealed leaf, pushed onto the witness as is. */
    function GetPkScriptPath(): Bytes {
      revealedScript
    }
  }
}
