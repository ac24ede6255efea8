/** The witness builders of the staking scripts, step by step as the Go code
    runs them: each validates its inputs, grows a stack of signature slots
    and hands it to `CreateWitness`. Each is proved to compute its reference
    definition in `WitnessSpec`, where the layout properties are proved. */
module WitnessUtils {
  import opened Wrappers
  import opened ByteStrings
  import opened Schnorr
  import opened Taproot
  import opened WitnessSpec

  /** Allocates a stack of `|signatures| + 2` entries, copies the signatures
      into it by index and writes the script and the control-block bytes
      into the last two entries. A nil `si` is a programming error, hence
      the precondition. */
  method CreateWitness(si: SpendInfo?, signatures: TxWitness) returns (r: Result<TxWitness, Error>)
    requires si != null
    ensures r == Witness(si, signatures)
  {
    var numSignatures := |signatures|;

    var controlBlockBytes := si.controlBlock.ToBytes();
    if controlBlockBytes.Err? {
      return Err(ControlBlockError(controlBlockBytes.error));
    }

    var witnessStack := new Bytes[numSignatures + 2];

    for i := 0 to numSignatures
      invariant forall k :: 0 <= k < i ==> witnessStack[k] == signatures[k]
    {
      witnessStack[i] := signatures[i];
    }

    witnessStack[numSignatures] := si.GetPkScriptPath();
    witnessStack[numSignatures + 1] := controlBlockBytes.value;

    assert witnessStack[..] == signatures + [si.GetPkScriptPath(), controlBlockBytes.value];
    return Ok(witnessStack[..]);
  }

  /** The timelock path: the delegator signature alone. */
  method CreateTimeLockPathWitness(si: SpendInfo?, delegatorSig: Option<Signature>)
    returns (r: Result<TxWitness, Error>)
    requires si != null
    ensures r == TimeLockPathWitness(si, delegatorSig)
  {
    if delegatorSig.None? {
      return Err(DelegatorSigNil);
    }
    r := CreateWitness(si, [Serialize(delegatorSig.value)]);
  }

  /** The unbonding path: one slot per covenant member, then the delegator.
      How many covenant signatures are present is the caller's concern. */
  method CreateUnbondingPathWitness(si: SpendInfo?, covenantSigs: seq<Option<Signature>>,
                                    delegatorSig: Option<Signature>)
    returns (r: Result<TxWitness, Error>)
    requires si != null
    ensures r == UnbondingPathWitness(si, covenantSigs, delegatorSig)
  {
    var witnessStack: TxWitness := [];

    if |covenantSigs| == 0 {
      return Err(CovenantSigsEmpty);
    }
    for i := 0 to |covenantSigs|
      invariant |witnessStack| == i
      invariant forall k :: 0 <= k < i ==> witnessStack[k] == Slot(covenantSigs[k])
    {
      var covSig := covenantSigs[i];
      if covSig.None? {
        witnessStack := witnessStack + [[]];
      } else {
        witnessStack := witnessStack + [Serialize(covSig.value)];
      }
    }
    assert witnessStack == Slots(covenantSigs);

    if delegatorSig.None? {
      return Err(DelegatorSigNil);
    }
    witnessStack := witnessStack + [Serialize(delegatorSig.value)];

    r := CreateWitness(si, witnessStack);
  }

  /** The slashing path: covenant slots, then finality-provider slots, then
      the delegator. Only one finality-provider signature need be present,
      which is again the caller's concern. */
  method CreateSlashingPathWitness(si: SpendInfo?, covenantSigs: seq<Option<Signature>>,
                                   fpSigs: seq<Option<Signature>>, delegatorSig: Option<Signature>)
    returns (r: Result<TxWitness, Error>)
    requires si != null
    ensures r == SlashingPathWitness(si, covenantSigs, fpSigs, delegatorSig)
  {
    var witnessStack: TxWitness := [];

    if |covenantSigs| == 0 {
      return Err(CovenantSigsEmpty);
    }
    for i := 0 to |covenantSigs|
      invariant |witnessStack| == i
      invariant forall k :: 0 <= k < i ==> witnessStack[k] == Slot(covenantSigs[k])
    {
      var covSig := covenantSigs[i];
      if covSig.None? {
        witnessStack := witnessStack + [[]];
      } else {
        witnessStack := witnessStack + [Serialize(covSig.value)];
      }
    }
    assert witnessStack == Slots(covenantSigs);

    if |fpSigs| == 0 {
      return Err(FinalityProviderSigsEmpty);
    }
    ghost var covenantSlots := witnessStack;
    for j := 0 to |fpSigs|
      invariant |witnessStack| == |covenantSlots| + j
      invariant witnessStack[..|covenantSlots|] == covenantSlots
      invariant forall k :: 0 <= k < j ==> witnessStack[|covenantSlots| + k] == Slot(fpSigs[k])
    {
      var fpSig := fpSigs[j];
      if fpSig.None? {
        witnessStack := witnessStack + [[]];
      } else {
        witnessStack := witnessStack + [Serialize(fpSig.value)];
      }
    }
    assert witnessStack[|covenantSlots|..] == Slots(fpSigs);
    assert witnessStack == Slots(covenantSigs) + Slots(fpSigs) by {
      assert witnessStack == witnessStack[..|covenantSlots|] + witnessStack[|covenantSlots|..];
    }

    if delegatorSig.None? {
      return Err(DelegatorSigNil);
    }
    witnessStack := witnessStack + [Serialize(delegatorSig.value)];

    r := CreateWitness(si, witnessStack);
  }
}
