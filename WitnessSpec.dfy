/** Reference definitions of the Taproot script-path witnesses, as values,
    and the properties the staking scripts rely on: slot order, placeholders
    for missing signatures, the two trailing entries, and which error is
    reported when several inputs are wrong. */
module WitnessSpec {
  import opened Wrappers
  import opened ByteStrings
  import opened Schnorr
  import opened Taproot

  /** `wire.TxWitness`: the ordered stack of byte strings. */
  type TxWitness = seq<Bytes>

  /** The recoverable errors of the builders. The last one carries, unchanged,
      the message of the error the control block reported. */
  datatype Error =
    | CovenantSigsEmpty
    | FinalityProviderSigsEmpty
    | DelegatorSigNil
    | ControlBlockError(cause: string)

  /** The witness entry for one optional signature: a nil signature becomes
      the empty byte string, a present one its 64-byte serialization. */
  function Slot(sig: Option<Signature>): (b: Bytes)
    ensures b == [] <==> sig.None?
    ensures sig.Some? ==> |b| == 64 && b == Serialize(sig.value)
  {
    match sig
    case None => []
    case Some(s) => Serialize(s)
  }

  /** One entry per signature, in the given order; nil signatures keep their
      position as placeholders. */
  function Slots(sigs: seq<Option<Signature>>): (r: seq<Bytes>)
    ensures |r| == |sigs|
    ensures forall i :: 0 <= i < |sigs| ==> r[i] == Slot(sigs[i])
  {
    if sigs == [] then [] else [Slot(sigs[0])] + Slots(sigs[1..])
  }

  /** What `CreateWitness` computes: the signatures, then the revealed
      script, then the serialized control block. */
  function Witness(si: SpendInfo, signatures: TxWitness): Result<TxWitness, Error>
  {
    match si.controlBlock.ToBytes()
    case Err(cause) => Err(ControlBlockError(cause))
    case Ok(controlBlockBytes) => Ok(signatures + [si.GetPkScriptPath(), controlBlockBytes])
  }

  /** What `CreateTimeLockPathWitness` computes. */
  function TimeLockPathWitness(si: SpendInfo, delegatorSig: Option<Signature>): Result<TxWitness, Error>
  {
    if delegatorSig.None? then Err(DelegatorSigNil)
    else Witness(si, [Serialize(delegatorSig.value)])
  }

  /** What `CreateUnbondingPathWitness` computes. */
  function UnbondingPathWitness(si: SpendInfo, covenantSigs: seq<Option<Signature>>,
                                delegatorSig: Option<Signature>): Result<TxWitness, Error>
  {
    if |covenantSigs| == 0 then Err(CovenantSigsEmpty)
    else if delegatorSig.None? then Err(DelegatorSigNil)
    else Witness(si, Slots(covenantSigs) + [Serialize(delegatorSig.value)])
  }

  /** What `CreateSlashingPathWitness` computes. */
  function SlashingPathWitness(si: SpendInfo, covenantSigs: seq<Option<Signature>>,
                               fpSigs: seq<Option<Signature>>,
                               delegatorSig: Option<Signature>): Result<TxWitness, Error>
  {
    if |covenantSigs| == 0 then Err(CovenantSigsEmpty)
    else if |fpSigs| == 0 then Err(FinalityProviderSigsEmpty)
    else if delegatorSig.None? then Err(DelegatorSigNil)
    else Witness(si, Slots(covenantSigs) + Slots(fpSigs) + [Serialize(delegatorSig.value)])
  }

  /** A left inverse of `Slot`, defined for this model only: the empty
      string reads as a missing signature and 64 bytes as r || s. It serves
      to state that placeholders keep each signer's position; it is not how
      script execution interprets a witness entry. */
  function DecodeSlot(b: Bytes): Option<Signature>
  {
    if |b| == 64 then Some(Signature(b[..32], b[32..])) else None
  }

  // ---------------------------------------------------------------------
  // The generic assembler

  /** The assembled witness has one entry per signature and then exactly
      two more; whether it succeeds depends only on the control block, and
      a control-block failure is passed on as it is. */
  lemma WitnessLayout(si: SpendInfo, signatures: TxWitness)
    ensures Witness(si, signatures).Ok? <==> si.controlBlock.ToBytes().Ok?
    ensures Witness(si, signatures).Err? ==>
              Witness(si, signatures).error == ControlBlockError(si.controlBlock.ToBytes().error)
    ensures Witness(si, signatures).Ok? ==>
              var w, n := Witness(si, signatures).value, |signatures|;
              && |w| == n + 2
              && (forall i :: 0 <= i < n ==> w[i] == signatures[i])
              && w[n] == si.GetPkScriptPath()
              && w[n + 1] == si.controlBlock.ToBytes().value
  {
  }

  /** The two trailing entries do not depend on the signatures at all. */
  lemma WitnessTrailerIndependent(si: SpendInfo, a: TxWitness, b: TxWitness)
    requires Witness(si, a).Ok?
    ensures Witness(si, b).Ok?
    ensures var wa, wb := Witness(si, a).value, Witness(si, b).value;
            wa[|wa| - 2..] == wb[|wb| - 2..]
  {
  }

  // ---------------------------------------------------------------------
  // Placeholders keep signer positions

  /** Reading a slot back gives the signature it was made from, or nil. */
  lemma DecodeSlotInvertsSlot(sig: Option<Signature>)
    ensures DecodeSlot(Slot(sig)) == sig
  {
  }

  /** Reading all slots back recovers the whole list, nil entries included,
      each at its own position. */
  lemma DecodeSlotsRecoversSignatures(sigs: seq<Option<Signature>>)
    ensures forall i :: 0 <= i < |sigs| ==> DecodeSlot(Slots(sigs)[i]) == sigs[i]
  {
  }

  // ---------------------------------------------------------------------
  // Timelock path

  /** A nil delegator signature is the only validation error; otherwise the
      witness is the generic one for the single delegator signature, three
      entries long. */
  lemma TimeLockPathLayout(si: SpendInfo, delegatorSig: Option<Signature>)
    ensures TimeLockPathWitness(si, delegatorSig) == Err(DelegatorSigNil) <==> delegatorSig.None?
    ensures delegatorSig.Some? ==>
              TimeLockPathWitness(si, delegatorSig) == Witness(si, [Serialize(delegatorSig.value)])
    ensures TimeLockPathWitness(si, delegatorSig).Ok? ==>
              TimeLockPathWitness(si, delegatorSig).value
                == [Serialize(delegatorSig.value), si.GetPkScriptPath(), si.controlBlock.ToBytes().value]
  {
  }

  // ---------------------------------------------------------------------
  // Unbonding path

  /** An empty covenant list is reported first, then a nil delegator
      signature, and only then a control-block failure. */
  lemma UnbondingPathErrors(si: SpendInfo, covenantSigs: seq<Option<Signature>>,
                            delegatorSig: Option<Signature>)
    ensures var r := UnbondingPathWitness(si, covenantSigs, delegatorSig);
            && (r == Err(CovenantSigsEmpty) <==> |covenantSigs| == 0)
            && (r == Err(DelegatorSigNil) <==> |covenantSigs| > 0 && delegatorSig.None?)
            && (r.Ok? <==> |covenantSigs| > 0 && delegatorSig.Some? && si.controlBlock.ToBytes().Ok?)
    ensures |covenantSigs| > 0 && delegatorSig.Some? && si.controlBlock.ToBytes().Err? ==>
              UnbondingPathWitness(si, covenantSigs, delegatorSig)
                == Err(ControlBlockError(si.controlBlock.ToBytes().error))
  {
  }

  /** A successful unbonding witness is the covenant slots in order, nil ones
      as empty placeholders, then the delegator signature, the script and the
      control block. */
  lemma UnbondingPathLayout(si: SpendInfo, covenantSigs: seq<Option<Signature>>,
                            delegatorSig: Option<Signature>)
    requires UnbondingPathWitness(si, covenantSigs, delegatorSig).Ok?
    ensures var w, n := UnbondingPathWitness(si, covenantSigs, delegatorSig).value, |covenantSigs|;
            && |w| == n + 3
            && (forall i :: 0 <= i < n ==> w[i] == Slot(covenantSigs[i]))
            && (forall i :: 0 <= i < n ==> (w[i] == [] <==> covenantSigs[i].None?))
            && w[n] == Serialize(delegatorSig.value)
            && w[n + 1] == si.GetPkScriptPath()
            && w[n + 2] == si.controlBlock.ToBytes().value
  {
  }

  /** From a successful unbonding witness a script recovers, slot by slot,
      exactly which covenant member signed and with what, and the delegator
      signature right after them. */
  lemma UnbondingPathRecoversSignatures(si: SpendInfo, covenantSigs: seq<Option<Signature>>,
                                        delegatorSig: Option<Signature>)
    requires UnbondingPathWitness(si, covenantSigs, delegatorSig).Ok?
    ensures var w, n := UnbondingPathWitness(si, covenantSigs, delegatorSig).value, |covenantSigs|;
            && |w| == n + 3
            && (forall i :: 0 <= i < n ==> DecodeSlot(w[i]) == covenantSigs[i])
            && DecodeSlot(w[n]) == delegatorSig
  {
  }

  // ---------------------------------------------------------------------
  // Slashing path

  /** Validation order: empty covenant list first, empty finality-provider
      list second, nil delegator signature third, control block last. */
  lemma SlashingPathErrors(si: SpendInfo, covenantSigs: seq<Option<Signature>>,
                           fpSigs: seq<Option<Signature>>, delegatorSig: Option<Signature>)
    ensures var r := SlashingPathWitness(si, covenantSigs, fpSigs, delegatorSig);
            && (r == Err(CovenantSigsEmpty) <==> |covenantSigs| == 0)
            && (r == Err(FinalityProviderSigsEmpty) <==> |covenantSigs| > 0 && |fpSigs| == 0)
            && (r == Err(DelegatorSigNil) <==> |covenantSigs| > 0 && |fpSigs| > 0 && delegatorSig.None?)
            && (r.Ok? <==> |covenantSigs| > 0 && |fpSigs| > 0 && delegatorSig.Some?
                           && si.controlBlock.ToBytes().Ok?)
    ensures |covenantSigs| > 0 && |fpSigs| > 0 && delegatorSig.Some? && si.controlBlock.ToBytes().Err? ==>
              SlashingPathWitness(si, covenantSigs, fpSigs, delegatorSig)
                == Err(ControlBlockError(si.controlBlock.ToBytes().error))
  {
  }

  /** A successful slashing witness is the covenant slots, then the
      finality-provider slots, then the delegator signature, the script and
      the control block; nil signatures are empty placeholders in their own
      positions. */
  lemma SlashingPathLayout(si: SpendInfo, covenantSigs: seq<Option<Signature>>,
                           fpSigs: seq<Option<Signature>>, delegatorSig: Option<Signature>)
    requires SlashingPathWitness(si, covenantSigs, fpSigs, delegatorSig).Ok?
    ensures var w, c, f := SlashingPathWitness(si, covenantSigs, fpSigs, delegatorSig).value,
                           |covenantSigs|, |fpSigs|;
            && |w| == c + f + 3
            && (forall i :: 0 <= i < c ==> w[i] == Slot(covenantSigs[i]))
            && (forall j :: 0 <= j < f ==> w[c + j] == Slot(fpSigs[j]))
            && w[c + f] == Serialize(delegatorSig.value)
            && w[c + f + 1] == si.GetPkScriptPath()
            && w[c + f + 2] == si.controlBlock.ToBytes().value
  {
  }

  /** From a successful slashing witness a script recovers each covenant
      and finality-provider signature, or its absence, at that signer's
      position, and the delegator signature after them. */
  lemma SlashingPathRecoversSignatures(si: SpendInfo, covenantSigs: seq<Option<Signature>>,
                                       fpSigs: seq<Option<Signature>>, delegatorSig: Option<Signature>)
    requires SlashingPathWitness(si, covenantSigs, fpSigs, delegatorSig).Ok?
    ensures var w, c, f := SlashingPathWitness(si, covenantSigs, fpSigs, delegatorSig).value,
                           |covenantSigs|, |fpSigs|;
            && |w| == c + f + 3
            && (forall i :: 0 <= i < c ==> DecodeSlot(w[i]) == covenantSigs[i])
            && (forall j :: 0 <= j < f ==> DecodeSlot(w[c + j]) == fpSigs[j])
            && DecodeSlot(w[c + f]) == delegatorSig
  {
  }

  // ---------------------------------------------------------------------
  // Worked examples

  /** Unbonding with covenant signatures [A, nil, C] and delegator D gives
      [A, "", C, D, script, control block]. */
  lemma UnbondingExample(si: SpendInfo, a: Signature, c: Signature, d: Signature)
    requires si.controlBlock.ToBytes().Ok?
    ensures UnbondingPathWitness(si, [Some(a), None, Some(c)], Some(d))
              == Ok([Serialize(a), [], Serialize(c), Serialize(d),
                     si.GetPkScriptPath(), si.controlBlock.ToBytes().value])
  {
    var slots := Slots([Some(a), None, Some(c)]);
    assert slots == [Serialize(a), [], Serialize(c)];
    assert slots + [Serialize(d)] + [si.GetPkScriptPath(), si.controlBlock.ToBytes().value]
        == [Serialize(a), [], Serialize(c), Serialize(d),
            si.GetPkScriptPath(), si.controlBlock.ToBytes().value];
  }

  /** Slashing with covenant signatures [nil, B], finality-provider
      signatures [F, nil] and delegator D gives
      ["", B, F, "", D, script, control block]. */
  lemma SlashingExample(si: SpendInfo, b: Signature, f: Signature, d: Signature)
    requires si.controlBlock.ToBytes().Ok?
    ensures SlashingPathWitness(si, [None, Some(b)], [Some(f), None], Some(d))
              == Ok([[], Serialize(b), Serialize(f), [], Serialize(d),
                     si.GetPkScriptPath(), si.controlBlock.ToBytes().value])
  {
    var covenant, fp := Slots([None, Some(b)]), Slots([Some(f), None]);
    assert covenant == [[], Serialize(b)];
    assert fp == [Serialize(f), []];
    assert covenant + fp + [Serialize(d)] + [si.GetPkScriptPath(), si.controlBlock.ToBytes().value]
        == [[], Serialize(b), Serialize(f), [], Serialize(d),
            si.GetPkScriptPath(), si.controlBlock.ToBytes().value];
  }
}
