# Taproot script-path witnesses for BTC staking

A model of the witness builders of the BTC staking scripts
(`btcstaking/witness_utils.go`). A staking output is a Taproot output whose
script tree has three leaves, and each is spent with a witness stack of its
own:

- the **timelock path**: the delegator's signature alone;
- the **unbonding path**: one slot per covenant committee member, then the
  delegator's signature;
- the **slashing path**: one slot per covenant member, one per finality
  provider, then the delegator's signature.

Each stack ends with the revealed leaf script and the serialized control
block (`CreateWitness`). A missing covenant or finality-provider signature
becomes an empty byte string in its own slot, so the slots stay aligned with
the public keys in the script. The builders report three input errors: an
empty covenant list, an empty finality-provider list and a nil delegator
signature. They are checked in that order, and they all come before any
failure of the control block's serialization. A nil spend-info pointer is a
panic in the code and a precondition here.

Files:

- `Wrappers.dfy`: `Option` (a pointer that may be nil) and `Result` (Go's
  value-and-error return).
- `ByteStrings.dfy`: the byte and byte-string types.
- `Schnorr.dfy`: the 64-byte BIP 340 signature encoding.
- `Taproot.dfy`: the control block and the `SpendInfo` spend descriptor, both
  collaborators given from outside.
- `WitnessSpec.dfy`: a value-level reference definition of each builder, and
  lemmas covering layout, placeholders, error precedence and the worked
  examples.
- `WitnessUtils.dfy`: the four builders as methods that follow the code's
  loops. Each method's postcondition says it computes its reference
  definition.

## Model

| member | source | states |
|---|---|---|
| `Schnorr.Serialize` | btcstaking/witness_utils.go:43 | a present signature is serialized to exactly 64 bytes, r followed by s |
| `WitnessSpec.Slot` | btcstaking/witness_utils.go:40-44 | a slot is empty exactly when the signature is nil; a present signature gives its 64-byte serialization |
| `WitnessSpec.Slots` | btcstaking/witness_utils.go:39-45 | one slot per signature, in order, so nil signatures are never dropped |
| `WitnessSpec.WitnessLayout` | btcstaking/witness_utils.go:113-136 | the assembled stack has length n + 2, with the n signatures first, then the script, then the control-block bytes; it succeeds exactly when `ToBytes` does, and a `ToBytes` failure comes back as that same error |
| `WitnessSpec.WitnessTrailerIndependent` | btcstaking/witness_utils.go:132-133 | the last two entries are the same whatever signatures are passed |
| `WitnessSpec.DecodeSlotInvertsSlot` | btcstaking/witness_utils.go:40-44 | decoding a slot gives back the optional signature it was made from |
| `WitnessSpec.DecodeSlotsRecoversSignatures` | btcstaking/witness_utils.go:39-45 | decoding slot i of a slot list gives back signature i, nil entries included |
| `WitnessSpec.TimeLockPathLayout` | btcstaking/witness_utils.go:14-17 | the error is `DelegatorSigNil` exactly when the delegator signature is nil; otherwise the result is `CreateWitness` on the one serialized signature, i.e. `[sig, script, controlBlock]` |
| `WitnessSpec.UnbondingPathErrors` | btcstaking/witness_utils.go:36-53 | empty covenant list ⇔ `CovenantSigsEmpty`; non-empty list and nil delegator ⇔ `DelegatorSigNil`; success ⇔ both given and `ToBytes` succeeds; otherwise the control-block error |
| `WitnessSpec.UnbondingPathLayout` | btcstaking/witness_utils.go:39-53 | on success: length \|cov\| + 3, slot i is `Slot(cov[i])` and is empty iff `cov[i]` is nil, then the delegator signature, the script and the control block |
| `WitnessSpec.UnbondingPathRecoversSignatures` | btcstaking/witness_utils.go:39-51 | on success, decoding slot i gives covenant signature i (or nil), and slot \|cov\| gives the delegator signature |
| `WitnessSpec.SlashingPathErrors` | btcstaking/witness_utils.go:74-101 | empty covenant list ⇔ `CovenantSigsEmpty`; non-empty covenant list and empty fp list ⇔ `FinalityProviderSigsEmpty`; both lists non-empty and nil delegator ⇔ `DelegatorSigNil`; success ⇔ all checks pass and `ToBytes` succeeds |
| `WitnessSpec.SlashingPathLayout` | btcstaking/witness_utils.go:77-104 | on success: length \|cov\| + \|fp\| + 3, covenant slots first, finality-provider slots next, then the delegator signature, the script and the control block |
| `WitnessSpec.SlashingPathRecoversSignatures` | btcstaking/witness_utils.go:77-102 | on success, each covenant and finality-provider signature (or nil) is recovered at its own position, and the delegator signature follows them |
| `WitnessSpec.UnbondingExample` | btcstaking/witness_utils.go:24-54 | covenant `[A, nil, C]` with delegator D gives `[A, "", C, D, script, controlBlock]` |
| `WitnessSpec.SlashingExample` | btcstaking/witness_utils.go:61-105 | covenant `[nil, B]`, fp `[F, nil]` and delegator D give `["", B, F, "", D, script, controlBlock]` |
| `WitnessUtils.CreateWitness` | btcstaking/witness_utils.go:113-136 | the fixed-size stack filled by index equals the reference `Witness` |
| `WitnessUtils.CreateTimeLockPathWitness` | btcstaking/witness_utils.go:10-18 | the result equals the reference `TimeLockPathWitness` |
| `WitnessUtils.CreateUnbondingPathWitness` | btcstaking/witness_utils.go:24-54 | the stack grown by appending in the loop, plus its errors, equals the reference `UnbondingPathWitness` |
| `WitnessUtils.CreateSlashingPathWitness` | btcstaking/witness_utils.go:61-105 | the stack grown by the two append loops, plus its errors, equals the reference `SlashingPathWitness` |

## Left out

- Nil `SpendInfo` receiver (`:11-13`, `:28-30`, `:66-68`) and the nil dereference in `CreateWitness`: these panics are modelled as the precondition `si != null`, not as an outcome.
- `Schnorr.Serialize`: the signature holds r and s as their 32-byte big-endian encodings, and serializing concatenates them. The field and scalar arithmetic of btcec, signing and verification are not modelled.
- `ControlBlock.ToBytes` and `SpendInfo.GetPkScriptPath` are defined outside the modelled file. The control block records the outcome of its own serialization: the bytes, or the message of the error it reports. The script is an opaque byte string.
- Error values: the Go code builds errors with `fmt.Errorf` messages. Here they are distinct constructors, and the control-block error wraps the collaborator's message unchanged.
- Aliasing: the Go stack shares the caller's byte slices and the script slice held by `SpendInfo`. The model works on values, so it says nothing about later mutation through those shared slices.
- The `wire.TxWitness` wire encoding and transaction assembly belong to btcd, not to this code.
- The covenant quorum and the rule that one of the finality-provider signatures must be present are left to the caller by the code (`:22-23`, `:35`, `:58-60`, `:86`). Nothing here counts present signatures.
